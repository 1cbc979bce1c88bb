/** The outcomes a request can be refused with. */
module Errors {

  datatype Error =
    | PlayerRequired
    | CourtRequired
    | SlotRequired
    | SlotNotOnTheHour
    | SlotNotOnTheGrid
    | SlotInThePast
    | SlotTooFarAhead
    | SlotOutsideOpeningHours
    | SlotTaken
    | CourtNotFound
    | CourtInactive
    | VenueInactive
    | UserNotFound
    | NotAPlayer
    | PlayerInactive
    | BookingNotFound
    | HoldLapsed
    | AlreadyPaid
    | SearchCityRequired
    | SearchDateRequired
    | SearchHoursInvalid
    | SessionInvalid
    /** A storage call reported failure, whether or not it took effect. */
    | StorageFailed
    /** A gateway call reported failure, whether or not it took effect. */
    | GatewayFailed
    /** The gateway failed and so did the release that followed. */
    | GatewayAndStorageFailed
}
