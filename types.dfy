/**
 * The records exchanged between the partner dashboard and its back end
 * (src/lib/types.ts). Identifiers and timestamps are opaque strings, and
 * calendar dates are day numbers (days since 1970-01-01), so that "not before"
 * is integer comparison.
 */
module Types {
  import opened Wrappers

  type Day = int
  type Timestamp = string

  datatype Weekday = Monday | Tuesday | Wednesday | Thursday | Friday | Saturday | Sunday

  /** The tag a weekday carries in JSON and in form keys. */
  function Tag(d: Weekday): string {
    match d
    case Monday => "monday"
    case Tuesday => "tuesday"
    case Wednesday => "wednesday"
    case Thursday => "thursday"
    case Friday => "friday"
    case Saturday => "saturday"
    case Sunday => "sunday"
  }

  /** The seven weekdays in calendar order, as both forms list them. */
  const Week: seq<Weekday> := [Monday, Tuesday, Wednesday, Thursday, Friday, Saturday, Sunday]

  datatype PartnerUser = PartnerUser(
    id: string,
    email: string,
    firstName: string,
    lastName: string,
    establishmentId: string,
    avatarUrl: Option<string>,
    createdAt: Timestamp)

  datatype AuthTokens = AuthTokens(token: string, refreshToken: Option<string>)

  datatype AuthResponse = AuthResponse(user: PartnerUser, tokens: AuthTokens)

  datatype RegisterPayload = RegisterPayload(
    firstName: string,
    lastName: string,
    email: string,
    password: string,
    establishmentName: string,
    acceptTerms: bool)

  datatype LoginPayload = LoginPayload(email: string, password: string)

  datatype EstablishmentAddress = EstablishmentAddress(
    line1: string,
    line2: Option<string>,
    postalCode: string,
    city: string,
    country: string)

  datatype OpeningSlot = OpeningSlot(open: string, close: string)

  datatype OpeningDay = OpeningDay(day: Weekday, slots: seq<OpeningSlot>)

  datatype Establishment = Establishment(
    id: string,
    name: string,
    description: string,
    phone: string,
    email: string,
    address: EstablishmentAddress,
    openingHours: seq<OpeningDay>,
    photos: seq<string>,
    createdAt: Timestamp,
    updatedAt: Timestamp)

  datatype OfferType = Percentage | Special | HappyHour

  datatype OfferSchedule = OfferSchedule(days: seq<Weekday>, startTime: string, endTime: string)

  datatype OfferValidity = OfferValidity(startDate: Day, endDate: Day)

  datatype Offer = Offer(
    id: string,
    establishmentId: string,
    title: string,
    description: string,
    offerType: OfferType,
    percentage: Option<real>,
    specialText: Option<string>,
    happyHourPrice: Option<real>,
    schedule: OfferSchedule,
    validity: OfferValidity,
    isActive: bool,
    createdAt: Timestamp,
    updatedAt: Timestamp)

  datatype TrendPoint = TrendPoint(tag: string, value: int)  // `label` in the source; a reserved word here

  datatype StatsOverview = StatsOverview(
    totalVisitors: int,
    offersViewed: int,
    offersRedeemed: int,
    activeOffers: int,
    visitorsTrend: seq<TrendPoint>)

  /** A list reply: the items and how many there are. */
  datatype ListResponse<T> = ListResponse(data: seq<T>, total: int)

  /** A reply envelope with an optional status message. */
  datatype SuccessResponse<T> = SuccessResponse(data: T, message: Option<string>)
}
