/**
 * The request and response shapes of the booking API and the field
 * constraints pydantic enforces on them.
 */
module Schemas {
  import opened Wrappers
  import opened Calendar

  const NameMinLength := 1
  const NameMaxLength := 100
  const PhoneMinLength := 10
  const PhoneMaxLength := 20
  const HourMin := 0
  const HourMax := 23

  /** `name: str = Field(..., min_length=1, max_length=100)`, on clients and on booking requests alike. */
  predicate ValidName(name: string) {
    NameMinLength <= |name| <= NameMaxLength
  }

  /** `phone: str = Field(..., min_length=10, max_length=20)`, on clients and on booking requests alike. */
  predicate ValidPhone(phone: string) {
    PhoneMinLength <= |phone| <= PhoneMaxLength
  }

  /** `booking_hour: int = Field(..., ge=0, le=23)`. */
  predicate ValidHour(hour: int) {
    HourMin <= hour <= HourMax
  }

  /** The `date_not_in_past` validator: a date is refused only when it is strictly before today. */
  predicate NotInPast(d: Date, today: Date) {
    !Before(d, today)
  }

  /** The body of a booking request. */
  datatype BookingCreate = BookingCreate(name: string, phone: string, bookingDate: Date, bookingHour: int)

  /** One failed field constraint, as pydantic reports it. */
  datatype FieldError = NameLength | PhoneLength | NotADate | DateInPast | HourOutOfRange

  /**
   * Every constraint the request breaks, in the order of the fields.
   * The past-date validator runs only on a value that parsed as a date.
   */
  function Violations(req: BookingCreate, today: Date): seq<FieldError> {
    (if ValidName(req.name) then [] else [NameLength])
    + (if ValidPhone(req.phone) then [] else [PhoneLength])
    + (if !IsValidDate(req.bookingDate) then [NotADate]
       else if !NotInPast(req.bookingDate, today) then [DateInPast]
       else [])
    + (if ValidHour(req.bookingHour) then [] else [HourOutOfRange])
  }

  /** The field constraints of the `BookingCreate` type that do not depend on the clock. */
  predicate WellFormed(req: BookingCreate) {
    ValidName(req.name) && ValidPhone(req.phone) && IsValidDate(req.bookingDate) && ValidHour(req.bookingHour)
  }

  /** Validation of a request body into a `BookingCreate`; `today` is `date.today()`. */
  function ValidateBookingCreate(req: BookingCreate, today: Date): (r: Result<BookingCreate, seq<FieldError>>)
    ensures r.Ok? <==> WellFormed(req) && NotInPast(req.bookingDate, today)
    ensures r.Ok? ==> r.value == req
    ensures r.Err? ==> r.error == Violations(req, today) && |r.error| > 0
  {
    var errors := Violations(req, today);
    if errors == [] then Ok(req) else Err(errors)
  }

  /** Each field is reported exactly when its own constraint fails. */
  lemma {:induction false} ViolationsAreExact(req: BookingCreate, today: Date)
    ensures NameLength in Violations(req, today) <==> !(1 <= |req.name| <= 100)
    ensures PhoneLength in Violations(req, today) <==> !(10 <= |req.phone| <= 20)
    ensures HourOutOfRange in Violations(req, today) <==> !(0 <= req.bookingHour <= 23)
    ensures DateInPast in Violations(req, today) <==> IsValidDate(req.bookingDate) && Before(req.bookingDate, today)
    ensures NotADate in Violations(req, today) <==> !IsValidDate(req.bookingDate)
  {
  }

  /** Today itself is bookable; yesterday is not. */
  lemma TodayIsNotPast(req: BookingCreate, today: Date)
    requires WellFormed(req)
    ensures req.bookingDate == today ==> ValidateBookingCreate(req, today) == Ok(req)
    ensures Before(req.bookingDate, today) ==> ValidateBookingCreate(req, today) == Err([DateInPast])
  {
    if Before(req.bookingDate, today) {
      assert Violations(req, today) == [DateInPast];
    }
  }

  /** A client as the API returns it (`ClientResponse`); `created_at` is not modelled. */
  datatype ClientResponse = ClientResponse(id: int, name: string, phone: string)

  /** The per-day availability record `DayStatusResponse`. */
  datatype DayStatus = DayStatus(date: Date, hasBookings: bool, availableHours: seq<int>, bookedHours: seq<int>)
}
