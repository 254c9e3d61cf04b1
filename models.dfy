/**
 * The two stored records, `Client` and `Booking`, with their column defaults
 * and the table constraints the schema declares.
 */
module Models {
  import opened Wrappers
  import opened Calendar
  import Schemas

  /** The values of `Booking.status`. `Cancelled` is documented but never assigned: cancelling deletes the row. */
  datatype Status = Pending | Confirmed | Paid | Cancelled

  datatype Client = Client(id: int, name: string, phone: string)

  datatype Booking = Booking(
    id: int,
    clientId: int,
    bookingDate: Date,
    bookingHour: int,
    status: Status,
    telegramUserId: Option<int>,
    confirmationMessageId: Option<int>)

  /**
   * The range of an SQLite `INTEGER`. The sqlite3 driver raises
   * `OverflowError` when a query binds a Python int outside it.
   */
  const SqlIntegerMin := -0x8000_0000_0000_0000
  const SqlIntegerMax := 0x7FFF_FFFF_FFFF_FFFF

  predicate FitsSqlInteger(n: int) {
    SqlIntegerMin <= n <= SqlIntegerMax
  }

  /** A booking row as it is first inserted: status defaults to pending, the Telegram columns are null. */
  function NewBooking(id: int, clientId: int, bookingDate: Date, bookingHour: int): Booking {
    Booking(id, clientId, bookingDate, bookingHour, Pending, None, None)
  }

  /** Some booking, of any status, holds the slot (`d`, `h`). */
  predicate SlotTaken(bookings: map<int, Booking>, d: Date, h: int) {
    exists k :: k in bookings && bookings[k].bookingDate == d && bookings[k].bookingHour == h
  }

  /** `UniqueConstraint('booking_date', 'booking_hour')`. */
  predicate SlotsUnique(bookings: map<int, Booking>) {
    forall i, j :: i in bookings && j in bookings && i != j ==>
      bookings[i].bookingDate != bookings[j].bookingDate || bookings[i].bookingHour != bookings[j].bookingHour
  }

  /** Some client already has this phone. */
  predicate PhoneKnown(clients: map<int, Client>, phone: string) {
    exists k :: k in clients && clients[k].phone == phone
  }

  /** `phone = Column(..., unique=True)`. */
  predicate PhonesUnique(clients: map<int, Client>) {
    forall i, j :: i in clients && j in clients && i != j ==> clients[i].phone != clients[j].phone
  }

  /** Each row is stored under its primary key. */
  predicate KeyedById(bookings: map<int, Booking>, clients: map<int, Client>) {
    && (forall k :: k in bookings ==> bookings[k].id == k)
    && (forall k :: k in clients ==> clients[k].id == k)
  }

  /** `client_id = Column(Integer, ForeignKey("clients.id"), nullable=False)`. */
  predicate ClientsExist(bookings: map<int, Booking>, clients: map<int, Client>) {
    forall k :: k in bookings ==> bookings[k].clientId in clients
  }

  /** Every stored row came through a validated request, so it meets the request's field bounds. */
  predicate FieldsInBounds(bookings: map<int, Booking>, clients: map<int, Client>) {
    && (forall k :: k in clients ==> Schemas.ValidName(clients[k].name) && Schemas.ValidPhone(clients[k].phone))
    && (forall k :: k in bookings ==> IsValidDate(bookings[k].bookingDate) && Schemas.ValidHour(bookings[k].bookingHour))
  }

  /** The table invariant of the store. */
  predicate Consistent(bookings: map<int, Booking>, clients: map<int, Client>) {
    && KeyedById(bookings, clients)
    && SlotsUnique(bookings)
    && PhonesUnique(clients)
    && ClientsExist(bookings, clients)
    && FieldsInBounds(bookings, clients)
  }

  /** Removing the holder of a slot frees the slot. */
  lemma RemovalFreesSlot(bookings: map<int, Booking>, k: int)
    requires SlotsUnique(bookings) && k in bookings
    ensures !SlotTaken(bookings - {k}, bookings[k].bookingDate, bookings[k].bookingHour)
    ensures SlotsUnique(bookings - {k})
  {
  }
}
