/**
 * The booking API: the slot ledger (bookings keyed by id, clients keyed by
 * id with unique phones) and the queries over it.
 */
module StudioApi {
  import opened Wrappers
  import opened Calendar
  import opened Schemas
  import opened Models
  import opened TableScan

  /** The error answers of the API. */
  datatype ApiError =
    | Invalid(errors: seq<FieldError>)  // request validation (422)
    | HourTaken                         // "this hour is already taken" (400)
    | BookingNotFound                   // 404
    | ClientNotFound                    // 404
    | MonthOutOfRange                   // month outside 1..12 (400)
    | YearOutOfRange                    // `date(year, month, 1)` raises (500)
    | IdOverflow                        // the driver cannot bind the id into the query (500)

  /** `list(range(lo, hi))`. */
  function Range(lo: int, hi: int): seq<int>
    decreases hi - lo
  {
    if lo >= hi then [] else [lo] + Range(lo + 1, hi)
  }

  /** `range(lo, hi)` holds exactly the integers from `lo` up to but excluding `hi`, ascending. */
  lemma {:induction false} RangeMeaning(lo: int, hi: int)
    ensures forall h :: h in Range(lo, hi) <==> lo <= h < hi
    ensures StrictlyIncreasing(Range(lo, hi))
    decreases hi - lo
  {
    if lo < hi {
      var rest := Range(lo + 1, hi);
      RangeMeaning(lo + 1, hi);
      assert forall i :: 0 <= i < |rest| ==> lo < rest[i] by {
        forall i | 0 <= i < |rest| ensures lo < rest[i] {
          assert rest[i] in rest;
        }
      }
    }
  }

  /** The studio's working window: slots 9:00 to 20:00. */
  const WorkStart := 9
  const WorkEnd := 21
  const WorkHours: seq<int> := Range(WorkStart, WorkEnd)

  /** `[h for h in hours if h not in booked]`. */
  function FreeHours(hours: seq<int>, booked: seq<int>): seq<int> {
    if hours == [] then [] else (if hours[0] in booked then [] else [hours[0]]) + FreeHours(hours[1..], booked)
  }

  /** The comprehension keeps exactly the hours not booked, in their order. */
  lemma {:induction false} FreeHoursMeaning(hours: seq<int>, booked: seq<int>)
    ensures forall h :: h in FreeHours(hours, booked) <==> h in hours && h !in booked
    ensures StrictlyIncreasing(hours) ==> StrictlyIncreasing(FreeHours(hours, booked))
  {
    if hours != [] {
      var rest := FreeHours(hours[1..], booked);
      FreeHoursMeaning(hours[1..], booked);
      assert hours == [hours[0]] + hours[1..];
      assert StrictlyIncreasing(hours) ==> forall i :: 0 <= i < |rest| ==> hours[0] < rest[i] by {
        if StrictlyIncreasing(hours) {
          forall i | 0 <= i < |rest| ensures hours[0] < rest[i] {
            assert rest[i] in rest;
            var j :| 0 <= j < |hours[1..]| && hours[1..][j] == rest[i];
            assert hours[j + 1] == rest[i];
          }
        }
      }
    }
  }

  /** The hour column of the rows `ks`, in row order. */
  function Hours(m: map<int, Booking>, ks: seq<int>): (r: seq<int>)
    requires forall i :: 0 <= i < |ks| ==> ks[i] in m
    ensures |r| == |ks|
    ensures forall i :: 0 <= i < |ks| ==> r[i] == m[ks[i]].bookingHour
  {
    if ks == [] then [] else Hours(m, ks[..|ks| - 1]) + [m[ks[|ks| - 1]].bookingHour]
  }

  /** The keys of the bookings on day `d`. */
  function KeysOn(m: map<int, Booking>, d: Date): set<int> {
    set k | k in m && m[k].bookingDate == d
  }

  /** The keys `ks` whose booking is on day `d`, in the same order. */
  function Dated(m: map<int, Booking>, ks: seq<int>, d: Date): (r: seq<int>)
    requires forall i :: 0 <= i < |ks| ==> ks[i] in m
    ensures forall i :: 0 <= i < |r| ==> r[i] in m
  {
    if ks == [] then []
    else
      var last := ks[|ks| - 1];
      Dated(m, ks[..|ks| - 1], d) + (if m[last].bookingDate == d then [last] else [])
  }

  /** The rows kept are exactly those of `ks` on day `d`, and an ascending list stays ascending. */
  lemma {:induction false} DatedMeaning(m: map<int, Booking>, ks: seq<int>, d: Date)
    requires forall i :: 0 <= i < |ks| ==> ks[i] in m
    ensures forall k :: k in Dated(m, ks, d) <==> k in ks && m[k].bookingDate == d
    ensures StrictlyIncreasing(ks) ==> StrictlyIncreasing(Dated(m, ks, d))
  {
    if ks != [] {
      var last := ks[|ks| - 1];
      var front := ks[..|ks| - 1];
      assert ks == front + [last];
      var r := Dated(m, front, d);
      DatedMeaning(m, front, d);
      assert StrictlyIncreasing(ks) ==> forall i :: 0 <= i < |r| ==> r[i] < last by {
        if StrictlyIncreasing(ks) {
          forall i | 0 <= i < |r| ensures r[i] < last {
            assert r[i] in r;
            var j :| 0 <= j < |front| && front[j] == r[i];
          }
        }
      }
    }
  }

  /** The status of day `d` given its booked hours: the working hours not booked are available. */
  function StatusFrom(d: Date, booked: seq<int>): DayStatus {
    DayStatus(d, |booked| > 0, FreeHours(WorkHours, booked), booked)
  }

  /** The hours booked on day `d`, in row order. */
  function BookedOn(m: map<int, Booking>, d: Date): seq<int> {
    Hours(m, AscendingKeys(KeysOn(m, d)))
  }

  /** `get_day_status`: the hours booked on day `d` in row order, and the working hours left free. */
  function DayStatusOf(m: map<int, Booking>, d: Date): DayStatus {
    StatusFrom(d, BookedOn(m, d))
  }

  /**
   * What a day status means: the booked hours are the hours some booking of
   * that day holds, whatever its status; the available hours are the other
   * working hours, ascending; the day has bookings exactly when some booking
   * is on it; and there is one booked hour per booking of the day.
   */
  lemma DayStatusMeaning(m: map<int, Booking>, d: Date)
    ensures DayStatusOf(m, d).date == d
    ensures forall h :: h in DayStatusOf(m, d).bookedHours <==> SlotTaken(m, d, h)
    ensures DayStatusOf(m, d).hasBookings <==> exists k :: k in m && m[k].bookingDate == d
    ensures forall h :: h in DayStatusOf(m, d).availableHours <==> WorkStart <= h < WorkEnd && !SlotTaken(m, d, h)
    ensures forall h :: !(h in DayStatusOf(m, d).availableHours && h in DayStatusOf(m, d).bookedHours)
    ensures StrictlyIncreasing(DayStatusOf(m, d).availableHours)
    ensures |DayStatusOf(m, d).bookedHours| == |KeysOn(m, d)|
  {
    var keys := AscendingKeys(KeysOn(m, d));
    var booked := Hours(m, keys);
    forall h ensures h in booked <==> SlotTaken(m, d, h) {
      if h in booked {
        var i :| 0 <= i < |booked| && booked[i] == h;
        assert keys[i] in keys;
      }
      if SlotTaken(m, d, h) {
        var k :| k in m && m[k].bookingDate == d && m[k].bookingHour == h;
        assert k in keys;
        var i :| 0 <= i < |keys| && keys[i] == k;
        assert booked[i] == h;
      }
    }
    if |booked| > 0 {
      assert keys[0] in keys;
    }
    if exists k :: k in m && m[k].bookingDate == d {
      var k :| k in m && m[k].bookingDate == d;
      assert k in keys;
    }
    RangeMeaning(WorkStart, WorkEnd);
    FreeHoursMeaning(WorkHours, booked);
  }

  /** `start_date <= d <= end_date`, each bound optional. */
  predicate InRange(d: Date, start: Option<Date>, end: Option<Date>) {
    (start.None? || !Before(d, start.value)) && (end.None? || !Before(end.value, d))
  }

  function KeysBetween(m: map<int, Booking>, start: Option<Date>, end: Option<Date>): set<int> {
    set k | k in m && InRange(m[k].bookingDate, start, end)
  }

  /**
   * `get_bookings`: exactly the bookings dated within the optional bounds,
   * sorted by (date, hour).
   */
  function GetBookings(m: map<int, Booking>, start: Option<Date>, end: Option<Date>): (r: seq<Booking>)
    ensures SortedBySlot(r)
    ensures |r| == |KeysBetween(m, start, end)|
    ensures forall b :: b in r <==> exists k :: k in m && m[k] == b && InRange(b.bookingDate, start, end)
  {
    var keys := AscendingKeys(KeysBetween(m, start, end));
    var rows := Rows(m, keys);
    RowsMembership(m, keys);
    SortKeepsElements(rows);
    SortBySlot(rows)
  }

  /** `get_client`: the client stored under `id`, or not-found; an id outside SQLite's range makes the query raise. */
  function GetClient(clients: map<int, Client>, id: int): (r: Result<ClientResponse, ApiError>)
    ensures r == Err(IdOverflow) <==> !FitsSqlInteger(id)
    ensures r == Err(ClientNotFound) <==> FitsSqlInteger(id) && id !in clients
    ensures r.Ok? <==> FitsSqlInteger(id) && id in clients
    ensures r.Ok? ==> r.value.id == clients[id].id && r.value.name == clients[id].name && r.value.phone == clients[id].phone
  {
    if !FitsSqlInteger(id) then Err(IdOverflow)
    else if id in clients then Ok(ClientResponse(clients[id].id, clients[id].name, clients[id].phone))
    else Err(ClientNotFound)
  }

  /** `bookings_by_date.get(d, [])`. */
  function Listed(byDate: map<Date, seq<int>>, d: Date): seq<int> {
    if d in byDate then byDate[d] else []
  }

  /** Within the month, the month's rows on day `d` are the rows that the day query returns. */
  lemma {:induction false} MonthRowsOnDay(m: map<int, Booking>, first: Date, last: Date, d: Date)
    requires InRange(d, Some(first), Some(last))
    ensures Dated(m, AscendingKeys(KeysBetween(m, Some(first), Some(last))), d) == AscendingKeys(KeysOn(m, d))
  {
    var rows := AscendingKeys(KeysBetween(m, Some(first), Some(last)));
    var a := Dated(m, rows, d);
    var b := AscendingKeys(KeysOn(m, d));
    DatedMeaning(m, rows, d);
    forall k ensures k in a <==> k in b {
    }
    IncreasingIsDeterminedByElements(a, b);
  }

  /** Appending a row extends its day's hour list by its hour and leaves the other days alone. */
  lemma HoursOfDatedStep(m: map<int, Booking>, ks: seq<int>, k: int, d: Date)
    requires forall i :: 0 <= i < |ks| ==> ks[i] in m
    requires k in m
    ensures Hours(m, Dated(m, ks + [k], d))
         == Hours(m, Dated(m, ks, d)) + (if m[k].bookingDate == d then [m[k].bookingHour] else [])
  {
    var ks' := ks + [k];
    assert ks'[..|ks'| - 1] == ks;
    if m[k].bookingDate == d {
      var r := Dated(m, ks, d) + [k];
      assert r[..|r| - 1] == Dated(m, ks, d);
    } else {
      assert Dated(m, ks', d) == Dated(m, ks, d) + [];
    }
  }

  /** One step of the grouping loop: adding row `k` to its date's list keeps each list equal to its date's hours. */
  lemma GroupStep(m: map<int, Booking>, ks: seq<int>, k: int, byDate: map<Date, seq<int>>)
    requires forall i :: 0 <= i < |ks| ==> ks[i] in m
    requires k in m
    requires forall d :: Listed(byDate, d) == Hours(m, Dated(m, ks, d))
    ensures forall d ::
      Listed(byDate[m[k].bookingDate := Listed(byDate, m[k].bookingDate) + [m[k].bookingHour]], d)
      == Hours(m, Dated(m, ks + [k], d))
  {
    var day := m[k].bookingDate;
    var next := byDate[day := Listed(byDate, day) + [m[k].bookingHour]];
    forall d ensures Listed(next, d) == Hours(m, Dated(m, ks + [k], d)) {
      HoursOfDatedStep(m, ks, k, d);
      if d == day {
        assert Listed(next, d) == Listed(byDate, d) + [m[k].bookingHour];
      } else {
        assert Listed(next, d) == Listed(byDate, d);
      }
    }
  }

  /** The grouping loop of `get_month_calendar`: each date's hours, in row order. */
  method GroupByDate(bookings: map<int, Booking>, rows: seq<int>) returns (byDate: map<Date, seq<int>>)
    requires forall i :: 0 <= i < |rows| ==> rows[i] in bookings
    ensures forall d :: Listed(byDate, d) == Hours(bookings, Dated(bookings, rows, d))
  {
    byDate := map[];
    var i := 0;
    while i < |rows|
      invariant 0 <= i <= |rows|
      invariant forall d :: Listed(byDate, d) == Hours(bookings, Dated(bookings, rows[..i], d))
    {
      var b := bookings[rows[i]];
      GroupStep(bookings, rows[..i], rows[i], byDate);
      assert rows[..i + 1] == rows[..i] + [rows[i]];
      byDate := byDate[b.bookingDate := Listed(byDate, b.bookingDate) + [b.bookingHour]];
      i := i + 1;
    }
    assert rows[..|rows|] == rows;
  }

  /** Within the month, the grouped hours of a day are the hours the day query reads. */
  lemma DayFromGroups(m: map<int, Booking>, first: Date, last: Date, byDate: map<Date, seq<int>>, d: Date)
    requires InRange(d, Some(first), Some(last))
    requires forall d :: Listed(byDate, d) == Hours(m, Dated(m, AscendingKeys(KeysBetween(m, Some(first), Some(last))), d))
    ensures Listed(byDate, d) == BookedOn(m, d)
  {
    MonthRowsOnDay(m, first, last, d);
  }

  /** The per-day loop of `get_month_calendar`. */
  method DaysOfMonth(bookings: map<int, Booking>, year: int, month: int, numDays: nat, byDate: map<Date, seq<int>>)
      returns (result: seq<DayStatus>)
    requires forall day :: 1 <= day <= numDays ==> Listed(byDate, Date(year, month, day)) == BookedOn(bookings, Date(year, month, day))
    ensures |result| == numDays
    ensures forall j :: 0 <= j < numDays ==> result[j] == DayStatusOf(bookings, Date(year, month, j + 1))
  {
    result := [];
    var day := 1;
    while day <= numDays
      invariant 1 <= day <= numDays + 1
      invariant |result| == day - 1
      invariant forall j :: 0 <= j < |result| ==> result[j] == DayStatusOf(bookings, Date(year, month, j + 1))
    {
      var current := Date(year, month, day);
      result := result + [StatusFrom(current, Listed(byDate, current))];
      day := day + 1;
    }
  }

  /**
   * `get_month_calendar`: one status per day of the month, for days 1 to
   * the month's length in order, each the status `get_day_status` gives.
   */
  method MonthCalendar(bookings: map<int, Booking>, year: int, month: int) returns (r: Result<seq<DayStatus>, ApiError>)
    ensures !(1 <= month <= 12) ==> r == Err(MonthOutOfRange)
    ensures 1 <= month <= 12 && !(MinYear <= year <= MaxYear) ==> r == Err(YearOutOfRange)
    ensures 1 <= month <= 12 && MinYear <= year <= MaxYear ==>
      && r.Ok?
      && |r.value| == DaysInMonth(year, month)
      && forall i :: 0 <= i < |r.value| ==> r.value[i] == DayStatusOf(bookings, Date(year, month, i + 1))
  {
    if month < 1 || month > 12 {
      return Err(MonthOutOfRange);
    }
    var numDays := DaysInMonth(year, month);
    if year < MinYear || year > MaxYear {
      return Err(YearOutOfRange);
    }
    var firstDay := Date(year, month, 1);
    var lastDay := Date(year, month, numDays);
    var rows := AscendingKeys(KeysBetween(bookings, Some(firstDay), Some(lastDay)));
    var byDate := GroupByDate(bookings, rows);

    forall day | 1 <= day <= numDays
      ensures Listed(byDate, Date(year, month, day)) == BookedOn(bookings, Date(year, month, day))
    {
      DayFromGroups(bookings, firstDay, lastDay, byDate, Date(year, month, day));
    }
    var days := DaysOfMonth(bookings, year, month, numDays, byDate);
    return Ok(days);
  }

  /** The client `.first()` finds by phone, if any. */
  function ClientWithPhone(clients: map<int, Client>, phone: string): (r: Option<int>)
    ensures r.Some? <==> PhoneKnown(clients, phone)
    ensures r.Some? ==> r.value in clients && clients[r.value].phone == phone
  {
    var known := set k | k in clients && clients[k].phone == phone;
    assert forall k :: k in clients ==> (k in known <==> clients[k].phone == phone);
    if known == {} then None
    else Some(Least(known))
  }

  /** The client a booking request is filed under: the one with its phone, or a new row. */
  function ClientKey(clients: map<int, Client>, req: BookingCreate): int {
    match ClientWithPhone(clients, req.phone)
    case Some(k) => k
    case None => NextKey(clients.Keys)
  }

  /** The client table after a booking request: unchanged for a known phone, else with the new client added. */
  function ClientsAfter(clients: map<int, Client>, req: BookingCreate): map<int, Client> {
    if PhoneKnown(clients, req.phone) then clients
    else clients[NextKey(clients.Keys) := Client(NextKey(clients.Keys), req.name, req.phone)]
  }

  /** The row `create_booking` inserts. */
  function BookingFor(bookings: map<int, Booking>, clients: map<int, Client>, req: BookingCreate): Booking {
    NewBooking(NextKey(bookings.Keys), ClientKey(clients, req), req.bookingDate, req.bookingHour)
  }

  /**
   * The row of a successful booking request: a fresh id, the requested
   * slot, status pending, no Telegram link yet, filed under a client with
   * the request's phone; a known phone keeps its client (and that client's
   * stored name), an unknown one adds exactly one client with the request's
   * name and phone.
   */
  lemma CreatedBooking(bookings: map<int, Booking>, clients: map<int, Client>, req: BookingCreate)
    ensures var b := BookingFor(bookings, clients, req);
      && b.id !in bookings
      && b.bookingDate == req.bookingDate && b.bookingHour == req.bookingHour
      && b.status == Pending && b.telegramUserId.None? && b.confirmationMessageId.None?
      && b.clientId in ClientsAfter(clients, req)
      && ClientsAfter(clients, req)[b.clientId].phone == req.phone
      && (PhoneKnown(clients, req.phone) ==> ClientsAfter(clients, req) == clients)
      && (!PhoneKnown(clients, req.phone) ==>
            b.clientId !in clients
            && ClientsAfter(clients, req) == clients[b.clientId := Client(b.clientId, req.name, req.phone)])
  {
  }

  /** Adding a client with a new id and a phone no stored client has keeps the tables consistent. */
  lemma AddClientKeepsConsistency(bookings: map<int, Booking>, clients: map<int, Client>, c: Client)
    requires Consistent(bookings, clients)
    requires c.id !in clients && !PhoneKnown(clients, c.phone)
    requires ValidName(c.name) && ValidPhone(c.phone)
    ensures Consistent(bookings, clients[c.id := c])
  {
    var clients' := clients[c.id := c];
    forall i, j | i in clients' && j in clients' && i != j ensures clients'[i].phone != clients'[j].phone {
      if i == c.id {
        assert j in clients;
      } else if j == c.id {
        assert i in clients;
      }
    }
  }

  /** Adding a booking with a new id, for a free slot and a stored client, keeps the tables consistent. */
  lemma AddBookingKeepsConsistency(bookings: map<int, Booking>, clients: map<int, Client>, b: Booking)
    requires Consistent(bookings, clients)
    requires b.id !in bookings && b.clientId in clients
    requires !SlotTaken(bookings, b.bookingDate, b.bookingHour)
    requires IsValidDate(b.bookingDate) && ValidHour(b.bookingHour)
    ensures Consistent(bookings[b.id := b], clients)
  {
    var bookings' := bookings[b.id := b];
    forall i, j | i in bookings' && j in bookings' && i != j
      ensures bookings'[i].bookingDate != bookings'[j].bookingDate || bookings'[i].bookingHour != bookings'[j].bookingHour
    {
      if i == b.id {
        assert j in bookings;
      } else if j == b.id {
        assert i in bookings;
      }
    }
  }

  /** A booking request for a free slot keeps every table constraint. */
  lemma CreatePreservesConsistency(bookings: map<int, Booking>, clients: map<int, Client>, req: BookingCreate)
    requires Consistent(bookings, clients)
    requires WellFormed(req)
    requires !SlotTaken(bookings, req.bookingDate, req.bookingHour)
    ensures var b := BookingFor(bookings, clients, req);
      Consistent(bookings[b.id := b], ClientsAfter(clients, req))
  {
    var b := BookingFor(bookings, clients, req);
    var clients' := ClientsAfter(clients, req);
    CreatedBooking(bookings, clients, req);
    if !PhoneKnown(clients, req.phone) {
      AddClientKeepsConsistency(bookings, clients, Client(b.clientId, req.name, req.phone));
    }
    assert Consistent(bookings, clients');
    AddBookingKeepsConsistency(bookings, clients', b);
  }

  /** After a successful request its slot is no longer offered, and the new row is the slot's only holder. */
  lemma CreateTakesSlot(bookings: map<int, Booking>, clients: map<int, Client>, req: BookingCreate)
    requires Consistent(bookings, clients)
    requires WellFormed(req)
    requires !SlotTaken(bookings, req.bookingDate, req.bookingHour)
    ensures var b := BookingFor(bookings, clients, req);
      var status := DayStatusOf(bookings[b.id := b], req.bookingDate);
      var after := bookings[b.id := b];
      && req.bookingHour in status.bookedHours
      && req.bookingHour !in status.availableHours
      && forall k :: k in after && after[k].bookingDate == req.bookingDate && after[k].bookingHour == req.bookingHour ==> k == b.id
  {
    var b := BookingFor(bookings, clients, req);
    CreatedBooking(bookings, clients, req);
    CreatePreservesConsistency(bookings, clients, req);
    DayStatusMeaning(bookings[b.id := b], req.bookingDate);
    assert SlotTaken(bookings[b.id := b], req.bookingDate, req.bookingHour) by {
      assert b.id in bookings[b.id := b];
    }
  }

  /** Deleting the row a request just made gives back the booking table as it was. */
  lemma CreateThenDelete(bookings: map<int, Booking>, clients: map<int, Client>, req: BookingCreate)
    ensures var b := BookingFor(bookings, clients, req);
      bookings[b.id := b] - {b.id} == bookings
  {
    var b := BookingFor(bookings, clients, req);
    CreatedBooking(bookings, clients, req);
    assert b.id !in bookings;
  }

  /** Deleting a booking frees its hour: a working hour is offered again on that day. */
  lemma DeleteFreesHour(bookings: map<int, Booking>, id: int)
    requires SlotsUnique(bookings) && id in bookings
    requires WorkStart <= bookings[id].bookingHour < WorkEnd
    ensures bookings[id].bookingHour in DayStatusOf(bookings - {id}, bookings[id].bookingDate).availableHours
    ensures bookings[id].bookingHour !in DayStatusOf(bookings - {id}, bookings[id].bookingDate).bookedHours
  {
    RemovalFreesSlot(bookings, id);
    DayStatusMeaning(bookings - {id}, bookings[id].bookingDate);
  }

  /** The two tables behind the API, as the database holds them between requests. */
  class Ledger {
    var bookings: map<int, Booking>
    var clients: map<int, Client>

    ghost predicate Valid()
      reads this
    {
      Consistent(bookings, clients)
    }

    /** `create_all` on a new database: both tables empty. */
    constructor ()
      ensures Valid() && bookings == map[] && clients == map[]
    {
      bookings := map[];
      clients := map[];
    }

    /**
     * `create_booking` for a validated request: refused when any booking
     * holds the slot; otherwise the client is found by phone or added, and
     * the new pending row is inserted.
     */
    method CreateBooking(req: BookingCreate) returns (r: Result<Booking, ApiError>)
      requires Valid() && WellFormed(req)
      modifies this
      ensures Valid()
      ensures old(SlotTaken(bookings, req.bookingDate, req.bookingHour)) ==>
        r == Err(HourTaken) && bookings == old(bookings) && clients == old(clients)
      ensures !old(SlotTaken(bookings, req.bookingDate, req.bookingHour)) ==>
        && r == Ok(BookingFor(old(bookings), old(clients), req))
        && bookings == old(bookings)[r.value.id := r.value]
        && clients == ClientsAfter(old(clients), req)
    {
      if SlotTaken(bookings, req.bookingDate, req.bookingHour) {
        return Err(HourTaken);
      }
      CreatePreservesConsistency(bookings, clients, req);
      var clientId;
      var found := ClientWithPhone(clients, req.phone);
      if found.None? {
        clientId := NextKey(clients.Keys);
        clients := clients[clientId := Client(clientId, req.name, req.phone)];
      } else {
        clientId := found.value;
      }
      var b := NewBooking(NextKey(bookings.Keys), clientId, req.bookingDate, req.bookingHour);
      bookings := bookings[b.id := b];
      return Ok(b);
    }

    /** `POST /api/bookings/`: the body is validated first, then booked; `today` is the server's date. */
    method PostBooking(req: BookingCreate, today: Date) returns (r: Result<Booking, ApiError>)
      requires Valid()
      modifies this
      ensures Valid()
      ensures !WellFormed(req) || !NotInPast(req.bookingDate, today) ==>
        r == Err(Invalid(Violations(req, today))) && bookings == old(bookings) && clients == old(clients)
      ensures WellFormed(req) && NotInPast(req.bookingDate, today) && old(SlotTaken(bookings, req.bookingDate, req.bookingHour)) ==>
        r == Err(HourTaken) && bookings == old(bookings) && clients == old(clients)
      ensures WellFormed(req) && NotInPast(req.bookingDate, today) && !old(SlotTaken(bookings, req.bookingDate, req.bookingHour)) ==>
        && r == Ok(BookingFor(old(bookings), old(clients), req))
        && bookings == old(bookings)[r.value.id := r.value]
        && clients == ClientsAfter(old(clients), req)
    {
      var checked := ValidateBookingCreate(req, today);
      if checked.Err? {
        return Err(Invalid(checked.error));
      }
      r := CreateBooking(req);
    }

    /**
     * `delete_booking`: removes the row, or answers not-found and changes
     * nothing; an id outside SQLite's range makes the query raise.
     */
    method DeleteBooking(id: int) returns (r: Result<(), ApiError>)
      requires Valid()
      modifies this
      ensures Valid()
      ensures clients == old(clients)
      ensures !FitsSqlInteger(id) ==> r == Err(IdOverflow) && bookings == old(bookings)
      ensures FitsSqlInteger(id) && id !in old(bookings) ==> r == Err(BookingNotFound) && bookings == old(bookings)
      ensures FitsSqlInteger(id) && id in old(bookings) ==> r == Ok(()) && bookings == old(bookings) - {id}
    {
      if !FitsSqlInteger(id) {
        return Err(IdOverflow);
      }
      if id !in bookings {
        return Err(BookingNotFound);
      }
      RemovalFreesSlot(bookings, id);
      bookings := bookings - {id};
      return Ok(());
    }

    /**
     * The bot's in-place update of a row's status or Telegram columns,
     * committed through the session; the slot and client stay as they are.
     */
    method UpdateBooking(b: Booking)
      requires Valid()
      requires b.id in bookings
      requires b.clientId == bookings[b.id].clientId
      requires b.bookingDate == bookings[b.id].bookingDate && b.bookingHour == bookings[b.id].bookingHour
      modifies this
      ensures Valid()
      ensures bookings == old(bookings)[b.id := b] && clients == old(clients)
    {
      bookings := bookings[b.id := b];
      assert SlotsUnique(bookings) by {
        forall i, j | i in bookings && j in bookings && i != j
          ensures bookings[i].bookingDate != bookings[j].bookingDate || bookings[i].bookingHour != bookings[j].bookingHour
        {
          assert i in old(bookings) && j in old(bookings);
        }
      }
    }
  }
}
