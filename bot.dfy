/**
 * The Telegram bot that confirms bookings: the admin list it reads from the
 * environment, the payloads it parses (deep links and button data), and its
 * handlers, each of which updates the booking table and yields the messages
 * it sends, in order.
 */
module Bot {
  import opened Wrappers
  import opened Calendar
  import opened PyText
  import opened Models
  import opened TableScan
  import opened StudioApi

  // --- Admin ids -----------------------------------------------------------

  /** `[int(x.strip()) for x in pieces if x.strip()]`: `None` where `int` raises. */
  function ParseIds(pieces: seq<string>): (r: Option<seq<int>>)
    ensures r.Some? ==> |r.value| <= |pieces|
  {
    if pieces == [] then Some([])
    else
      var rest := ParseIds(pieces[1..]);
      var t := Strip(pieces[0]);
      if t == [] then rest
      else match PyInt(t)
        case None => None
        case Some(n) => if rest.None? then None else Some([n] + rest.value)
  }

  /** The filter of the comprehension without its map: the stripped pieces that are not empty, in order. */
  function NonBlank(pieces: seq<string>): (r: seq<string>)
    ensures |r| <= |pieces|
    ensures forall i :: 0 <= i < |r| ==> r[i] != []
  {
    if pieces == [] then []
    else (if Strip(pieces[0]) == [] then [] else [Strip(pieces[0])]) + NonBlank(pieces[1..])
  }

  /** `int` accepts the piece, or the piece is blank. */
  predicate Readable(p: string) {
    Strip(p) != [] ==> PyInt(Strip(p)).Some?
  }

  /** Every element satisfies `ok`, checked from the front. */
  predicate AllFromFront<T>(s: seq<T>, ok: T -> bool) {
    s == [] || (ok(s[0]) && AllFromFront(s[1..], ok))
  }

  lemma {:induction false} AllFromFrontAt<T>(s: seq<T>, ok: T -> bool)
    ensures AllFromFront(s, ok) <==> forall i :: 0 <= i < |s| ==> ok(s[i])
  {
    if s != [] {
      var tail := s[1..];
      AllFromFrontAt(tail, ok);
      assert forall i :: 0 <= i < |tail| ==> tail[i] == s[i + 1];
    }
  }

  lemma {:induction false} ParseIdsReadable(pieces: seq<string>)
    ensures ParseIds(pieces).Some? <==> AllFromFront(pieces, Readable)
  {
    if pieces != [] {
      ParseIdsReadable(pieces[1..]);
    }
  }

  /** The parse succeeds exactly when `int` accepts every piece that is not blank. */
  lemma ParseIdsSucceeds(pieces: seq<string>)
    ensures ParseIds(pieces).Some? <==> forall i :: 0 <= i < |pieces| ==> Readable(pieces[i])
  {
    ParseIdsReadable(pieces);
    AllFromFrontAt(pieces, Readable);
  }

  /** A successful parse yields one id per non-blank piece, in order, each read from the stripped piece. */
  lemma {:induction false} ParseIdsValues(pieces: seq<string>)
    requires ParseIds(pieces).Some?
    ensures |ParseIds(pieces).value| == |NonBlank(pieces)|
    ensures forall i :: 0 <= i < |NonBlank(pieces)| ==> PyInt(NonBlank(pieces)[i]) == Some(ParseIds(pieces).value[i])
  {
    if pieces != [] {
      var tail := pieces[1..];
      var t := Strip(pieces[0]);
      assert ParseIds(tail).Some?;
      ParseIdsValues(tail);
      var v, w := ParseIds(pieces).value, ParseIds(tail).value;
      var nb, nbTail := NonBlank(pieces), NonBlank(tail);
      if t == [] {
        assert v == w && nb == nbTail;
      } else {
        var n := PyInt(t).value;
        assert v == [n] + w;
        assert nb == [t] + nbTail;
        forall i | 0 < i < |nb| ensures PyInt(nb[i]) == Some(v[i]) {
          assert nb[i] == nbTail[i - 1] && v[i] == w[i - 1];
        }
      }
    }
  }

  /** `ADMIN_IDS` from `TELEGRAM_ADMIN_CHAT_IDS`; `None` is the `ValueError` that stops the bot from starting. */
  function ParseAdminIds(raw: string): Option<seq<int>> {
    ParseIds(Split(raw, ','))
  }

  /** `str(n)` for each id. */
  function FormatIds(ids: seq<int>): (r: seq<string>)
    ensures |r| == |ids|
    ensures forall i :: 0 <= i < |ids| ==> r[i] == FormatInt(ids[i])
  {
    if ids == [] then [] else [FormatInt(ids[0])] + FormatIds(ids[1..])
  }

  /** `str(n)` is a non-blank piece that `int` reads back as `n`. */
  lemma FormattedPiece(n: int)
    ensures Strip(FormatInt(n)) == FormatInt(n) && FormatInt(n) != []
    ensures PyInt(FormatInt(n)) == Some(n)
  {
    FormatIntShape(n);
    StripUnpadded(FormatInt(n));
    FormatIntParses(n);
  }

  /** Pieces that are already stripped and non-empty all pass the filter. */
  lemma {:induction false} NonBlankKeepsUnpadded(pieces: seq<string>)
    requires forall i :: 0 <= i < |pieces| ==> pieces[i] != [] && Strip(pieces[i]) == pieces[i]
    ensures NonBlank(pieces) == pieces
  {
    if pieces != [] {
      NonBlankKeepsUnpadded(pieces[1..]);
      assert pieces == [pieces[0]] + pieces[1..];
    }
  }

  /** Pieces written by `str` parse back to the same ids, in order. */
  lemma ParseFormattedIds(ids: seq<int>)
    ensures ParseIds(FormatIds(ids)) == Some(ids)
  {
    var pieces := FormatIds(ids);
    forall i | 0 <= i < |pieces|
      ensures pieces[i] != [] && Strip(pieces[i]) == pieces[i] && PyInt(pieces[i]) == Some(ids[i]) && Readable(pieces[i])
    {
      FormattedPiece(ids[i]);
    }
    ParseIdsSucceeds(pieces);
    ParseIdsValues(pieces);
    NonBlankKeepsUnpadded(pieces);
    var v := ParseIds(pieces).value;
    assert |v| == |ids|;
    forall i | 0 <= i < |ids| ensures v[i] == ids[i] {
      assert PyInt(NonBlank(pieces)[i]) == Some(v[i]);
    }
    assert v == ids;
  }

  /** The variable unset or empty means no admins. */
  lemma NoAdminsByDefault()
    ensures ParseAdminIds("") == Some([])
  {
    assert Split("", ',') == [""];
  }

  /** Writing the ids comma-separated and reading them back gives the same ids in the same order. */
  lemma AdminIdsRoundTrip(ids: seq<int>)
    requires |ids| >= 1
    ensures ParseAdminIds(Join(FormatIds(ids), ',')) == Some(ids)
  {
    var pieces := FormatIds(ids);
    forall p | p in pieces ensures ',' !in p {
      var i :| 0 <= i < |pieces| && pieces[i] == p;
      FormatIntShape(ids[i]);
    }
    SplitJoin(pieces, ',');
    ParseFormattedIds(ids);
  }

  // --- Payloads --------------------------------------------------------------

  const DeepLinkPrefix := "booking_"
  const ConfirmAction := "confirm"
  const CancelAction := "cancel"
  const PayAction := "pay"

  /**
   * The booking id text of `/start booking_<id>`: the first argument must
   * start with the prefix, and every occurrence of the prefix is removed.
   */
  function StartPayload(args: seq<string>): (r: Option<string>)
    ensures r.Some? <==> |args| > 0 && StartsWith(args[0], DeepLinkPrefix)
  {
    if |args| > 0 && StartsWith(args[0], DeepLinkPrefix) then Some(ReplaceAll(args[0], DeepLinkPrefix, ""))
    else None
  }

  /** The link for booking `id` hands the bot the id's text, which `int` reads back as `id`. */
  lemma DeepLinkRoundTrip(id: int)
    ensures StartPayload([DeepLinkPrefix + FormatInt(id)]) == Some(FormatInt(id))
    ensures PyInt(FormatInt(id)) == Some(id)
  {
    var arg := DeepLinkPrefix + FormatInt(id);
    assert arg[..|DeepLinkPrefix|] == DeepLinkPrefix;
    ReplaceLeading(DeepLinkPrefix, FormatInt(id), "");
    FormatIntShape(id);
    assert DeepLinkPrefix[0] !in FormatInt(id);
    ReplaceAbsent(FormatInt(id), DeepLinkPrefix, "");
    assert ReplaceAll(arg, DeepLinkPrefix, "") == FormatInt(id);
    assert [arg][0] == arg;
    FormatIntParses(id);
  }

  /**
   * The key `int(booking_id)` looks up: `None` where `int` raises, and where
   * the number lies outside SQLite's range so that the query raises
   * `OverflowError`.
   */
  function QueryId(idText: string): (r: Option<int>)
    ensures r.Some? <==> PyInt(idText).Some? && FitsSqlInteger(PyInt(idText).value)
    ensures r.Some? ==> r.value == PyInt(idText).value
  {
    match PyInt(idText)
    case None => None
    case Some(n) => if FitsSqlInteger(n) then Some(n) else None
  }

  /** The text `str(id)` looks up `id` exactly when `id` fits an SQLite integer. */
  lemma FormattedQueryId(id: int)
    ensures FitsSqlInteger(id) ==> QueryId(FormatInt(id)) == Some(id)
    ensures !FitsSqlInteger(id) ==> QueryId(FormatInt(id)) == None
  {
    FormatIntParses(id);
  }

  /** `f"{action}_{booking_id}"`, the data of an inline button. */
  function CallbackData(action: string, idText: string): string {
    action + "_" + idText
  }

  /** `action, booking_id = data.split("_", 1)`. */
  function ParseCallback(data: string): Option<(string, string)> {
    SplitFirst(data, '_')
  }

  /** A button's data splits back into its action and the booking id text, whatever that text holds. */
  lemma CallbackRoundTrip(action: string, idText: string)
    requires '_' !in action
    ensures ParseCallback(CallbackData(action, idText)) == Some((action, idText))
  {
    SplitFirstJoined(action, '_', idText);
  }

  /** The three actions the bot puts on buttons come back as themselves. */
  lemma ButtonActionsRoundTrip(idText: string)
    ensures ParseCallback(CallbackData(ConfirmAction, idText)) == Some((ConfirmAction, idText))
    ensures ParseCallback(CallbackData(CancelAction, idText)) == Some((CancelAction, idText))
    ensures ParseCallback(CallbackData(PayAction, idText)) == Some((PayAction, idText))
  {
    CallbackRoundTrip(ConfirmAction, idText);
    CallbackRoundTrip(CancelAction, idText);
    CallbackRoundTrip(PayAction, idText);
  }

  // --- Messages --------------------------------------------------------------

  /** How a user is shown to admins: `@username`, or `ID: <user id>`. */
  datatype TelegramInfo = Handle(username: string) | NumericId(userId: int)

  const NoUsername := "без username"

  /** `f"@{username}" if username else f"ID: {user_id}"`. */
  function InfoOf(username: Option<string>, userId: int): (t: TelegramInfo)
    ensures t.Handle? <==> username.Some? && username.value != []
    ensures t.Handle? ==> t.username == username.value
    ensures t.NumericId? ==> t.userId == userId
  {
    if username.Some? && username.value != [] then Handle(username.value) else NumericId(userId)
  }

  /**
   * The confirmation flow's variant: `username or "без username"`, then the
   * handle unless it equals that placeholder.
   */
  function ConfirmationInfoOf(username: Option<string>, userId: int): TelegramInfo {
    var shown := if username.Some? && username.value != [] then username.value else NoUsername;
    if shown != NoUsername then Handle(shown) else NumericId(userId)
  }

  /** The two renderings agree except for a user whose handle is literally the placeholder. */
  lemma ConfirmationInfoAgrees(username: Option<string>, userId: int)
    ensures username != Some(NoUsername) ==> ConfirmationInfoOf(username, userId) == InfoOf(username, userId)
    ensures username == Some(NoUsername) ==> ConfirmationInfoOf(username, userId) == NumericId(userId)
  {
  }

  /** What the bot sends into the user's chat. */
  datatype UserMessage =
    | AdminHelp
    | Welcome
    | NoSuchBooking
    | AlreadyConfirmed(date: Date, hour: int, name: string)
    | ConfirmationPrompt(date: Date, hour: int, name: string, phone: string, confirmData: string, cancelData: string)
    | PaymentDetails(payData: string)
    | BookingCancelled
    | OnlinePaymentInfo
    | ReceiptThanks
    | CreateBookingFirst

  /** Answers to a button press (toasts and alerts). */
  datatype Alert = Ack | NotFoundAlert | ConfirmedToast | CancelledToast | OnlinePaymentSoon | ErrorAlert

  /** The line appended to the confirmation prompt once its buttons are removed. */
  datatype PromptMark = MarkedConfirmed | MarkedCancelled

  /** The notices admins receive; the booking is named by the id text the user's payload carried. */
  datatype AdminNote =
    | AwaitingConfirmation(ref: string, name: string, phone: string, telegram: TelegramInfo, date: Date, hour: int)
    | BookingConfirmed(ref: string, name: string, phone: string, telegram: TelegramInfo, date: Date, hour: int)
    | CancelledByClient(ref: string, name: string, phone: string, telegram: TelegramInfo, date: Date, hour: int)
    | ReceiptReceived(id: int, name: string, phone: string, telegram: TelegramInfo, date: Date, hour: int)

  datatype Event =
    | Reply(msg: UserMessage)           // a message into the chat the update came from
    | Answer(alert: Alert)              // `query.answer(...)`
    | EditPrompt(mark: PromptMark)      // buttons removed, mark appended
    | ToAdmin(adminId: int, note: AdminNote)
    | ForwardToAdmin(adminId: int)      // the user's photo, forwarded

  /** A handler either finishes, having sent its events, or raises before sending anything. */
  datatype Outcome = Handled(events: seq<Event>) | Raised

  /** One notice per admin, in the order of the admin list. */
  predicate NotifiesAll(evs: seq<Event>, admins: seq<int>, note: AdminNote) {
    |evs| == |admins| && forall i :: 0 <= i < |admins| ==> evs[i] == ToAdmin(admins[i], note)
  }

  /** Per admin, in order: the photo forwarded, then the receipt notice. */
  predicate ForwardsAll(evs: seq<Event>, admins: seq<int>, note: AdminNote) {
    && |evs| == 2 * |admins|
    && forall i :: 0 <= i < |admins| ==> evs[2 * i] == ForwardToAdmin(admins[i]) && evs[2 * i + 1] == ToAdmin(admins[i], note)
  }

  /** `button_callback`'s reply: the plain answer first, then the action's events, or an error alert if it raised. */
  function AfterAck(o: Outcome): (evs: seq<Event>)
    ensures |evs| >= 1 && evs[0] == Answer(Ack)
    ensures o.Raised? ==> evs == [Answer(Ack), Answer(ErrorAlert)]
    ensures o.Handled? ==> evs[1..] == o.events
  {
    [Answer(Ack)] + (if o.Raised? then [Answer(ErrorAlert)] else o.events)
  }

  // --- Handler specifications ----------------------------------------------

  /** `handle_booking_confirmation` with booking id text `idText`, as a relation between the tables before and after. */
  ghost predicate ConfirmationSpec(
    before: map<int, Booking>, after: map<int, Booking>, clients: map<int, Client>, admins: seq<int>,
    idText: string, userId: int, username: Option<string>, sentMessageId: int, o: Outcome)
    requires ClientsExist(before, clients)
  {
    match QueryId(idText)
    case None => o == Raised && after == before
    case Some(id) =>
      if id !in before then o == Handled([Reply(NoSuchBooking)]) && after == before
      else
        var b := before[id];
        var c := clients[b.clientId];
        if b.status == Confirmed || b.status == Paid then
          o == Handled([Reply(AlreadyConfirmed(b.bookingDate, b.bookingHour, c.name))]) && after == before
        else
          && after == before[id := b.(telegramUserId := Some(userId), confirmationMessageId := Some(sentMessageId))]
          && o.Handled? && |o.events| == 1 + |admins|
          && o.events[0] == Reply(ConfirmationPrompt(b.bookingDate, b.bookingHour, c.name, c.phone,
                                                     CallbackData(ConfirmAction, idText), CallbackData(CancelAction, idText)))
          && NotifiesAll(o.events[1..], admins,
                         AwaitingConfirmation(idText, c.name, c.phone, ConfirmationInfoOf(username, userId), b.bookingDate, b.bookingHour))
  }

  /** The prompt, the stored Telegram columns and one notice per admin make up the confirmation flow's main case. */
  lemma PromptedMeetsSpec(
    before: map<int, Booking>, after: map<int, Booking>, clients: map<int, Client>, admins: seq<int>,
    idText: string, id: int, userId: int, username: Option<string>, sentMessageId: int, notices: seq<Event>)
    requires ClientsExist(before, clients)
    requires QueryId(idText) == Some(id) && id in before
    requires before[id].status != Confirmed && before[id].status != Paid
    requires after == before[id := before[id].(telegramUserId := Some(userId), confirmationMessageId := Some(sentMessageId))]
    requires NotifiesAll(notices, admins, AwaitingConfirmation(idText, clients[before[id].clientId].name, clients[before[id].clientId].phone,
                                                               ConfirmationInfoOf(username, userId), before[id].bookingDate, before[id].bookingHour))
    ensures ConfirmationSpec(before, after, clients, admins, idText, userId, username, sentMessageId,
      Handled([Reply(ConfirmationPrompt(before[id].bookingDate, before[id].bookingHour,
                                        clients[before[id].clientId].name, clients[before[id].clientId].phone,
                                        CallbackData(ConfirmAction, idText), CallbackData(CancelAction, idText)))] + notices))
  {
    var evs := [Reply(ConfirmationPrompt(before[id].bookingDate, before[id].bookingHour,
                                         clients[before[id].clientId].name, clients[before[id].clientId].phone,
                                         CallbackData(ConfirmAction, idText), CallbackData(CancelAction, idText)))] + notices;
    assert evs[1..] == notices;
  }

  /** `confirm_booking`: the booking becomes confirmed whatever its status was. */
  ghost predicate ConfirmSpec(
    before: map<int, Booking>, after: map<int, Booking>, clients: map<int, Client>, admins: seq<int>,
    idText: string, userId: int, username: Option<string>, o: Outcome)
    requires ClientsExist(before, clients)
  {
    match QueryId(idText)
    case None => o == Raised && after == before
    case Some(id) =>
      if id !in before then o == Handled([Answer(NotFoundAlert)]) && after == before
      else
        var b := before[id];
        var c := clients[b.clientId];
        && after == before[id := b.(status := Confirmed)]
        && o.Handled? && |o.events| == 3 + |admins|
        && o.events[..3] == [EditPrompt(MarkedConfirmed), Reply(PaymentDetails(CallbackData(PayAction, idText))), Answer(ConfirmedToast)]
        && NotifiesAll(o.events[3..], admins,
                       BookingConfirmed(idText, c.name, c.phone, InfoOf(username, userId), b.bookingDate, b.bookingHour))
  }

  /** `cancel_booking`: the row is deleted, not marked cancelled. */
  ghost predicate CancelSpec(
    before: map<int, Booking>, after: map<int, Booking>, clients: map<int, Client>, admins: seq<int>,
    idText: string, userId: int, username: Option<string>, o: Outcome)
    requires ClientsExist(before, clients)
  {
    match QueryId(idText)
    case None => o == Raised && after == before
    case Some(id) =>
      if id !in before then o == Handled([Answer(NotFoundAlert)]) && after == before
      else
        var b := before[id];
        var c := clients[b.clientId];
        && after == before - {id}
        && o.Handled? && |o.events| == 3 + |admins|
        && o.events[..3] == [EditPrompt(MarkedCancelled), Reply(BookingCancelled), Answer(CancelledToast)]
        && NotifiesAll(o.events[3..], admins,
                       CancelledByClient(idText, c.name, c.phone, InfoOf(username, userId), b.bookingDate, b.bookingHour))
  }

  /** The keys of the confirmed bookings bound to Telegram user `userId`. */
  function AwaitingReceipt(bookings: map<int, Booking>, userId: int): set<int> {
    set k | k in bookings && bookings[k].telegramUserId == Some(userId) && bookings[k].status == Confirmed
  }

  /** The booking a receipt photo from `userId` pays: the lowest-id confirmed booking bound to that user. */
  function ReceiptTarget(bookings: map<int, Booking>, userId: int): (r: Option<int>)
    ensures r.None? <==> forall k :: k in bookings ==> !(bookings[k].telegramUserId == Some(userId) && bookings[k].status == Confirmed)
    ensures r.Some? ==> r.value in bookings && bookings[r.value].telegramUserId == Some(userId) && bookings[r.value].status == Confirmed
    ensures r.Some? ==> forall k :: k in AwaitingReceipt(bookings, userId) ==> r.value <= k
  {
    var awaiting := AwaitingReceipt(bookings, userId);
    assert forall k :: k in bookings ==> (k in awaiting <==> bookings[k].telegramUserId == Some(userId) && bookings[k].status == Confirmed);
    if awaiting == {} then None else Some(Least(awaiting))
  }

  /** Once a user's booking is confirmed, a photo from that user pays some booking of theirs. */
  lemma ConfirmedBookingAwaitsReceipt(bookings: map<int, Booking>, id: int, userId: int)
    requires id in bookings && bookings[id].telegramUserId == Some(userId)
    ensures ReceiptTarget(bookings[id := bookings[id].(status := Confirmed)], userId).Some?
  {
    var after := bookings[id := bookings[id].(status := Confirmed)];
    assert id in after;
  }

  /** `handle_photo`: the target booking becomes paid and every admin gets the photo and a notice. */
  ghost predicate PhotoSpec(
    before: map<int, Booking>, after: map<int, Booking>, clients: map<int, Client>, admins: seq<int>,
    userId: int, username: Option<string>, evs: seq<Event>)
    requires ClientsExist(before, clients)
  {
    match ReceiptTarget(before, userId)
    case None => evs == [Reply(CreateBookingFirst)] && after == before
    case Some(id) =>
      var b := before[id];
      var c := clients[b.clientId];
      && after == before[id := b.(status := Paid)]
      && |evs| == 1 + 2 * |admins|
      && evs[0] == Reply(ReceiptThanks)
      && ForwardsAll(evs[1..], admins, ReceiptReceived(id, c.name, c.phone, InfoOf(username, userId), b.bookingDate, b.bookingHour))
  }

  /**
   * A receipt photo changes at most one booking: a confirmed one bound to
   * the sender, which becomes paid; every other row, and the set of rows,
   * stays as it was.
   */
  lemma PhotoChangesAtMostOne(
    before: map<int, Booking>, after: map<int, Booking>, clients: map<int, Client>, admins: seq<int>,
    userId: int, username: Option<string>, evs: seq<Event>)
    requires ClientsExist(before, clients)
    requires PhotoSpec(before, after, clients, admins, userId, username, evs)
    ensures after.Keys == before.Keys
    ensures forall k, j :: k in before && j in before && before[k] != after[k] && before[j] != after[j] ==> k == j
    ensures forall k :: k in before && before[k] != after[k] ==>
      && before[k].telegramUserId == Some(userId) && before[k].status == Confirmed
      && after[k] == before[k].(status := Paid)
  {
    match ReceiptTarget(before, userId)
    case None =>
    case Some(id) =>
      assert after == before[id := before[id].(status := Paid)];
      assert before[id].status != Paid;
  }

  // --- The bot -----------------------------------------------------------------

  class BookingBot {
    const admins: seq<int>
    const ledger: Ledger

    ghost predicate Valid()
      reads this, ledger
    {
      ledger.Valid()
    }

    /** A bot over the given admin list (`ADMIN_IDS`) and the database it updates. */
    constructor (admins: seq<int>, ledger: Ledger)
      requires ledger.Valid()
      ensures Valid()
      ensures this.admins == admins && this.ledger == ledger
    {
      this.admins := admins;
      this.ledger := ledger;
    }

    /** `notify_admins`: the same notice to every admin, in list order. */
    method NotifyAdmins(note: AdminNote) returns (evs: seq<Event>)
      ensures NotifiesAll(evs, admins, note)
    {
      evs := [];
      for i := 0 to |admins|
        invariant NotifiesAll(evs, admins[..i], note)
      {
        evs := evs + [ToAdmin(admins[i], note)];
      }
      assert admins[..|admins|] == admins;
    }

    /** The loop of `handle_photo` over the admins: forward the photo, then send the notice. */
    method ForwardReceipt(note: AdminNote) returns (evs: seq<Event>)
      ensures ForwardsAll(evs, admins, note)
    {
      evs := [];
      for i := 0 to |admins|
        invariant ForwardsAll(evs, admins[..i], note)
      {
        evs := evs + [ForwardToAdmin(admins[i]), ToAdmin(admins[i], note)];
      }
      assert admins[..|admins|] == admins;
    }

    /** `handle_booking_confirmation`; `sentMessageId` is the id Telegram gives the prompt it sends. */
    method HandleBookingConfirmation(idText: string, userId: int, username: Option<string>, sentMessageId: int)
        returns (o: Outcome)
      requires Valid()
      modifies ledger
      ensures Valid() && ledger.clients == old(ledger.clients)
      ensures ConfirmationSpec(old(ledger.bookings), ledger.bookings, ledger.clients, admins,
                               idText, userId, username, sentMessageId, o)
    {
      var parsed := QueryId(idText);
      if parsed.None? {
        return Raised;
      }
      var id := parsed.value;
      if id !in ledger.bookings {
        return Handled([Reply(NoSuchBooking)]);
      }
      var booking := ledger.bookings[id];
      var client := ledger.clients[booking.clientId];
      if booking.status == Confirmed || booking.status == Paid {
        return Handled([Reply(AlreadyConfirmed(booking.bookingDate, booking.bookingHour, client.name))]);
      }
      var prompt := ConfirmationPrompt(booking.bookingDate, booking.bookingHour, client.name, client.phone,
                                       CallbackData(ConfirmAction, idText), CallbackData(CancelAction, idText));
      ghost var before := ledger.bookings;
      RecordPrompt(id, userId, sentMessageId);
      var notices := NotifyAdmins(AwaitingConfirmation(idText, client.name, client.phone,
                                                      ConfirmationInfoOf(username, userId), booking.bookingDate, booking.bookingHour));
      o := Handled([Reply(prompt)] + notices);
      PromptedMeetsSpec(before, ledger.bookings, ledger.clients, admins, idText, id, userId, username, sentMessageId, notices);
    }

    /** The two commits of the confirmation flow: the opener's user id, then the prompt's message id. */
    method RecordPrompt(id: int, userId: int, sentMessageId: int)
      requires Valid() && id in ledger.bookings
      modifies ledger
      ensures Valid() && ledger.clients == old(ledger.clients)
      ensures ledger.bookings == old(ledger.bookings)[id := old(ledger.bookings)[id].(telegramUserId := Some(userId),
                                                                                   confirmationMessageId := Some(sentMessageId))]
    {
      var bound := ledger.bookings[id].(telegramUserId := Some(userId));
      ledger.UpdateBooking(bound);
      ledger.UpdateBooking(bound.(confirmationMessageId := Some(sentMessageId)));
    }

    /** `start`: admins get the help text, a `booking_` deep link starts the confirmation flow, anyone else is welcomed. */
    method Start(userId: int, username: Option<string>, args: seq<string>, sentMessageId: int) returns (o: Outcome)
      requires Valid()
      modifies ledger
      ensures Valid() && ledger.clients == old(ledger.clients)
      ensures userId in admins ==> o == Handled([Reply(AdminHelp)]) && ledger.bookings == old(ledger.bookings)
      ensures userId !in admins && StartPayload(args).None? ==>
        o == Handled([Reply(Welcome)]) && ledger.bookings == old(ledger.bookings)
      ensures userId !in admins && StartPayload(args).Some? ==>
        ConfirmationSpec(old(ledger.bookings), ledger.bookings, ledger.clients, admins,
                         StartPayload(args).value, userId, username, sentMessageId, o)
    {
      if userId in admins {
        return Handled([Reply(AdminHelp)]);
      }
      var payload := StartPayload(args);
      if payload.Some? {
        o := HandleBookingConfirmation(payload.value, userId, username, sentMessageId);
      } else {
        o := Handled([Reply(Welcome)]);
      }
    }

    /** `confirm_booking`. */
    method ConfirmBooking(idText: string, userId: int, username: Option<string>) returns (o: Outcome)
      requires Valid()
      modifies ledger
      ensures Valid() && ledger.clients == old(ledger.clients)
      ensures ConfirmSpec(old(ledger.bookings), ledger.bookings, ledger.clients, admins, idText, userId, username, o)
    {
      var parsed := QueryId(idText);
      if parsed.None? {
        return Raised;
      }
      var id := parsed.value;
      if id !in ledger.bookings {
        return Handled([Answer(NotFoundAlert)]);
      }
      var booking := ledger.bookings[id];
      var client := ledger.clients[booking.clientId];
      ledger.UpdateBooking(booking.(status := Confirmed));
      var notices := NotifyAdmins(BookingConfirmed(idText, client.name, client.phone, InfoOf(username, userId),
                                                   booking.bookingDate, booking.bookingHour));
      var head := [EditPrompt(MarkedConfirmed), Reply(PaymentDetails(CallbackData(PayAction, idText))), Answer(ConfirmedToast)];
      o := Handled(head + notices);
      assert o.events[..3] == head && o.events[3..] == notices;
    }

    /** `cancel_booking`. */
    method CancelBooking(idText: string, userId: int, username: Option<string>) returns (o: Outcome)
      requires Valid()
      modifies ledger
      ensures Valid() && ledger.clients == old(ledger.clients)
      ensures CancelSpec(old(ledger.bookings), ledger.bookings, ledger.clients, admins, idText, userId, username, o)
    {
      var parsed := QueryId(idText);
      if parsed.None? {
        return Raised;
      }
      var id := parsed.value;
      if id !in ledger.bookings {
        return Handled([Answer(NotFoundAlert)]);
      }
      var booking := ledger.bookings[id];
      var client := ledger.clients[booking.clientId];
      var info := InfoOf(username, userId);
      var _ := ledger.DeleteBooking(id);
      var notices := NotifyAdmins(CancelledByClient(idText, client.name, client.phone, info,
                                                    booking.bookingDate, booking.bookingHour));
      var head := [EditPrompt(MarkedCancelled), Reply(BookingCancelled), Answer(CancelledToast)];
      o := Handled(head + notices);
      assert o.events[..3] == head && o.events[3..] == notices;
    }

    /** `handle_online_payment`: a placeholder that changes nothing and ignores the booking id. */
    method HandleOnlinePayment(idText: string) returns (evs: seq<Event>)
      ensures evs == [Answer(OnlinePaymentSoon), Reply(OnlinePaymentInfo)]
    {
      evs := [Answer(OnlinePaymentSoon), Reply(OnlinePaymentInfo)];
    }

    /**
     * `button_callback`: answer the press, split the data at the first `_`,
     * dispatch on the action; an exception, including a data string with no
     * `_`, becomes an error alert; an unknown action does nothing more.
     */
    method ButtonCallback(data: string, userId: int, username: Option<string>) returns (evs: seq<Event>, ghost inner: Outcome)
      requires Valid()
      modifies ledger
      ensures Valid() && ledger.clients == old(ledger.clients)
      ensures |evs| >= 1 && evs[0] == Answer(Ack)
      ensures ParseCallback(data).None? ==> evs == [Answer(Ack), Answer(ErrorAlert)] && ledger.bookings == old(ledger.bookings)
      ensures ParseCallback(data).Some? && ParseCallback(data).value.0 == ConfirmAction ==>
        evs == AfterAck(inner)
        && ConfirmSpec(old(ledger.bookings), ledger.bookings, ledger.clients, admins, ParseCallback(data).value.1, userId, username, inner)
      ensures ParseCallback(data).Some? && ParseCallback(data).value.0 == CancelAction ==>
        evs == AfterAck(inner)
        && CancelSpec(old(ledger.bookings), ledger.bookings, ledger.clients, admins, ParseCallback(data).value.1, userId, username, inner)
      ensures ParseCallback(data).Some? && ParseCallback(data).value.0 == PayAction ==>
        evs == [Answer(Ack), Answer(OnlinePaymentSoon), Reply(OnlinePaymentInfo)] && ledger.bookings == old(ledger.bookings)
      ensures ParseCallback(data).Some? && ParseCallback(data).value.0 !in {ConfirmAction, CancelAction, PayAction} ==>
        evs == [Answer(Ack)] && ledger.bookings == old(ledger.bookings)
    {
      inner := Handled([]);
      var parsed := ParseCallback(data);
      if parsed.None? {
        return [Answer(Ack), Answer(ErrorAlert)], inner;
      }
      var (action, idText) := parsed.value;
      if action == ConfirmAction {
        var o := ConfirmBooking(idText, userId, username);
        evs, inner := AfterAck(o), o;
      } else if action == CancelAction {
        var o := CancelBooking(idText, userId, username);
        evs, inner := AfterAck(o), o;
      } else if action == PayAction {
        var paid := HandleOnlinePayment(idText);
        evs := [Answer(Ack)] + paid;
      } else {
        evs := [Answer(Ack)];
      }
    }

    /** `handle_photo`: a receipt from a user with a confirmed booking marks it paid. */
    method HandlePhoto(userId: int, username: Option<string>) returns (evs: seq<Event>)
      requires Valid()
      modifies ledger
      ensures Valid() && ledger.clients == old(ledger.clients)
      ensures PhotoSpec(old(ledger.bookings), ledger.bookings, ledger.clients, admins, userId, username, evs)
    {
      var target := ReceiptTarget(ledger.bookings, userId);
      if target.None? {
        return [Reply(CreateBookingFirst)];
      }
      var id := target.value;
      var booking := ledger.bookings[id];
      var client := ledger.clients[booking.clientId];
      ledger.UpdateBooking(booking.(status := Paid));
      var forwards := ForwardReceipt(ReceiptReceived(id, client.name, client.phone, InfoOf(username, userId),
                                                     booking.bookingDate, booking.bookingHour));
      evs := [Reply(ReceiptThanks)] + forwards;
      assert evs[1..] == forwards;
    }
  }
}
