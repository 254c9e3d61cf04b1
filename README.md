# Photo studio booking: a Dafny model

This project models the booking core of `photostudio-booking`. The core has three parts.

- A FastAPI service keeps a table of one-hour studio slots. A visitor books a slot with a name, a phone and a date and hour. The service finds or creates the client by phone and refuses a slot that is already held. It lists bookings by date range. Per day and per month it reports the hour of every booking on the day (any hour 0 to 23), and which hours of the working window (the slots starting 9:00 to 20:00) are still free.
- Request validation comes from the pydantic schema. The name must be 1 to 100 characters, the phone 10 to 20 characters, the hour 0 to 23, and the date must not be before today.
- A Telegram bot drives a booking through its life. A `/start booking_<id>` deep link binds a Telegram user to the booking and asks for confirmation. Inline buttons confirm the booking, cancel it (which deletes the row) or ask about online payment. A photo sent by a user with a confirmed booking marks that booking paid. Each admin listed in `TELEGRAM_ADMIN_CHAT_IDS` gets a note in four cases: when a user is bound to a booking, when a booking is confirmed, when one is cancelled, and when a receipt photo arrives (the photo is forwarded along with the note). No admin hears of a bare `/start`, an unknown or already-confirmed booking, a payment question, a photo with no confirmed booking, or a handler that raises.

## Modules

| module | file | what it holds |
|---|---|---|
| `Wrappers` | `wrappers.dfy` | `Option` and `Result` |
| `Calendar` | `calendar.dfy` | Dates, the Gregorian leap-year rule, month lengths, date order |
| `PyText` | `py_text.dfy` | The Python builtins the bot relies on: `strip`, `split`, `split(sep, 1)`, `startswith`, `replace`, `int()` and `str()` |
| `Schemas` | `schemas.dfy` | `BookingCreate` and its validation; `ClientResponse`; `DayStatusResponse` |
| `Models` | `models.dfy` | The `Client` and `Booking` rows, the status values, and the table constraints as predicates (`Consistent`) |
| `TableScan` | `table_scan.dfy` | The order rows come back in, `.first()`, `ORDER BY (date, hour)`, and the id SQLite gives a new row |
| `StudioApi` | `studio_api.dfy` | The queries of `main.py` as functions, the month calendar as loops, and the `Ledger` class whose methods create and delete rows |
| `Bot` | `bot.dfy` | Parsing of admin ids and payloads, the message events, and the `BookingBot` class whose handler methods update the `Ledger` and return the events they send |

The model follows the code where the code and its documentation differ:

- Cancelling deletes the row. The status `cancelled` is documented but never assigned.
- `confirm_booking` sets `confirmed` whatever the current status, even `paid`.
- A slot is taken by a booking of any status.
- Deleting an id that does not exist is an error (404).
- Opening the confirmation link overwrites `telegram_user_id`, so the last user to open it wins.
- No handler checks that the Telegram user acting on a booking is the one bound to it.

Modelling choices:

- Database queries without `ORDER BY` are modelled as returning rows in ascending id order. `.first()` is the lowest matching id.
- `ORDER BY booking_date, booking_hour` is a stable sort of that order. Ties cannot occur while slots are unique.
- A new row gets one more than the largest id in its table, or 1 in an empty table. This is what SQLite does for an `INTEGER PRIMARY KEY`.
- A handler either finishes, returning the events it sent in order, or raises (`Raised`) before it has sent anything. The bot raises where `int()` rejects the id text, and where the id lies outside the SQLite integer range so that the sqlite3 driver refuses to bind it (`OverflowError`). The API answers such an id with a server error (`IdOverflow`, HTTP 500).
- Inputs from outside are parameters:
  - "today" for validation;
  - the Telegram user id and username;
  - the command arguments and the callback data;
  - the message id Telegram assigns to the sent prompt.

## Model

| member | source | states |
|---|---|---|
| `Calendar.IsLeapYear` | photostudio-booking/app/main.py:96 | The Gregorian rule that `calendar.monthrange` applies: divisible by 4, except centuries not divisible by 400 |
| `Calendar.IsValidDate` | photostudio-booking/app/schemas.py:22 | A `date` value: year 1..9999, month 1..12, and a day within the month |
| `Calendar.Before` | photostudio-booking/app/schemas.py:27 | Python's `<` on dates: compares (year, month, day) lexicographically |
| `Calendar.DaysInMonth` | photostudio-booking/app/main.py:96 | A month has between 28 and 31 days |
| `Calendar.YearLength` | photostudio-booking/app/main.py:96 | The month lengths add up to 366 days in a leap year and 365 otherwise |
| `Calendar.FebruaryLength` | photostudio-booking/app/main.py:96 | A month has 29 days exactly when it is February of a leap year; other months do not depend on the year |
| `Calendar.BeforeIsStrictTotalOrder` | photostudio-booking/app/schemas.py:25-29 | Date comparison is irreflexive, asymmetric, transitive and total |
| `PyText.IsSpace` | photostudio-booking/bot.py:30 | `str.isspace` on one character: the ASCII blanks and separators plus the Unicode whitespace characters |
| `PyText.Strip` | photostudio-booking/bot.py:30 | `str.strip()`: the trailing trim applied to the leading trim |
| `PyText.TrimStart` | photostudio-booking/bot.py:30 | Removes exactly the leading whitespace |
| `PyText.TrimEnd` | photostudio-booking/bot.py:30 | Removes exactly the trailing whitespace |
| `PyText.StripUnpadded` | photostudio-booking/bot.py:30 | A string with no whitespace at either end is its own `strip()` |
| `PyText.Split` | photostudio-booking/bot.py:30 | `split(sep)` yields at least one piece, and no piece contains the separator |
| `PyText.Join` | photostudio-booking/bot.py:30 | `sep.join(pieces)`, the inverse that the split lemmas use |
| `PyText.SplitJoin` | photostudio-booking/bot.py:30 | Splitting a joined list of separator-free pieces gives the list back |
| `PyText.JoinSplit` | photostudio-booking/bot.py:30 | Joining the pieces of a split gives the string back |
| `PyText.SplitFirst` | photostudio-booking/bot.py:178 | `split("_", 1)` unpacks into two parts exactly when the separator occurs; the first part has no separator, and re-joining the parts gives the data back |
| `PyText.SplitFirstJoined` | photostudio-booking/bot.py:178 | Splitting `a + "_" + b` at the first separator gives `a` and `b` when `a` has no separator |
| `PyText.ReplaceAbsent` | photostudio-booking/bot.py:79 | `replace` leaves unchanged a string that lacks the pattern's first character |
| `PyText.ReplaceLeading` | photostudio-booking/bot.py:79 | A leading occurrence of the pattern is replaced, and the scan continues after it |
| `PyText.FormatInt` | photostudio-booking/bot.py:372 | `str(n)` as in `#{booking.id}`: a minus sign for a negative number, then its decimal digits; the reference inverse of `int()` in the round-trip lemmas |
| `PyText.FormatIntParses` | photostudio-booking/bot.py:98 | `int(str(n)) == n` for every integer of at most 4300 digits; the model also states it beyond, where CPython raises |
| `PyText.FormatIntShape` | photostudio-booking/bot.py:372 | `str(n)` is non-empty, holds only digits and a minus sign, and has no whitespace at either end |
| `PyText.StartsWith` | photostudio-booking/bot.py:78 | `str.startswith(prefix)`: the string begins with the prefix |
| `PyText.ReplaceAll` | photostudio-booking/bot.py:79 | `str.replace(pat, rep)`: every non-overlapping occurrence replaced, scanning from the left |
| `PyText.PyInt` | photostudio-booking/bot.py:30 | `int(text)` in base 10: surrounding whitespace, an optional sign, then digits with single underscores between them; `None` where `int` raises `ValueError` |
| `Schemas.ValidName` | photostudio-booking/app/schemas.py:20 | The name is 1 to 100 characters |
| `Schemas.ValidPhone` | photostudio-booking/app/schemas.py:21 | The phone is 10 to 20 characters |
| `Schemas.ValidHour` | photostudio-booking/app/schemas.py:23 | The hour is 0 to 23 |
| `Schemas.WellFormed` | photostudio-booking/app/schemas.py:19-23 | The field bounds of `BookingCreate` all hold and the date is a real date |
| `Schemas.NotInPast` | photostudio-booking/app/schemas.py:25-29 | `date_not_in_past`: the date is today or later |
| `Schemas.Violations` | photostudio-booking/app/schemas.py:19-29 | The field errors of a request, in field order; the date check runs only on a real date |
| `Schemas.ValidateBookingCreate` | photostudio-booking/app/schemas.py:19-29 | Accepts a request exactly when every field bound holds and the date is not before today; it returns the request unchanged, or the non-empty list of violations |
| `Schemas.ViolationsAreExact` | photostudio-booking/app/schemas.py:19-29 | Each field error is reported exactly when its own bound fails: name 1..100, phone 10..20, hour 0..23, past date only for a real date |
| `Schemas.TodayIsNotPast` | photostudio-booking/app/schemas.py:25-29 | Today is accepted; an earlier date is refused with only the past-date error |
| `Models.SlotTaken` | photostudio-booking/app/main.py:33-36 | Some booking, of any status, holds the (date, hour) slot |
| `Models.PhoneKnown` | photostudio-booking/app/main.py:42-44 | Some client already has the phone |
| `Models.FitsSqlInteger` | photostudio-booking/bot.py:98 | The range of an SQLite integer, -2^63..2^63-1; the sqlite3 driver raises `OverflowError` when a query binds an int outside it |
| `Models.NewBooking` | photostudio-booking/app/models.py:33-40 | A new row is pending and has null Telegram columns |
| `Models.SlotsUnique` | photostudio-booking/app/models.py:46-48 | No two bookings hold the same (date, hour) |
| `Models.PhonesUnique` | photostudio-booking/app/models.py:15 | No two clients share a phone |
| `Models.ClientsExist` | photostudio-booking/app/models.py:27 | Every booking's `client_id` names a stored client |
| `Models.Consistent` | photostudio-booking/app/models.py:13-48 | The table invariant: rows keyed by id, unique slots and phones, existing clients, and the field bounds of a validated request |
| `Models.RemovalFreesSlot` | photostudio-booking/app/models.py:46-48 | Removing a booking frees its slot and keeps slots unique |
| `TableScan.AscendingKeys` | photostudio-booking/app/main.py:139-141 | An unordered scan returns each matching id once, in strictly ascending order |
| `TableScan.IncreasingIsDeterminedByElements` | photostudio-booking/app/main.py:101-104 | Two ascending id lists with the same members are equal, so a scan's result depends only on which rows match |
| `TableScan.Least` | photostudio-booking/app/main.py:183 | `.first()` without ordering is the lowest matching id |
| `TableScan.NextKey` | photostudio-booking/app/models.py:26 | A new id is above every stored id and so is fresh; it is at least 1 when no stored id is negative |
| `TableScan.Rows` | photostudio-booking/app/main.py:70-80 | The rows stored under a list of ids, in that order, one per id |
| `TableScan.RowsMembership` | photostudio-booking/app/main.py:70-75 | The rows fetched for a list of ids are exactly the rows stored under those ids |
| `TableScan.SortKeepsElements` | photostudio-booking/app/main.py:77-80 | Sorting keeps the length and the members |
| `TableScan.SlotLe` | photostudio-booking/app/main.py:77-80 | The `order_by(booking_date, booking_hour)` key order: earlier date, or the same date and no later hour |
| `TableScan.SlotLeIsTotalPreorder` | photostudio-booking/app/main.py:77-80 | The (date, hour) order is reflexive, total and transitive |
| `TableScan.InsertBySlot` | photostudio-booking/app/main.py:77-80 | Inserting into a sorted list keeps it sorted and adds exactly one element |
| `TableScan.SortBySlot` | photostudio-booking/app/main.py:77-80 | `order_by(booking_date, booking_hour)` returns a sorted permutation of its input |
| `StudioApi.Range` | photostudio-booking/app/main.py:114 | `list(range(lo, hi))`; the working window `WorkHours` is `Range(9, 21)` |
| `StudioApi.RangeMeaning` | photostudio-booking/app/main.py:114 | `list(range(9, 21))` holds exactly the hours 9..20, ascending |
| `StudioApi.FreeHours` | photostudio-booking/app/main.py:146 | `[h for h in hours if h not in booked]` |
| `StudioApi.FreeHoursMeaning` | photostudio-booking/app/main.py:121 | The comprehension keeps exactly the listed hours that are not booked, and keeps an ascending list ascending |
| `StudioApi.KeysOn` | photostudio-booking/app/main.py:139-141 | The ids of the bookings on the given date |
| `StudioApi.Dated` | photostudio-booking/app/main.py:108-111 | The ids among a list whose booking is on the given date, in list order |
| `StudioApi.BookedOn` | photostudio-booking/app/main.py:139-145 | `booked_hours`: the hours of the day's rows, in ascending id order |
| `StudioApi.Hours` | photostudio-booking/app/main.py:145 | One booked hour per row, in row order |
| `StudioApi.DatedMeaning` | photostudio-booking/app/main.py:108-111 | Keeps exactly the rows on the given day, in ascending id order when the ids given are ascending |
| `StudioApi.DayStatusMeaning` | photostudio-booking/app/main.py:139-153 | `get_day_status`: the booked hours are the hours some booking of the day holds, one per booking, whatever its status; `has_bookings` holds exactly when the day has a booking; the available hours are the hours 9..20 no booking holds, ascending and disjoint from the booked ones |
| `StudioApi.StatusFrom` | photostudio-booking/app/main.py:148-153 | The response built from the booked hours: `has_bookings` is `len(booked_hours) > 0`, the free hours come from the working window |
| `StudioApi.DayStatusOf` | photostudio-booking/app/main.py:132-153 | `get_day_status` for a date; `DayStatusMeaning` states its properties |
| `StudioApi.InRange` | photostudio-booking/app/main.py:72-75 | A date within the optional start and end bounds, both inclusive |
| `StudioApi.KeysBetween` | photostudio-booking/app/main.py:70-75 | The ids of the bookings whose date lies within the optional bounds |
| `StudioApi.GetBookings` | photostudio-booking/app/main.py:70-82 | Returns exactly the bookings whose date lies within the optional bounds, one row per such booking, sorted by (date, hour) |
| `StudioApi.GetClient` | photostudio-booking/app/main.py:177-188 | An id outside the SQLite integer range gives a server error; otherwise not-found exactly when the id is absent, and the stored client's id, name and phone when it is present |
| `StudioApi.Listed` | photostudio-booking/app/main.py:120 | `bookings_by_date.get(d, [])`: the grouped hours of a day, or none |
| `StudioApi.MonthRowsOnDay` | photostudio-booking/app/main.py:101-111 | Within the month, the month query's rows on a day are the rows the day query returns, in the same order |
| `StudioApi.HoursOfDatedStep` | photostudio-booking/app/main.py:108-111 | Appending a row extends its day's hour list by its hour and leaves other days alone |
| `StudioApi.GroupStep` | photostudio-booking/app/main.py:108-111 | One step of the grouping loop keeps every day's list equal to that day's hours |
| `StudioApi.GroupByDate` | photostudio-booking/app/main.py:107-111 | `bookings_by_date.get(d, [])` holds the hours of day `d`'s rows, in row order, for every day |
| `StudioApi.DayFromGroups` | photostudio-booking/app/main.py:118-121 | Within the month, a day's grouped hours are the hours `get_day_status` reports |
| `StudioApi.DaysOfMonth` | photostudio-booking/app/main.py:117-128 | One status per day 1..n, in order, each equal to `get_day_status` of that day |
| `StudioApi.MonthCalendar` | photostudio-booking/app/main.py:92-130 | A month outside 1..12 is refused, and so is a year `date()` rejects; otherwise the calendar has exactly days-in-month entries, entry `i` being the status of day `i + 1` |
| `StudioApi.ClientWithPhone` | photostudio-booking/app/main.py:42-44 | Finds a client exactly when one has the phone, and the one found has it |
| `StudioApi.ClientKey` | photostudio-booking/app/main.py:42-49 | The client a booking is made for: the lowest-id client with the phone, or the id a new client row gets |
| `StudioApi.ClientsAfter` | photostudio-booking/app/main.py:46-49 | The client table after `create_booking`: unchanged for a known phone, otherwise one new row with the request's name and phone |
| `StudioApi.BookingFor` | photostudio-booking/app/main.py:52-56 | The row `create_booking` inserts: a fresh id, the client, the requested slot and the column defaults |
| `StudioApi.CreatedBooking` | photostudio-booking/app/main.py:42-59 | The new row has a fresh id, the requested slot, status pending and no Telegram columns; a known phone reuses its client and keeps that client's stored name; an unknown phone adds exactly one client with the request's name and phone |
| `StudioApi.AddClientKeepsConsistency` | photostudio-booking/app/main.py:46-49 | Adding a client with a new id and an unused phone keeps every table constraint |
| `StudioApi.AddBookingKeepsConsistency` | photostudio-booking/app/main.py:52-58 | Adding a booking with a new id, for a free slot and an existing client, keeps every table constraint |
| `StudioApi.CreatePreservesConsistency` | photostudio-booking/app/main.py:33-58 | A successful booking keeps slots unique, phones unique, every booking's client present and every field in bounds |
| `StudioApi.CreateTakesSlot` | photostudio-booking/app/main.py:33-58 | After a successful booking its hour is booked and not available that day, and the new row is the slot's only holder |
| `StudioApi.CreateThenDelete` | photostudio-booking/app/main.py:52-59 | Deleting the row just created gives back the old booking table |
| `StudioApi.DeleteFreesHour` | photostudio-booking/app/main.py:161-169 | After a deletion the booking's working hour is available on its day again |
| `StudioApi.Ledger.constructor` | photostudio-booking/app/main.py:13 | A new database has empty, consistent tables |
| `StudioApi.Ledger.CreateBooking` | photostudio-booking/app/main.py:26-61 | A held slot gives `HourTaken` and changes nothing; otherwise the new row is added under its fresh id, the client table gains the new client if the phone is unknown, and the table constraints still hold |
| `StudioApi.Ledger.PostBooking` | photostudio-booking/app/main.py:25-27 | An invalid body is refused with its violations and changes nothing; a valid one is booked as in `create_booking` |
| `StudioApi.Ledger.DeleteBooking` | photostudio-booking/app/main.py:155-169 | An id outside the SQLite integer range gives a server error and changes nothing; an absent id gives not-found and changes nothing; otherwise exactly that row is removed and the clients are kept |
| `StudioApi.Ledger.UpdateBooking` | photostudio-booking/bot.py:120-122 | An in-place update of a row's status or Telegram columns replaces just that row and keeps the constraints |
| `Bot.ParseIds` | photostudio-booking/bot.py:30 | The comprehension yields at most one id per piece |
| `Bot.NonBlank` | photostudio-booking/bot.py:30 | The comprehension's filter: the stripped pieces that are not empty, in order, never more than the pieces |
| `Bot.ParseIdsSucceeds` | photostudio-booking/bot.py:30 | The parse succeeds exactly when `int` accepts every piece that is not blank after stripping |
| `Bot.ParseIdsValues` | photostudio-booking/bot.py:30 | A successful parse yields one id per non-blank piece, in order, each the value `int` reads from the stripped piece |
| `Bot.ParseAdminIds` | photostudio-booking/bot.py:29-30 | `ADMIN_IDS`: the environment text split at commas and parsed piece by piece |
| `Bot.FormatIds` | photostudio-booking/bot.py:30 | The admin list written out, one `str(id)` per id |
| `Bot.FormattedPiece` | photostudio-booking/bot.py:30 | A number written by `str` has no surrounding blanks, is non-empty and `int` reads it back |
| `Bot.ParseFormattedIds` | photostudio-booking/bot.py:30 | Pieces written by `str` are non-blank and parse back to the same ids, in order |
| `Bot.NoAdminsByDefault` | photostudio-booking/bot.py:29-30 | An unset or empty variable gives no admins |
| `Bot.AdminIdsRoundTrip` | photostudio-booking/bot.py:30 | A comma-separated list of ids parses back to the same ids, in the same order |
| `Bot.StartPayload` | photostudio-booking/bot.py:78-79 | A payload is taken exactly when there is a first argument and it starts with `booking_` |
| `Bot.DeepLinkRoundTrip` | photostudio-booking/bot.py:78-98 | The link `booking_<id>` hands over the id's text, and `int` reads it back as the id |
| `Bot.QueryId` | photostudio-booking/bot.py:98 | The key `int(booking_id)` looks up: absent when `int` raises, and when the number lies outside the SQLite integer range |
| `Bot.FormattedQueryId` | photostudio-booking/bot.py:98 | `str(id)` looks up `id` exactly when `id` fits an SQLite integer; otherwise the lookup raises |
| `Bot.CallbackData` | photostudio-booking/bot.py:143-144 | `f"{action}_{booking_id}"`, the data of the confirm and cancel buttons (and of the pay button at bot.py:224) |
| `Bot.ParseCallback` | photostudio-booking/bot.py:178 | `data.split("_", 1)` unpacked into two: `None` where the unpacking raises |
| `Bot.CallbackRoundTrip` | photostudio-booking/bot.py:178 | Button data `action_idtext` splits back into the action and the id text, whatever the id text holds |
| `Bot.ButtonActionsRoundTrip` | photostudio-booking/bot.py:143-144 | `confirm_`, `cancel_` and `pay_` data give back their own action and id text |
| `Bot.InfoOf` | photostudio-booking/bot.py:237-238 | `@username` exactly when the username is present and non-empty; otherwise the numeric id |
| `Bot.ConfirmationInfoOf` | photostudio-booking/bot.py:156 | The confirmation flow's rendering: `username or "без username"` (bot.py:92), then the handle unless it equals that placeholder |
| `Bot.ConfirmationInfoAgrees` | photostudio-booking/bot.py:92-156 | The confirmation flow's `or "без username"` rendering agrees with the others, except for a user whose handle is that placeholder, who is shown by id |
| `Bot.NotifiesAll` | photostudio-booking/bot.py:53-59 | `notify_admins`: one notice per admin, in list order |
| `Bot.ForwardsAll` | photostudio-booking/bot.py:362-381 | Per admin, in order: the photo forwarded, then the receipt notice |
| `Bot.AfterAck` | photostudio-booking/bot.py:175-187 | The callback always answers first; a raised handler adds an error alert, otherwise the handler's events follow |
| `Bot.ConfirmationSpec` | photostudio-booking/bot.py:89-169 | `handle_booking_confirmation` as a relation between the tables before and after and the events sent |
| `Bot.PromptedMeetsSpec` | photostudio-booking/bot.py:120-166 | Storing the opener and the prompt id, replying with the prompt and notifying each admin is the flow's main case |
| `Bot.ConfirmSpec` | photostudio-booking/bot.py:190-253 | `confirm_booking` as a relation between the tables and the events sent |
| `Bot.CancelSpec` | photostudio-booking/bot.py:256-314 | `cancel_booking` as a relation between the tables and the events sent |
| `Bot.AwaitingReceipt` | photostudio-booking/bot.py:340-343 | The ids of the confirmed bookings bound to the sender |
| `Bot.ReceiptTarget` | photostudio-booking/bot.py:340-343 | A photo finds a booking exactly when one bound to the sender is confirmed; the one found is the lowest such id |
| `Bot.ConfirmedBookingAwaitsReceipt` | photostudio-booking/bot.py:205 | Once a booking bound to a user is confirmed, a photo from that user finds a booking to mark paid |
| `Bot.PhotoSpec` | photostudio-booking/bot.py:333-388 | `handle_photo` as a relation between the tables and the events sent |
| `Bot.PhotoChangesAtMostOne` | photostudio-booking/bot.py:340-350 | A photo changes at most one row, a confirmed row bound to the sender, which becomes paid; the set of rows is kept |
| `Bot.BookingBot.constructor` | photostudio-booking/bot.py:30 | The bot holds the given admin list and the database it updates; it is valid when that database is |
| `Bot.BookingBot.NotifyAdmins` | photostudio-booking/bot.py:53-59 | One notice per admin, in list order |
| `Bot.BookingBot.ForwardReceipt` | photostudio-booking/bot.py:362-381 | For each admin in order: the photo forwarded, then the receipt notice |
| `Bot.BookingBot.HandleBookingConfirmation` | photostudio-booking/bot.py:89-169 | Id text that `int` rejects, or an id outside the SQLite integer range, raises with no change. An unknown id replies not-found with no change. A confirmed or paid booking only gets a summary. Otherwise the opener's user id and the prompt's message id are stored, the prompt carries `confirm_`/`cancel_` data, and each admin is notified |
| `Bot.BookingBot.RecordPrompt` | photostudio-booking/bot.py:120-152 | The two commits: the opener's user id, then the prompt's message id; nothing else changes and the table invariant holds |
| `Bot.BookingBot.Start` | photostudio-booking/bot.py:62-86 | An admin gets only the help reply. A `booking_` argument runs the confirmation flow on the stripped id text. Anyone else is welcomed. Only the confirmation flow changes a row |
| `Bot.BookingBot.ConfirmBooking` | photostudio-booking/bot.py:190-253 | Id text that `int` rejects, or an id outside the SQLite integer range, raises; an unknown id gives an alert; otherwise the row becomes confirmed whatever its status, and the prompt is marked, payment details with `pay_` data are sent, the press is answered and each admin is notified |
| `Bot.BookingBot.CancelBooking` | photostudio-booking/bot.py:256-314 | Id text that `int` rejects, or an id outside the SQLite integer range, raises; an unknown id gives an alert; otherwise exactly that row is deleted whatever its status, the prompt is marked, the user is told and each admin is notified |
| `Bot.BookingBot.HandleOnlinePayment` | photostudio-booking/bot.py:317-330 | An alert and an information message, ignoring the id |
| `Bot.BookingBot.ButtonCallback` | photostudio-booking/bot.py:172-187 | Always answers first. Data without `_` gives an error alert. `confirm` and `cancel` run their handler, and a raised handler adds an error alert. `pay`, and any other action, change no booking |
| `Bot.BookingBot.HandlePhoto` | photostudio-booking/bot.py:333-388 | With a receipt target, that row alone becomes paid, the user is thanked, and each admin gets the photo and a notice; without one, the user is told to book first and nothing changes |

## Left out

- Concurrency. The race between the slot check and the insert in `create_booking` is not modelled; requests run one at a time, and slot uniqueness is a table invariant.
- Database sessions, engine setup, `flush`, `commit`, `refresh` and `close`. The tables are two maps held by `Ledger`.
- The `created_at` columns and fields. They come from the database clock.
- Telegram delivery and rendering. Messages are tagged events. The model does not produce these:
  - their HTML text;
  - the `STUDIO_RULES` text inside the prompt;
  - the emoji;
  - the date formatting with `strftime`;
  - the text of the exception inside the error alert.
- Every send, edit and forward succeeds. The `try/except` blocks that swallow delivery failures therefore never fire. A second `query.answer` on one callback is modelled as an event, though Telegram accepts only the first answer. If Telegram rejects the repeated answer, `confirm_booking` and `cancel_booking` raise at bot.py:234 and bot.py:300, after the row is updated. The admin notices that `ConfirmSpec` and `CancelSpec` promise are then never sent.
- Loading `BOT_TOKEN` and `STUDIO_RULES`, and the bot's `main`, `help_command` and handler registration. These are environment reads and library wiring.
- A client row missing under a booking's `client_id`. SQLite does not enforce the foreign key at `models.py:27` here, because nothing turns on `PRAGMA foreign_keys`. The case still cannot arise: no operation removes a client, `create_booking` stores the client before the booking, and `Models.ClientsExist` is part of `Models.Consistent`, which every ledger operation keeps. Were it to arise, the bot's `client.name` would raise.
- `int()` on non-ASCII decimal digits, which Python accepts. The model accepts only ASCII digits.
- `telegram_service.py`, `email_service.py`, `security.py`, `auth.py` and `routers/auth.py` are not part of this model. They are Telegram and SMTP I/O and token and password libraries. The routers are never mounted.
- The static file mount and the root route.
- `get_clients`, which lists the client table as it is.
- `BookingResponse` nests the client's response. `create_booking` and `get_bookings` return the booking rows, whose client is found through `GetClient`.
- `PAYMENT_DETAILS.format(...)` has no placeholders, so the payment text is a constant event. It carries no amount.
- `TableScan.NextKey`: once the largest id is 2^63-1, SQLite picks an unused id at random. That case is not modelled.
- Telegram user ids and message ids are taken to fit the 64-bit `BigInteger` columns, because Telegram keeps them within 52 bits. So the query of `handle_photo` is never modelled as overflowing.
- `PyText.PyInt`: CPython 3.11 and later (and the 3.8 to 3.10 security releases) refuse to convert more than 4300 digits (`sys.int_info.default_max_str_digits`; the sign and underscores are not counted). `int()` raises `ValueError` there and `str()` raises as well. The model reads and writes numbers of any length, so `PyText.FormatIntParses` and `Bot.ParseAdminIds` also cover such numbers. Only the admin variable can carry that much text. A Telegram message holds at most 4096 characters and callback data at most 64 bytes. Any id that long also fails `FitsSqlInteger`, so the handlers raise either way.
- `StudioApi.MonthCalendar`: a year outside 1..9999 is returned as `YearOutOfRange`. The source raises from `date()` there and gives an HTTP 500.
