# Hotel reservation service: a Dafny model

This project models the core of a small Express/MySQL microservice for hotel-room
reservations. It covers four pieces:

- the `Reservation` record (`ReservationModel`);
- the controller's two business rules, the price `totalPrix` and the validity test
  `verifierConditions`;
- the six handlers (`getAll`, `getById`, `create`, `update`, `delete`, `annuler`), as
  methods on a `ReservationsTable` class that holds the `reservations` table as a
  `map<int, Row>` plus its AUTO_INCREMENT counter (`ReservationController`);
- the request gate: the bearer-token middleware (`Auth`) and the role-gate factory
  `hasRole` (`HasRole`).

How JavaScript values are represented:

- A property value is `Value = Null | Num(int) | Date(day) | Timestamp(day) | Str(string)`.
  `Num` is a JSON number. `Date(day)` is the text of a calendar date such as
  `"2024-05-01"`, kept as its day number counted from 1970-01-01. `Timestamp(day)`
  is a JavaScript `Date` object at midnight of that day: the driver returns one for
  each DATE column it reads (`ReadDate`), and JSON writes it as an ISO timestamp,
  not as the date text that was stored. `Str` is any other text. An object (a
  request body, or a row a query returns) is `map<string, Value>`. A missing key is
  `undefined`, written `None`.
- `new Date(v)` is a time in milliseconds (`ToTime`). A number is taken as
  milliseconds, date text and a `Date` object as midnight of their day, and `null`
  as time 0. Other text,
  `undefined` and times beyond ±8.64e15 ms are invalid dates, and every comparison
  with an invalid date is false.
- `Number(v)` is NaN for `undefined`, for date text and for other non-numeric text.
  It is 0 for `null` and for empty or white-space-only text, and the time value for
  a `Date` object.
- The number of nights and the price are real numbers: the night count is the time
  difference divided by 86 400 000. A price that is NaN is `None`. JSON sends it as
  `null`.
- The database driver writes `undefined` parameters as SQL NULL (`Bind`).
- The table keeps client, room and both dates NOT NULL (`Storable`). An INSERT or
  UPDATE that would write NULL there answers 500. Every other SQL error is the
  handler's `storeError` argument. With it set, the handler answers 500 and the
  table stays as it was.

Behaviour of the code worth knowing:

- Cancel writes the status `"annulée"`.
- `update` overwrites all eight columns. A property missing from the body becomes
  NULL, and the body is not validated.
- `update`, `delete` and `annuler` answer success even when no row has the id.
- The controller calls no other service. `create` stores the client id it is sent,
  and prices always come from the fixed rate table.

## Model

| member | source | states |
|---|---|---|
| ReservationModel.FromObject | models/reservationModel.js:2-21 | each of the nine named properties of the record is the argument's property of that name, unchanged; a missing one is `undefined` |
| ReservationModel.RecordRoundTrip | models/reservationModel.js:1-23 | building a record from a record's own properties gives the same record: the constructor neither validates nor normalises |
| ReservationModel.ConstructorDropsOtherKeys | models/reservationModel.js:2-12 | the constructed record's properties are exactly the argument's properties restricted to the nine names |
| ReservationModel.OtherKeysIgnored | models/reservationModel.js:2-12 | adding or changing any key outside the nine leaves the record unchanged |
| ReservationModel.MissingFieldUndefined | models/reservationModel.js:13-21 | a named key absent from the argument is `undefined` in the record |
| ReservationController.NightlyRate | controllers/reservationController.js:173-176 | the nightly rate is between 200 and 500 |
| ReservationController.RateTable | controllers/reservationController.js:173-176 | Suite 500, Deluxe 400, Standard 300, every other or absent label 200 (strict equality on the text) |
| ReservationController.TotalPrix | controllers/reservationController.js:172-183 | the price is NaN exactly when a date is invalid or the party size is not a number |
| ReservationController.ToNumber | controllers/reservationController.js:182 | `Number` as `*` and `>` apply it; its behaviour is stated by DateAsPartySize (date text is NaN), BlankPartySizeCostsNothing (blank text is 0) and RejectsMoreThanFourGuests |
| ReservationController.Nights | controllers/reservationController.js:178-180 | `nuits`, the time difference in days; stated by PriceOfCalendarStay (whole days for date text) and NumbersAreMilliseconds (fractions for millisecond numbers) |
| ReservationController.ToTime | controllers/reservationController.js:178-179 | a valid date is within ±8.64e15 ms of 1970-01-01; anything else is an invalid date |
| ReservationController.PriceOfCalendarStay | controllers/reservationController.js:178-182 | with date-text dates and a numeric party size, whatever the other properties, the price is (end day − start day) × rate × party size |
| ReservationController.PriceOfBooking | controllers/reservationController.js:178-182 | for a booking with date-text dates and a numeric party size the price is (end day − start day) × rate × party size |
| ReservationController.SuiteExample | controllers/reservationController.js:172-183 | a Suite for 3 nights and 2 guests costs 3000 |
| ReservationController.NumbersAreMilliseconds | controllers/reservationController.js:178-182 | JSON numbers as dates are milliseconds: from 0 to 43 200 000 is half a night, so one guest at the base rate pays 100 |
| ReservationController.DateAsPartySize | controllers/reservationController.js:182-190 | date text given as the party size makes the price NaN and is ignored by the guest cap |
| ReservationController.BlankPartySizeCostsNothing | controllers/reservationController.js:182 | blank text as the party size reads as 0 guests, so a stay between calendar dates costs 0 |
| ReservationController.PriceMonotoneInNights | controllers/reservationController.js:178-182 | with type and non-negative party size fixed, more nights never cost less |
| ReservationController.PriceMonotoneInGuests | controllers/reservationController.js:178-182 | with type and non-negative nights fixed, more guests never cost less |
| ReservationController.RejectsEmptyOrReversedStay | controllers/reservationController.js:186-189 | with two valid dates, an end on or before the start makes the body invalid; equal dates are refused |
| ReservationController.RejectsMoreThanFourGuests | controllers/reservationController.js:190 | a party size that is a number above four makes the body invalid, whatever the dates |
| ReservationController.ValidIffStayAndCap | controllers/reservationController.js:185-193 | for valid dates and a numeric party size: valid if and only if end > start and guests ≤ 4 (no lower bound on guests) |
| ReservationController.VerifierConditions | controllers/reservationController.js:185-193 | `verifierConditions`; stated by ValidIffStayAndCap, RejectsEmptyOrReversedStay, RejectsMoreThanFourGuests, EmptyBodyPasses and DateAsPartySize |
| ReservationController.CalendarDaysOrdered | controllers/reservationController.js:186-189 | date-text dates compare by their day numbers |
| ReservationController.EmptyBodyPasses | controllers/reservationController.js:185-193 | a body without dates or party size passes, since comparisons with invalid dates and NaN are false |
| ReservationController.ValidBookingPricePositive | controllers/reservationController.js:172-193 | a valid body with date-text dates and at least one guest has a defined price of at least 200 |
| ReservationController.NegativeGuestsNegativePrice | controllers/reservationController.js:190-192 | a party of −1 passes the rule, and one night at the base rate then costs −200 |
| ReservationController.Stored | controllers/reservationController.js:35 | a record built from a stored row has all nine properties defined: the key, the six non-date columns as stored, and the two DATE columns as `Date` objects |
| ReservationController.ReadDate | controllers/reservationController.js:26-35 | a DATE column read back is never date text, and it denotes the same instant as the value stored |
| ReservationController.Bind | controllers/reservationController.js:66-75 | an `undefined` parameter is written as NULL; stated through RowOf and CreateAndReadPricesDiffer (a missing party size is stored NULL) |
| ReservationController.RowOf | controllers/reservationController.js:62-75 | the row written from the body's eight properties; stated by RowOfIgnoresOtherKeys, StorableIffColumnsGiven and CreateReadRoundTrip |
| ReservationController.RowOfIgnoresOtherKeys | controllers/reservationController.js:51-75 | the written row depends only on the eight column properties; the body's `idReservation` and any other key are ignored |
| ReservationController.Storable | db.js:38-41 | the four NOT NULL columns hold a value; stated by StorableIffColumnsGiven and kept by every handler through `Valid` |
| ReservationController.StorableIffColumnsGiven | db.js:38-41 | a body's row is accepted by the table if and only if client, room and both dates are present and not `null` |
| ReservationController.Listing | controllers/reservationController.js:8 | the result of `SELECT *` has one entry per stored row |
| ReservationController.ListingRowsAsStored | controllers/reservationController.js:8-15 | entry `i` of the listing is the row with the `i`-th smallest key, as `SELECT *` yields it (dates as `Date` objects) |
| ReservationController.ListingHasEveryRow | controllers/reservationController.js:8-15 | every stored row appears in the listing, as `SELECT *` yields it |
| ReservationController.ListingAscending | controllers/reservationController.js:8-15 | listing ids strictly increase, so no row appears twice |
| ReservationController.Overwritten | controllers/reservationController.js:101-116 | the update keeps the key set; the row with the id becomes the new row and every other row is unchanged |
| ReservationController.Removed | controllers/reservationController.js:134-136 | the delete removes exactly the id from the key set and leaves every other row unchanged |
| ReservationController.Cancelled | controllers/reservationController.js:154-156 | the cancel keeps the key set; only the status of the row with the id changes, to "annulée" |
| ReservationController.CancelIdempotent | controllers/reservationController.js:151-166 | cancelling twice gives the same table as cancelling once |
| ReservationController.CreatedRecordFields | controllers/reservationController.js:79-82 | the create answer's record carries the body's named properties; its id is the inserted id unless the body has its own `idReservation`, which the spread lets win |
| ReservationController.Echoed | controllers/reservationController.js:79-82 | the spread object has the body's keys plus `idReservation`; every body property is kept as sent, and the insert id is used only when the body has no id |
| ReservationController.CreateReadRoundTrip | controllers/reservationController.js:62-84 | when the body gives all eight columns and no id, the record `getById` reads back agrees with the record create answered on the id and the six non-date columns; its dates are the body's dates read as `Date` objects |
| ReservationController.ReadDatesKeepPrice | controllers/reservationController.js:178-182 | reading both dates back as `Date` objects leaves the price unchanged |
| ReservationController.CreateReadSamePrice | controllers/reservationController.js:36-84 | for such a body, the price `getById` recomputes equals the price create answered |
| ReservationController.CreateAndReadPricesDiffer | controllers/reservationController.js:79-84 | for every body the table accepts, with a stay between two calendar dates and no party size: the body is valid, create answers a NaN price, and `getById` on the stored row (party-size column NULL) answers 0 |
| ReservationController.UnpricedBodyExample | db.js:38-41 | a body with client, room and a two-night stay and no party size meets those conditions, so the case arises |
| ReservationController.ReservationsTable.GetAll | controllers/reservationController.js:7-17 | 500 on a store error; otherwise the caller's e-mail and roles and the listing of the whole table, with no price |
| ReservationController.ReservationsTable.GetById | controllers/reservationController.js:22-41 | 500 (a `StoreError` answer) on a store error, 404 "Reservation not found" for an unknown id, otherwise 200 with the stored record and its recomputed price |
| ReservationController.ReservationsTable.Create | controllers/reservationController.js:46-93 | an invalid body gets 400 "Reservation invalide" and the table is unchanged; a body lacking a NOT NULL column (client, room, either date) gets 500 and the table is unchanged; otherwise exactly one row is added under a fresh id, holding the body's eight properties, and the answer is 201 "Reservation created" with the caller's e-mail, the record and its price |
| ReservationController.ReservationsTable.Update | controllers/reservationController.js:98-126 | with no validity check, the row with the id gets all eight columns from the body and every other row is unchanged; NULL into a NOT NULL column of a matched row gives 500 and no change; the answer is success whether or not a row matched |
| ReservationController.ReservationsTable.Delete | controllers/reservationController.js:131-146 | only the row with the id is removed; success whether or not it existed |
| ReservationController.ReservationsTable.Annuler | controllers/reservationController.js:151-166 | only that row's status becomes "annulée"; its other columns are kept; success whether or not it existed |
| ReservationController.CancelTwice | controllers/reservationController.js:151-166 | two cancels through the handler both answer the same success, and the table is as after one cancel |
| Auth.Split | middlewares/auth.js:11 | `split` gives at least one piece, and at least two when the separator occurs |
| Auth.SplitJoin | middlewares/auth.js:11 | joining the pieces with the separator gives the string back |
| Auth.SplitPiecesFree | middlewares/auth.js:11 | no piece contains the separator |
| Auth.FirstPiece | middlewares/auth.js:11 | the first piece is the longest separator-free prefix |
| Auth.SplitAtFirstSeparator | middlewares/auth.js:11 | splitting at the first separator peels off the text before it |
| Auth.TokenAfterPrefix | middlewares/auth.js:11 | the token checked is the text after "Bearer " up to the next space, or to the end |
| Auth.Token | middlewares/auth.js:11 | `authHeader.split(" ")[1]`; stated by TokenAfterPrefix |
| Auth.StartsWith | middlewares/auth.js:7 | `startsWith`, exact and case-sensitive; stated by LowerCaseSchemeRejected and AuthMiddleware |
| Auth.LowerCaseSchemeRejected | middlewares/auth.js:7-8 | the prefix test is case-sensitive: "bearer …" fails it |
| Auth.AuthMiddleware | middlewares/auth.js:4-25 | no header, or no exact "Bearer " prefix: 401 "Token manquant"; a token the verifier rejects: 401 "Token invalide"; in both cases `req.user` is untouched and `next` is not called; otherwise `req.user` is the decoded payload and `next` is called once |
| HasRole.HasRole | middlewares/hasRole.js:1-7 | the returned middleware calls `next` if and only if a first argument exists and the `roles` claim is present and contains it; otherwise it answers 403 "Accès refusé (ROLE)" |
| HasRole.RoleCheck | middlewares/hasRole.js:3-6 | the per-request check; stated by HasRole's if-and-only-if and the lemmas below |
| HasRole.NoRolesAlwaysDenied | middlewares/hasRole.js:3-4 | a caller without a `roles` claim is always refused |
| HasRole.OnlyFirstArgument | middlewares/hasRole.js:1 | `hasRole(a, …rest)` behaves exactly like `hasRole(a)` |
| HasRole.DeleteRouteAdmitsOnlyClients | routes/reservation.js:102-107 | on the delete route, a caller who is only a receptionist is refused and a client is admitted |
| HasRole.NoArgumentDeniesAll | middlewares/hasRole.js:1-4 | `hasRole()` with no argument refuses everyone |

## Left out

- Database plumbing. The connection, the creation of the database and table, and the `throw` on connection errors (db.js) are I/O.
- SQL errors other than a NULL in a NOT NULL column are the `storeError` argument of each handler. These include a value of the wrong type for a column and a lost connection. The NOT NULL columns are checked as MySQL's default strict mode does. MySQL's column-type conversion of stored values is not modelled: a row holds the values as they were bound.
- AUTO_INCREMENT values taken up by failed inserts are not modelled. The counter moves only on a successful insert.
- `SELECT *` has no `ORDER BY`. The listing fixes ascending primary-key order, which is the order of a full primary-key scan.
- Path ids are integers. MySQL's conversion of a non-numeric path segment is not modelled.
- Date text is a whole calendar day at midnight UTC. Date text with a time of day, time zones, and text `new Date` parses in other formats are not modelled. Prices are exact real numbers, not floating point.
- ReservationController.ReadDate: the driver's `Date` is taken at midnight UTC, which holds on a server running in UTC. Elsewhere the driver returns local midnight, so both dates shift by the zone offset. Outside a daylight-saving change the offset is the same for both dates and the night count is unchanged. The text of the ISO timestamp JSON writes is not modelled.
- JSON values are limited to `null`, integers, date text and other text. Booleans, arrays, nested objects and fractional numbers are not modelled. Numeric text such as `"2"` is not modelled. Empty and white-space-only text is: `Number` reads it as 0. `new Date` parses numeric text by engine-specific rules.
- The decoded token payload keeps only `email` and `roles`. A `roles` claim that is a string (on which `includes` is a substring test) is not modelled.
- `req.user` is always present when `hasRole` runs, because every route puts the token middleware first. The TypeError a missing `req.user` would raise is not modelled.
- RS256 signature checking (the `jsonwebtoken` library) is the `verify` argument, a function from token to decoded payload or failure. Reading the public key from disk (config/jwt.js) is file I/O.
- Express and Swagger wiring, body parsing and `listen` (index.js) are framework wiring. Routing (routes/reservation.js) is also left out, apart from the delete route's `hasRole` call. The route `/reservations/client` binds `controller.getByClient`, which the controller never defines, so there is nothing to model there.
- Response envelopes keep the message and the acting e-mail. The JSON key names (`createdBy`, `updatedBy`, `deletedBy`, `annulledBy`) and the raw SQL error body of a 500 are not modelled.
- Callbacks and asynchrony are not modelled: each handler is one atomic step.
