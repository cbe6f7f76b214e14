/**
 * The reservation controller (controllers/reservationController.js): the two
 * business rules, `totalPrix` and `verifierConditions`, and the six request
 * handlers as methods on the `reservations` table.
 *
 * JavaScript coercions are written out. `Number(v)` is NaN for `undefined`,
 * date text and other non-numeric text; 0 for `null` and for empty or
 * white-space-only text; the time value for a `Date` object. `new Date(v)` is a
 * time in milliseconds since 1970-01-01: a number is taken as milliseconds, date
 * text and a `Date` object as midnight of their day, `null` as time 0, and
 * anything else (or a time beyond the range of JavaScript dates) is an invalid
 * date. A price or day count that is NaN is
 * `None`. A NULL written into a NOT NULL column fails the statement; every
 * other SQL error is the `storeError` flag. Either way the handler answers 500
 * and the table is left as it was.
 */
module ReservationController {
  import opened Wrappers
  import opened ReservationModel
  import Auth

  /** A computed price; `None` is NaN, which JSON writes as `null`. */
  type Price = Option<real>

  /** `1000 * 60 * 60 * 24`, the length of a day in milliseconds. */
  const MsPerDay: int := 86400000

  /** The largest distance from 1970-01-01, in milliseconds, that a JavaScript date can hold. */
  const MaxTime: int := 8640000000000000

  /** The characters JavaScript's `Number` skips as white space around numeric text. */
  const WhiteSpace: set<char> := {' ', '\t', '\n', '\U{000B}', '\U{000C}', '\r', '\U{00A0}', '\U{1680}',
    '\U{2000}', '\U{2001}', '\U{2002}', '\U{2003}', '\U{2004}', '\U{2005}', '\U{2006}', '\U{2007}', '\U{2008}',
    '\U{2009}', '\U{200A}', '\U{2028}', '\U{2029}', '\U{202F}', '\U{205F}', '\U{3000}', '\U{FEFF}'}

  /** Text that is empty or white space only, which `Number` reads as 0. */
  predicate IsBlank(s: string)
  {
    forall i :: 0 <= i < |s| ==> s[i] in WhiteSpace
  }

  /**
   * `Number(v)`: NaN for `undefined`, date text and other non-numeric text; 0 for
   * `null` and for blank text.
   */
  function ToNumber(v: Option<Value>): Option<int>
  {
    match v
    case None => None
    case Some(Null) => Some(0)
    case Some(Num(n)) => Some(n)
    case Some(Date(_)) => None
    case Some(Timestamp(day)) => Some(day * MsPerDay)
    case Some(Str(s)) => if IsBlank(s) then Some(0) else None
  }

  /** `new Date(v)` as milliseconds since 1970-01-01; an invalid date is `None`. */
  function ToTime(v: Option<Value>): (t: Option<int>)
    ensures t.Some? ==> -MaxTime <= t.value <= MaxTime
  {
    var ms := match v
      case None => None
      case Some(Null) => Some(0)
      case Some(Num(n)) => Some(n)
      case Some(Date(day)) => Some(day * MsPerDay)
      case Some(Timestamp(day)) => Some(day * MsPerDay)
      case Some(Str(_)) => None;
    if ms.Some? && -MaxTime <= ms.value <= MaxTime then ms else None
  }

  /** A day number that a JavaScript date can represent. */
  predicate IsCalendarDay(day: int)
  {
    -100000000 <= day <= 100000000
  }

  /** The nightly rate looked up from the room-type label (`prix` in `totalPrix`). */
  function NightlyRate(typeChambre: Option<Value>): (prix: int)
    ensures 200 <= prix <= 500
  {
    if typeChambre == Some(Str("Suite")) then 500
    else if typeChambre == Some(Str("Deluxe")) then 400
    else if typeChambre == Some(Str("Standard")) then 300
    else 200
  }

  /** `nuits`: the time from `dateDebut` to `dateFin` in days, NaN if either date is invalid. */
  function Nights(r: Reservation): Option<real>
  {
    var debut, fin := ToTime(r.dateDebut), ToTime(r.dateFin);
    if debut.Some? && fin.Some? then Some((fin.value - debut.value) as real / MsPerDay as real) else None
  }

  /** `totalPrix(reservation)`: nights times nightly rate times party size. */
  function TotalPrix(r: Reservation): (p: Price)
    ensures p.Some? <==> Nights(r).Some? && ToNumber(r.nombrePersonnes).Some?
  {
    var nuits, personnes := Nights(r), ToNumber(r.nombrePersonnes);
    if nuits.Some? && personnes.Some? then
      Some(nuits.value * NightlyRate(r.typeChambre) as real * personnes.value as real)
    else None
  }

  /** `verifierConditions(body)`: false when the end date is not after the start, or more than four guests. */
  function VerifierConditions(body: Object): bool
  {
    var debut, fin := ToTime(Get(body, "dateDebut")), ToTime(Get(body, "dateFin"));
    var personnes := ToNumber(Get(body, "nombrePersonnes"));
    if debut.Some? && fin.Some? && fin.value <= debut.value then false
    else if personnes.Some? && personnes.value > 4 then false
    else true
  }

  /** A reservation whose dates are given as date text and whose party size is a number. */
  function Booking(dateDebut: int, dateFin: int, nombrePersonnes: int, typeChambre: Option<Value>): Reservation
  {
    Reservation(None, None, None, Some(Date(dateDebut)), Some(Date(dateFin)), None,
      Some(Num(nombrePersonnes)), typeChambre, None)
  }

  // ---------------------------------------------------------------------------
  // The two business rules
  // ---------------------------------------------------------------------------

  /** The rate table: Suite 500, Deluxe 400, Standard 300, any other or absent label 200. */
  lemma RateTable(t: Option<Value>)
    ensures NightlyRate(Some(Str("Suite"))) == 500
    ensures NightlyRate(Some(Str("Deluxe"))) == 400
    ensures NightlyRate(Some(Str("Standard"))) == 300
    ensures t != Some(Str("Suite")) && t != Some(Str("Deluxe")) && t != Some(Str("Standard"))
      ==> NightlyRate(t) == 200
  {
  }

  /** Two calendar days, as dates, are whole days apart. */
  lemma {:induction false} DaysApart(debut: int, fin: int)
    requires IsCalendarDay(debut) && IsCalendarDay(fin)
    ensures ToTime(Some(Date(debut))) == Some(debut * MsPerDay)
    ensures ToTime(Some(Date(fin))) == Some(fin * MsPerDay)
    ensures (fin * MsPerDay - debut * MsPerDay) as real / MsPerDay as real == (fin - debut) as real
  {
    assert fin * MsPerDay - debut * MsPerDay == (fin - debut) * MsPerDay;
  }

  /** Converting a product to a real is the product of the converted factors. */
  lemma {:induction false} RealProduct(n: real, a: int, b: int, c: int)
    requires n == a as real
    ensures n * b as real * c as real == (a * b * c) as real
  {
    assert (a * b) as real == a as real * b as real;
  }

  /**
   * With calendar dates and a numeric party size the price is whole nights times
   * rate times guests, whatever the record's other properties.
   */
  lemma {:induction false} PriceOfCalendarStay(r: Reservation, debut: int, fin: int, personnes: int)
    requires r.dateDebut == Some(Date(debut)) && r.dateFin == Some(Date(fin))
    requires IsCalendarDay(debut) && IsCalendarDay(fin)
    requires r.nombrePersonnes == Some(Num(personnes))
    ensures TotalPrix(r) == Some(((fin - debut) * NightlyRate(r.typeChambre) * personnes) as real)
  {
    DaysApart(debut, fin);
    var rate := NightlyRate(r.typeChambre);
    var nuits := Nights(r).value;
    assert nuits == (fin - debut) as real;
    assert TotalPrix(r).Some? && TotalPrix(r).value == nuits * rate as real * personnes as real;
    RealProduct(nuits, fin - debut, rate, personnes);
  }

  /** The price of a `Booking`: nights times rate times guests. */
  lemma {:induction false} PriceOfBooking(debut: int, fin: int, personnes: int, t: Option<Value>)
    requires IsCalendarDay(debut) && IsCalendarDay(fin)
    ensures TotalPrix(Booking(debut, fin, personnes, t)) == Some(((fin - debut) * NightlyRate(t) * personnes) as real)
  {
    PriceOfCalendarStay(Booking(debut, fin, personnes, t), debut, fin, personnes);
  }

  /** A Suite for three nights and two guests costs 3000. */
  lemma {:induction false} SuiteExample(debut: int)
    requires IsCalendarDay(debut) && IsCalendarDay(debut + 3)
    ensures TotalPrix(Booking(debut, debut + 3, 2, Some(Str("Suite")))) == Some(3000.0)
  {
    PriceOfBooking(debut, debut + 3, 2, Some(Str("Suite")));
  }

  /**
   * A JSON number used as a date is read as milliseconds: from time 0 to half a
   * day later is half a night, at the base rate 100 for one guest.
   */
  lemma NumbersAreMilliseconds()
    ensures var r := Reservation(None, None, None, Some(Num(0)), Some(Num(43200000)), None, Some(Num(1)), None, None);
      TotalPrix(r) == Some(100.0)
  {
  }

  /** Date text given as the party size is NaN: the price is NaN and the guest cap does not apply. */
  lemma {:induction false} DateAsPartySize(body: Object, day: int)
    requires Get(body, "nombrePersonnes") == Some(Date(day))
    ensures TotalPrix(FromObject(body)) == None
    ensures VerifierConditions(body) <==> VerifierConditions(body - {"nombrePersonnes"})
  {
    assert Field(FromObject(body), "nombrePersonnes") == Get(body, "nombrePersonnes");
    assert Get(body - {"nombrePersonnes"}, "dateDebut") == Get(body, "dateDebut");
    assert Get(body - {"nombrePersonnes"}, "dateFin") == Get(body, "dateFin");
  }

  /** Multiplying by a non-negative factor keeps the order. */
  lemma {:induction false} ScaleMonotone(a: int, b: int, c: int)
    requires a <= b && c >= 0
    ensures a * c <= b * c
  {
    assert b * c - a * c == (b - a) * c;
  }

  /** Blank text as the party size reads as 0 guests, so a stay between calendar dates costs 0. */
  lemma {:induction false} BlankPartySizeCostsNothing(r: Reservation, debut: int, fin: int, s: string)
    requires r.dateDebut == Some(Date(debut)) && r.dateFin == Some(Date(fin))
    requires IsCalendarDay(debut) && IsCalendarDay(fin)
    requires r.nombrePersonnes == Some(Str(s)) && IsBlank(s)
    ensures TotalPrix(r) == Some(0.0)
  {
    DaysApart(debut, fin);
    assert ToNumber(r.nombrePersonnes) == Some(0);
    assert TotalPrix(r).Some? && TotalPrix(r).value == Nights(r).value * NightlyRate(r.typeChambre) as real * 0.0;
  }

  /** Multiplying a non-negative factor by ordered numbers keeps the order. */
  lemma {:induction false} ScaleMonotoneLeft(c: int, a: int, b: int)
    requires a <= b && c >= 0
    ensures c * a <= c * b
  {
    assert c * b - c * a == c * (b - a);
  }

  /** With the room type fixed and non-negative factors, more nights never cost less. */
  lemma {:induction false} PriceMonotoneInNights(debut: int, n1: nat, n2: nat, personnes: nat, t: Option<Value>)
    requires n1 <= n2 && IsCalendarDay(debut) && IsCalendarDay(debut + n2)
    ensures TotalPrix(Booking(debut, debut + n1, personnes, t)).value
         <= TotalPrix(Booking(debut, debut + n2, personnes, t)).value
  {
    PriceOfBooking(debut, debut + n1, personnes, t);
    PriceOfBooking(debut, debut + n2, personnes, t);
    var rate := NightlyRate(t);
    ScaleMonotone(n1, n2, rate);
    ScaleMonotone(n1 * rate, n2 * rate, personnes);
  }

  /** With the room type fixed and non-negative nights, more guests never cost less. */
  lemma {:induction false} PriceMonotoneInGuests(debut: int, nuits: nat, p1: int, p2: int, t: Option<Value>)
    requires p1 <= p2 && IsCalendarDay(debut) && IsCalendarDay(debut + nuits)
    ensures TotalPrix(Booking(debut, debut + nuits, p1, t)).value
         <= TotalPrix(Booking(debut, debut + nuits, p2, t)).value
  {
    PriceOfBooking(debut, debut + nuits, p1, t);
    PriceOfBooking(debut, debut + nuits, p2, t);
    var rate := NightlyRate(t);
    ScaleMonotone(0, nuits, rate);
    ScaleMonotoneLeft(nuits * rate, p1, p2);
  }

  /** A stay whose end is on or before its start is refused, whatever the party size. */
  lemma RejectsEmptyOrReversedStay(body: Object, debut: int, fin: int)
    requires ToTime(Get(body, "dateDebut")) == Some(debut) && ToTime(Get(body, "dateFin")) == Some(fin)
    requires fin <= debut
    ensures !VerifierConditions(body)
  {
  }

  /** More than four guests is refused, whatever the dates. */
  lemma RejectsMoreThanFourGuests(body: Object, personnes: int)
    requires ToNumber(Get(body, "nombrePersonnes")) == Some(personnes) && personnes > 4
    ensures !VerifierConditions(body)
  {
  }

  /**
   * For valid dates and a numeric party size the rule is exactly: end after start
   * and at most four guests. There is no lower bound: zero or negative guests pass.
   */
  lemma ValidIffStayAndCap(body: Object, debut: int, fin: int, personnes: int)
    requires ToTime(Get(body, "dateDebut")) == Some(debut) && ToTime(Get(body, "dateFin")) == Some(fin)
    requires ToNumber(Get(body, "nombrePersonnes")) == Some(personnes)
    ensures VerifierConditions(body) <==> debut < fin && personnes <= 4
  {
  }

  /** Calendar dates compare by their day numbers. */
  lemma {:induction false} CalendarDaysOrdered(debut: int, fin: int)
    requires IsCalendarDay(debut) && IsCalendarDay(fin)
    ensures ToTime(Some(Date(debut))).value < ToTime(Some(Date(fin))).value <==> debut < fin
  {
    DaysApart(debut, fin);
  }

  /** A body with no dates and no party size passes the rule (invalid dates compare false). */
  lemma EmptyBodyPasses()
    ensures VerifierConditions(map[])
  {
  }

  /** A valid booking with calendar dates and one to four guests has a price of at least 200. */
  lemma {:induction false} ValidBookingPricePositive(body: Object, debut: int, fin: int, personnes: int)
    requires Get(body, "dateDebut") == Some(Date(debut)) && Get(body, "dateFin") == Some(Date(fin))
    requires IsCalendarDay(debut) && IsCalendarDay(fin)
    requires Get(body, "nombrePersonnes") == Some(Num(personnes)) && personnes >= 1
    requires VerifierConditions(body)
    ensures TotalPrix(FromObject(body)).Some? && TotalPrix(FromObject(body)).value >= 200.0
  {
    CalendarDaysOrdered(debut, fin);
    assert debut < fin;
    var r := FromObject(body);
    assert Field(r, "dateDebut") == Get(body, "dateDebut");
    assert Field(r, "dateFin") == Get(body, "dateFin");
    assert Field(r, "nombrePersonnes") == Get(body, "nombrePersonnes");
    PriceOfCalendarStay(r, debut, fin, personnes);
    var rate := NightlyRate(r.typeChambre);
    ScaleMonotone(1, fin - debut, rate);
    ScaleMonotone(1, personnes, (fin - debut) * rate);
    assert (fin - debut) * rate * personnes == personnes * ((fin - debut) * rate);
  }

  /** A valid booking with a negative party size gets a negative price. */
  lemma {:induction false} NegativeGuestsNegativePrice(debut: int)
    requires IsCalendarDay(debut) && IsCalendarDay(debut + 1)
    ensures VerifierConditions(map["dateDebut" := Date(debut), "dateFin" := Date(debut + 1), "nombrePersonnes" := Num(-1)])
    ensures TotalPrix(Booking(debut, debut + 1, -1, None)) == Some(-200.0)
  {
    CalendarDaysOrdered(debut, debut + 1);
    PriceOfBooking(debut, debut + 1, -1, None);
  }

  // ---------------------------------------------------------------------------
  // The table
  // ---------------------------------------------------------------------------

  /** The eight stored columns of a row; SQL NULL is `Null`. */
  datatype Row = Row(
    client_id: Value,
    chambre_id: Value,
    dateDebut: Value,
    dateFin: Value,
    statut: Value,
    nombrePersonnes: Value,
    typeChambre: Value,
    photoActeMariage: Value)

  /** A bound query parameter: the driver writes `undefined` as NULL. */
  function Bind(v: Option<Value>): Value
  {
    if v.Some? then v.value else Null
  }

  /** The row the INSERT and UPDATE statements write from a request body's eight properties. */
  function RowOf(body: Object): Row
  {
    Row(Bind(Get(body, "client_id")), Bind(Get(body, "chambre_id")), Bind(Get(body, "dateDebut")),
      Bind(Get(body, "dateFin")), Bind(Get(body, "statut")), Bind(Get(body, "nombrePersonnes")),
      Bind(Get(body, "typeChambre")), Bind(Get(body, "photoActeMariage")))
  }

  /**
   * The four columns the table declares NOT NULL (client, room and both dates)
   * hold a value. MySQL, in its default strict mode, fails an INSERT or UPDATE
   * that would write NULL into one of them.
   */
  predicate Storable(row: Row)
  {
    row.client_id != Null && row.chambre_id != Null && row.dateDebut != Null && row.dateFin != Null
  }

  /** The eight column names, in the order of the INSERT statement. */
  const ColumnNames: seq<string> := ["client_id", "chambre_id", "dateDebut", "dateFin", "statut",
    "nombrePersonnes", "typeChambre", "photoActeMariage"]

  /** A body is written as a row that MySQL accepts exactly when its four NOT NULL properties are present and not `null`. */
  lemma {:induction false} StorableIffColumnsGiven(body: Object)
    ensures Storable(RowOf(body)) <==>
      forall k :: k in ["client_id", "chambre_id", "dateDebut", "dateFin"] ==> k in body && body[k] != Null
  {
    var need := ["client_id", "chambre_id", "dateDebut", "dateFin"];
    if Storable(RowOf(body)) {
      forall k | k in need
        ensures k in body && body[k] != Null
      {
        assert k == need[0] || k == need[1] || k == need[2] || k == need[3];
      }
    } else {
      assert need[0] in need && need[1] in need && need[2] in need && need[3] in need;
    }
  }

  /** The row written never depends on the body's `idReservation`, nor on any key outside the eight columns. */
  lemma {:induction false} RowOfIgnoresOtherKeys(body: Object, k: string, v: Value)
    requires k !in ColumnNames
    ensures RowOf(body[k := v]) == RowOf(body)
  {
    assert k != ColumnNames[0] && k != ColumnNames[1] && k != ColumnNames[2] && k != ColumnNames[3];
    assert k != ColumnNames[4] && k != ColumnNames[5] && k != ColumnNames[6] && k != ColumnNames[7];
  }

  /**
   * A DATE column as the driver returns it: the stored day becomes a `Date`
   * object for the same instant; any other value is returned as stored.
   */
  function ReadDate(v: Value): (w: Value)
    ensures ToTime(Some(w)) == ToTime(Some(v))
    ensures !w.Date?
  {
    if v.Date? then Timestamp(v.day) else v
  }

  /** The object a `SELECT *` yields for the row with key `id`: all nine columns. */
  function RowObject(id: int, row: Row): (o: Object)
    ensures "idReservation" in o && o["idReservation"] == Num(id)
  {
    map["idReservation" := Num(id), "client_id" := row.client_id, "chambre_id" := row.chambre_id,
      "dateDebut" := ReadDate(row.dateDebut), "dateFin" := ReadDate(row.dateFin), "statut" := row.statut,
      "nombrePersonnes" := row.nombrePersonnes, "typeChambre" := row.typeChambre,
      "photoActeMariage" := row.photoActeMariage]
  }

  /** `new Reservation(results[0])` for a stored row: every property defined. */
  function Stored(id: int, row: Row): (r: Reservation)
    ensures r.idReservation == Some(Num(id))
    ensures r == Reservation(Some(Num(id)), Some(row.client_id), Some(row.chambre_id),
      Some(ReadDate(row.dateDebut)), Some(ReadDate(row.dateFin)), Some(row.statut), Some(row.nombrePersonnes),
      Some(row.typeChambre), Some(row.photoActeMariage))
  {
    FromObject(RowObject(id, row))
  }

  /** A set of keys is empty or has a member. */
  lemma EmptyOrInhabited(keys: set<int>)
    ensures keys == {} || exists k :: k in keys
  {
    if forall k :: k !in keys {
      assert keys == {};
    }
  }

  /** A non-empty set of integers has a least element. */
  lemma {:induction false} LeastKeyExists(keys: set<int>)
    requires keys != {}
    ensures exists m :: m in keys && forall x :: x in keys ==> m <= x
    decreases |keys|
  {
    EmptyOrInhabited(keys);
    var y :| y in keys;
    if keys != {y} {
      var rest := keys - {y};
      LeastKeyExists(rest);
      var m :| m in rest && forall x :: x in rest ==> m <= x;
      var least := if y < m then y else m;
      forall x | x in keys
        ensures least <= x
      {
        if x != y {
          assert x in rest;
        }
      }
    }
  }

  /** The smallest key of a non-empty set. */
  function MinKey(s: set<int>): (m: int)
    requires s != {}
    ensures m in s && forall x :: x in s ==> m <= x
  {
    LeastKeyExists(s);
    var m :| m in s && forall x :: x in s ==> m <= x;
    m
  }

  /** The keys of a set in ascending order. */
  function SortedKeys(s: set<int>): (ks: seq<int>)
    ensures |ks| == |s|
    ensures forall x :: x in s <==> x in ks
    ensures forall i, j :: 0 <= i < j < |ks| ==> ks[i] < ks[j]
    decreases |s|
  {
    if s == {} then []
    else
      var m := MinKey(s);
      var rest := SortedKeys(s - {m});
      assert forall i :: 0 <= i < |rest| ==> m < rest[i] by {
        forall i | 0 <= i < |rest|
          ensures m < rest[i]
        {
          assert rest[i] in rest;
        }
      }
      [m] + rest
  }

  /** What `SELECT * FROM reservations` yields: one object per row, by ascending id. */
  function Listing(rows: map<int, Row>): (list: seq<Object>)
    ensures |list| == |rows|
  {
    var ids := SortedKeys(rows.Keys);
    seq(|ids|, i requires 0 <= i < |ids| => RowObject(ids[i], rows[ids[i]]))
  }

  /** The listing holds, at position `i`, the row whose key is the `i`-th smallest, as stored. */
  lemma {:induction false} ListingRowsAsStored(rows: map<int, Row>)
    ensures forall i :: 0 <= i < |Listing(rows)| ==>
      var id := SortedKeys(rows.Keys)[i]; id in rows && Listing(rows)[i] == RowObject(id, rows[id])
  {
    var ids := SortedKeys(rows.Keys);
    var list: seq<Object> := Listing(rows);
    forall i | 0 <= i < |list|
      ensures ids[i] in rows && list[i] == RowObject(ids[i], rows[ids[i]])
    {
      assert ids[i] in ids;
    }
  }

  /** Every stored row appears in the listing. */
  lemma {:induction false} ListingHasEveryRow(rows: map<int, Row>)
    ensures forall id :: id in rows ==> RowObject(id, rows[id]) in Listing(rows)
  {
    var ids := SortedKeys(rows.Keys);
    var list: seq<Object> := Listing(rows);
    forall id | id in rows
      ensures RowObject(id, rows[id]) in list
    {
      var i :| 0 <= i < |ids| && ids[i] == id;
      assert list[i] == RowObject(id, rows[id]);
    }
  }

  /** The listing is in strictly ascending `idReservation` order, so no row appears twice. */
  lemma {:induction false} ListingAscending(rows: map<int, Row>)
    ensures forall i, j :: 0 <= i < j < |Listing(rows)| ==>
      Listing(rows)[i]["idReservation"].n < Listing(rows)[j]["idReservation"].n
  {
    var ids := SortedKeys(rows.Keys);
    var list: seq<Object> := Listing(rows);
    forall i, j | 0 <= i < j < |list|
      ensures list[i]["idReservation"].n < list[j]["idReservation"].n
    {
      assert list[i] == RowObject(ids[i], rows[ids[i]]);
      assert list[j] == RowObject(ids[j], rows[ids[j]]);
    }
  }

  /** UPDATE ... WHERE idReservation = id: the row with that key, if any, becomes `row`. */
  function Overwritten(rows: map<int, Row>, id: int, row: Row): (r: map<int, Row>)
    ensures r.Keys == rows.Keys
    ensures forall k :: k in r ==> r[k] == (if k == id then row else rows[k])
  {
    if id in rows then rows[id := row] else rows
  }

  /** DELETE ... WHERE idReservation = id. */
  function Removed(rows: map<int, Row>, id: int): (r: map<int, Row>)
    ensures r.Keys == rows.Keys - {id}
    ensures forall k :: k in r ==> r[k] == rows[k]
  {
    rows - {id}
  }

  const Annulee: Value := Str("annulée")

  /** UPDATE reservations SET statut = 'annulée' WHERE idReservation = id. */
  function Cancelled(rows: map<int, Row>, id: int): (r: map<int, Row>)
    ensures r.Keys == rows.Keys
    ensures forall k :: k in r ==> r[k] == (if k == id then rows[k].(statut := Annulee) else rows[k])
  {
    if id in rows then rows[id := rows[id].(statut := Annulee)] else rows
  }

  /** Cancelling twice leaves the table as cancelling once. */
  lemma {:induction false} CancelIdempotent(rows: map<int, Row>, id: int)
    ensures Cancelled(Cancelled(rows, id), id) == Cancelled(rows, id)
  {
    var once := Cancelled(rows, id);
    var twice := Cancelled(once, id);
    assert twice.Keys == once.Keys;
    forall k | k in twice
      ensures twice[k] == once[k]
    {
    }
  }

  /** The object a successful create answers with: `{ idReservation: insertId, ...req.body }`. */
  function Echoed(insertId: int, body: Object): (o: Object)
    ensures o.Keys == body.Keys + {"idReservation"}
    ensures forall k :: k in body ==> o[k] == body[k]
    ensures "idReservation" !in body ==> o["idReservation"] == Num(insertId)
  {
    map["idReservation" := Num(insertId)] + body
  }

  /**
   * The record in the create response carries the body's named properties as
   * sent; its id is the inserted one unless the body brings its own
   * `idReservation`, which the spread lets win.
   */
  lemma {:induction false} CreatedRecordFields(insertId: int, body: Object)
    ensures var r := FromObject(Echoed(insertId, body));
      && (forall k :: k in FieldNames && k != "idReservation" ==> Field(r, k) == Get(body, k))
      && r.idReservation == (if "idReservation" in body then Some(body["idReservation"]) else Some(Num(insertId)))
  {
    var r := FromObject(Echoed(insertId, body));
    forall k | k in FieldNames && k != "idReservation"
      ensures Field(r, k) == Get(body, k)
    {
      assert Field(r, k) == Get(Echoed(insertId, body), k);
    }
    assert Field(r, "idReservation") == Get(Echoed(insertId, body), "idReservation");
  }

  /**
   * The price answered by create and the price recomputed by getById can differ
   * for the same booking: for a body the table accepts, with a stay between two
   * calendar dates and no `nombrePersonnes`, the first is NaN (undefined) and the
   * second 0 (the column is NULL, which the table allows for that column).
   */
  lemma {:induction false} CreateAndReadPricesDiffer(insertId: int, body: Object, debut: int, fin: int)
    requires Get(body, "dateDebut") == Some(Date(debut)) && Get(body, "dateFin") == Some(Date(fin))
    requires IsCalendarDay(debut) && IsCalendarDay(fin) && debut < fin
    requires "nombrePersonnes" !in body
    requires Storable(RowOf(body))
    ensures VerifierConditions(body)
    ensures TotalPrix(FromObject(Echoed(insertId, body))) == None
    ensures TotalPrix(Stored(insertId, RowOf(body))) == Some(0.0)
  {
    CalendarDaysOrdered(debut, fin);
    assert "nombrePersonnes" !in Echoed(insertId, body);
    var stored := Stored(insertId, RowOf(body));
    assert stored.nombrePersonnes == Some(Null);
    DaysApart(debut, fin);
    assert Nights(stored) == Some((fin - debut) as real);
    assert TotalPrix(stored).Some? && TotalPrix(stored).value == (fin - debut) as real * NightlyRate(stored.typeChambre) as real * 0.0;
  }

  /** Such bodies exist: client, room and a two-night stay, without a party size. */
  lemma {:induction false} UnpricedBodyExample(client: int, chambre: int, debut: int)
    requires IsCalendarDay(debut) && IsCalendarDay(debut + 2)
    ensures var body := map["client_id" := Num(client), "chambre_id" := Num(chambre),
                            "dateDebut" := Date(debut), "dateFin" := Date(debut + 2)];
      && Get(body, "dateDebut") == Some(Date(debut)) && Get(body, "dateFin") == Some(Date(debut + 2))
      && "nombrePersonnes" !in body
      && Storable(RowOf(body))
  {
  }

  /**
   * When the body gives all eight columns and no `idReservation` of its own, the
   * record `getById` reads back from the new row agrees with the record create
   * answered on the id and the six other columns; its two dates come back as
   * `Date` objects (see `ReadDate`).
   */
  lemma {:induction false} CreateReadRoundTrip(insertId: int, body: Object)
    requires forall k :: k in ColumnNames ==> k in body
    requires "idReservation" !in body
    ensures var echoed := FromObject(Echoed(insertId, body));
      Stored(insertId, RowOf(body))
        == echoed.(dateDebut := Some(ReadDate(body["dateDebut"])), dateFin := Some(ReadDate(body["dateFin"])))
  {
    var o := Echoed(insertId, body);
    assert ColumnNames[0] in body && ColumnNames[1] in body && ColumnNames[2] in body && ColumnNames[3] in body;
    assert ColumnNames[4] in body && ColumnNames[5] in body && ColumnNames[6] in body && ColumnNames[7] in body;
    assert Get(o, "idReservation") == Some(Num(insertId));
  }

  /** Reading the dates back as `Date` objects leaves the price unchanged. */
  lemma {:induction false} ReadDatesKeepPrice(r: Reservation, debut: Value, fin: Value)
    requires r.dateDebut == Some(debut) && r.dateFin == Some(fin)
    ensures TotalPrix(r.(dateDebut := Some(ReadDate(debut)), dateFin := Some(ReadDate(fin)))) == TotalPrix(r)
  {
    var read := r.(dateDebut := Some(ReadDate(debut)), dateFin := Some(ReadDate(fin)));
    assert Nights(read) == Nights(r);
    assert ToNumber(read.nombrePersonnes) == ToNumber(r.nombrePersonnes);
    assert read.typeChambre == r.typeChambre;
    if TotalPrix(r).Some? {
      assert TotalPrix(read).value == TotalPrix(r).value;
    }
  }

  /** For such a body, `getById` recomputes the price create answered. */
  lemma {:induction false} CreateReadSamePrice(insertId: int, body: Object)
    requires forall k :: k in ColumnNames ==> k in body
    requires "idReservation" !in body
    ensures TotalPrix(Stored(insertId, RowOf(body))) == TotalPrix(FromObject(Echoed(insertId, body)))
  {
    CreateReadRoundTrip(insertId, body);
    var echoed := FromObject(Echoed(insertId, body));
    assert "dateDebut" in ColumnNames && "dateFin" in ColumnNames;
    assert echoed.dateDebut == Get(Echoed(insertId, body), "dateDebut") == Some(body["dateDebut"]);
    assert echoed.dateFin == Get(Echoed(insertId, body), "dateFin") == Some(body["dateFin"]);
    ReadDatesKeepPrice(echoed, body["dateDebut"], body["dateFin"]);
  }

  /** A handler's answer. */
  datatype Reply =
    | Listed(requestedBy: Option<string>, roles: Option<seq<string>>, reservations: seq<Object>)
    | Found(reservation: Reservation, totalPrix: Price)
    | Created(message: string, createdBy: Option<string>, reservation: Reservation, totalPrix: Price)
    | Done(message: string, actedBy: Option<string>)
    | Refused(code: int, message: string)
    | StoreError
  {
    /** The HTTP status code sent with the answer. */
    function Status(): int
    {
      match this
      case Created(_, _, _, _) => 201
      case Refused(code, _) => code
      case StoreError => 500
      case _ => 200
    }
  }

  /** The `reservations` table: its rows by `idReservation` and the AUTO_INCREMENT counter. */
  class ReservationsTable {
    var rows: map<int, Row>
    var nextId: int

    /**
     * Every key is positive and below the counter, so the counter is always a
     * fresh id, and every row has its NOT NULL columns filled.
     */
    ghost predicate Valid()
      reads this
    {
      && 1 <= nextId
      && (forall k :: k in rows ==> 1 <= k < nextId)
      && (forall k :: k in rows ==> Storable(rows[k]))
    }

    constructor ()
      ensures Valid() && rows == map[] && nextId == 1
    {
      rows := map[];
      nextId := 1;
    }

    /** `getAll`: every row as stored, with the caller's e-mail and roles, and no price. */
    method GetAll(user: Auth.Payload, storeError: bool) returns (reply: Reply)
      requires Valid()
      ensures storeError ==> reply == StoreError
      ensures !storeError ==> reply == Listed(user.email, user.roles, Listing(rows))
    {
      if storeError {
        return StoreError;
      }
      reply := Listed(user.email, user.roles, Listing(rows));
    }

    /** `getById`: 404 for an unknown id, else the stored row as a record with its price recomputed. */
    method GetById(id: int, storeError: bool) returns (reply: Reply)
      requires Valid()
      ensures reply.Status() == (if storeError then 500 else if id !in rows then 404 else 200)
      ensures storeError ==> reply == StoreError
      ensures !storeError && id !in rows ==> reply == Refused(404, "Reservation not found")
      ensures !storeError && id in rows ==>
        && reply.Found?
        && reply.reservation == Stored(id, rows[id])
        && reply.totalPrix == TotalPrix(reply.reservation)
    {
      if storeError {
        return StoreError;
      }
      if id !in rows {
        return Refused(404, "Reservation not found");
      }
      var reservation := FromObject(RowObject(id, rows[id]));
      reply := Found(reservation, TotalPrix(reservation));
    }

    /**
     * `create`: an invalid body is answered 400 and nothing is written; a body
     * missing a NOT NULL column fails the INSERT with 500; otherwise one new row
     * with a fresh id holds the body's eight properties and the answer is 201 with
     * the echoed record and its price.
     */
    method Create(user: Auth.Payload, body: Object, storeError: bool) returns (reply: Reply)
      requires Valid()
      modifies this
      ensures Valid()
      ensures !VerifierConditions(body) ==> reply == Refused(400, "Reservation invalide")
      ensures !VerifierConditions(body) || storeError || !Storable(RowOf(body))
        ==> rows == old(rows) && nextId == old(nextId)
      ensures VerifierConditions(body) && (storeError || !Storable(RowOf(body))) ==> reply == StoreError
      ensures VerifierConditions(body) && !storeError && Storable(RowOf(body)) ==>
        && old(nextId) !in old(rows)
        && rows == old(rows)[old(nextId) := RowOf(body)]
        && nextId == old(nextId) + 1
        && reply.Status() == 201
        && reply == Created("Reservation created", user.email, FromObject(Echoed(old(nextId), body)),
                            TotalPrix(FromObject(Echoed(old(nextId), body))))
    {
      if !VerifierConditions(body) {
        return Refused(400, "Reservation invalide");
      }
      if storeError || !Storable(RowOf(body)) {
        return StoreError;
      }
      var insertId := nextId;
      rows := rows[insertId := RowOf(body)];
      nextId := nextId + 1;
      var reservation := FromObject(Echoed(insertId, body));
      reply := Created("Reservation created", user.email, reservation, TotalPrix(reservation));
    }

    /**
     * `update`: all eight columns of the row with the given id are overwritten from
     * the body (missing properties become NULL), with no validity check; writing
     * NULL into a NOT NULL column of a matched row fails with 500; the answer is
     * success whether or not a row matched.
     */
    method Update(user: Auth.Payload, id: int, body: Object, storeError: bool) returns (reply: Reply)
      requires Valid()
      modifies this`rows
      ensures Valid()
      ensures storeError || (id in old(rows) && !Storable(RowOf(body)))
        ==> reply == StoreError && rows == old(rows)
      ensures !storeError && (id !in old(rows) || Storable(RowOf(body))) ==>
        && reply == Done("Reservation updated", user.email)
        && rows == Overwritten(old(rows), id, RowOf(body))
    {
      if storeError || (id in rows && !Storable(RowOf(body))) {
        return StoreError;
      }
      rows := Overwritten(rows, id, RowOf(body));
      reply := Done("Reservation updated", user.email);
    }

    /** `delete`: the row with the given id, if any, is removed; success either way. */
    method Delete(user: Auth.Payload, id: int, storeError: bool) returns (reply: Reply)
      requires Valid()
      modifies this`rows
      ensures Valid()
      ensures storeError ==> reply == StoreError && rows == old(rows)
      ensures !storeError ==>
        && reply == Done("Reservation deleted", user.email)
        && rows == Removed(old(rows), id)
    {
      if storeError {
        return StoreError;
      }
      rows := Removed(rows, id);
      reply := Done("Reservation deleted", user.email);
    }

    /** `annuler`: the status of the row with the given id, if any, becomes "annulée"; success either way. */
    method Annuler(user: Auth.Payload, id: int, storeError: bool) returns (reply: Reply)
      requires Valid()
      modifies this`rows
      ensures Valid()
      ensures storeError ==> reply == StoreError && rows == old(rows)
      ensures !storeError ==>
        && reply == Done("Reservation annulée", user.email)
        && rows == Cancelled(old(rows), id)
    {
      if storeError {
        return StoreError;
      }
      rows := Cancelled(rows, id);
      reply := Done("Reservation annulée", user.email);
    }
  }

  /** Cancelling twice through the handler: both answers are the same success, and the table is as after one. */
  method CancelTwice(table: ReservationsTable, user: Auth.Payload, id: int) returns (first: Reply, second: Reply)
    requires table.Valid()
    modifies table
    ensures table.Valid()
    ensures first == second == Done("Reservation annulée", user.email)
    ensures table.rows == Cancelled(old(table.rows), id)
  {
    first := table.Annuler(user, id, false);
    second := table.Annuler(user, id, false);
    CancelIdempotent(old(table.rows), id);
  }
}
