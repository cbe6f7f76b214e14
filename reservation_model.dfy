/**
 * The `Reservation` record of the service (models/reservationModel.js) and the
 * plain JavaScript objects it is built from.
 *
 * A JSON scalar is a `Value`; an object is a map from key to `Value`, and a key
 * that is absent reads as `undefined`, modelled as `None`.
 */
module ReservationModel {
  import opened Wrappers

  /**
   * A scalar property value: `null`, an integer, the text of a calendar date
   * (`"2024-05-01"`) kept as its day number counted from 1970-01-01, a `Date`
   * object at midnight of a day (what the database driver returns for a DATE
   * column, written to JSON as an ISO timestamp), or any other text.
   */
  datatype Value = Null | Num(n: int) | Date(day: int) | Timestamp(day: int) | Str(s: string)

  /** A plain JavaScript object such as a request body or a row returned by a query. */
  type Object = map<string, Value>

  /** Reading a property: an absent key gives `undefined`. */
  function Get(o: Object, key: string): Option<Value>
  {
    if key in o then Some(o[key]) else None
  }

  /** The nine properties the constructor destructures, in declaration order. */
  const FieldNames: seq<string> := ["idReservation", "client_id", "chambre_id", "dateDebut",
    "dateFin", "statut", "nombrePersonnes", "typeChambre", "photoActeMariage"]

  /** An instance of the `Reservation` class: nine properties, each possibly `undefined`. */
  datatype Reservation = Reservation(
    idReservation: Option<Value>,
    client_id: Option<Value>,
    chambre_id: Option<Value>,
    dateDebut: Option<Value>,
    dateFin: Option<Value>,
    statut: Option<Value>,
    nombrePersonnes: Option<Value>,
    typeChambre: Option<Value>,
    photoActeMariage: Option<Value>)

  /** Property access on a record by name; `undefined` for any other name. */
  function Field(r: Reservation, key: string): Option<Value>
  {
    if key == "idReservation" then r.idReservation
    else if key == "client_id" then r.client_id
    else if key == "chambre_id" then r.chambre_id
    else if key == "dateDebut" then r.dateDebut
    else if key == "dateFin" then r.dateFin
    else if key == "statut" then r.statut
    else if key == "nombrePersonnes" then r.nombrePersonnes
    else if key == "typeChambre" then r.typeChambre
    else if key == "photoActeMariage" then r.photoActeMariage
    else None
  }

  /**
   * `new Reservation(o)`: every named property is copied from the argument as it
   * is (no check, no conversion); a missing one stays `undefined`.
   */
  function FromObject(o: Object): (r: Reservation)
    ensures forall k :: k in FieldNames ==> Field(r, k) == Get(o, k)
  {
    Reservation(
      Get(o, "idReservation"), Get(o, "client_id"), Get(o, "chambre_id"),
      Get(o, "dateDebut"), Get(o, "dateFin"), Get(o, "statut"),
      Get(o, "nombrePersonnes"), Get(o, "typeChambre"), Get(o, "photoActeMariage"))
  }

  /** The record as a plain object (what JSON serialisation sees): only defined properties. */
  function ToObject(r: Reservation): (o: Object)
    ensures forall k :: k in o ==> k in FieldNames
  {
    map k | k in FieldNames && Field(r, k).Some? :: Field(r, k).value
  }

  /** The argument restricted to the nine named keys. */
  function Named(o: Object): (p: Object)
    ensures p.Keys <= o.Keys
  {
    map k | k in o && k in FieldNames :: o[k]
  }

  /** Two records that agree on the nine named properties are the same record. */
  lemma {:induction false} FieldsDetermineRecord(r: Reservation, s: Reservation)
    requires forall k :: k in FieldNames ==> Field(r, k) == Field(s, k)
    ensures r == s
  {
    FirstFieldsAgree(r, s);
    LastFieldsAgree(r, s);
  }

  /** The first five named properties of two such records agree. */
  lemma FirstFieldsAgree(r: Reservation, s: Reservation)
    requires forall k :: k in FieldNames ==> Field(r, k) == Field(s, k)
    ensures r.idReservation == s.idReservation && r.client_id == s.client_id
    ensures r.chambre_id == s.chambre_id && r.dateDebut == s.dateDebut && r.dateFin == s.dateFin
  {
    assert Field(r, FieldNames[0]) == Field(s, FieldNames[0]);
    assert Field(r, FieldNames[1]) == Field(s, FieldNames[1]);
    assert Field(r, FieldNames[2]) == Field(s, FieldNames[2]);
    assert Field(r, FieldNames[3]) == Field(s, FieldNames[3]);
    assert Field(r, FieldNames[4]) == Field(s, FieldNames[4]);
  }

  /** The last four named properties of two such records agree. */
  lemma LastFieldsAgree(r: Reservation, s: Reservation)
    requires forall k :: k in FieldNames ==> Field(r, k) == Field(s, k)
    ensures r.statut == s.statut && r.nombrePersonnes == s.nombrePersonnes
    ensures r.typeChambre == s.typeChambre && r.photoActeMariage == s.photoActeMariage
  {
    assert Field(r, FieldNames[5]) == Field(s, FieldNames[5]);
    assert Field(r, FieldNames[6]) == Field(s, FieldNames[6]);
    assert Field(r, FieldNames[7]) == Field(s, FieldNames[7]);
    assert Field(r, FieldNames[8]) == Field(s, FieldNames[8]);
  }

  /** Serialising a record and constructing from the result gives the record back. */
  lemma {:induction false} RecordRoundTrip(r: Reservation)
    ensures FromObject(ToObject(r)) == r
  {
    var o := ToObject(r);
    forall k | k in FieldNames
      ensures Field(FromObject(o), k) == Field(r, k)
    {
      assert Field(FromObject(o), k) == Get(o, k);
    }
    FieldsDetermineRecord(FromObject(o), r);
  }

  /** Constructing and serialising keeps exactly the named keys of the argument. */
  lemma {:induction false} ConstructorDropsOtherKeys(o: Object)
    ensures ToObject(FromObject(o)) == Named(o)
  {
    var p, q := ToObject(FromObject(o)), Named(o);
    forall k | k in FieldNames
      ensures (k in p <==> k in q) && (k in p ==> p[k] == q[k])
    {
      NamedKey(o, k);
    }
    assert p.Keys == q.Keys;
  }

  /** One named key of the argument survives constructing and serialising, unchanged. */
  lemma NamedKey(o: Object, k: string)
    requires k in FieldNames
    ensures k in ToObject(FromObject(o)) <==> k in Named(o)
    ensures k in o ==> ToObject(FromObject(o))[k] == Named(o)[k]
  {
    assert Field(FromObject(o), k) == Get(o, k);
  }

  /** Adding or changing a key that is not one of the nine has no effect on the record. */
  lemma {:induction false} OtherKeysIgnored(o: Object, k: string, v: Value)
    requires k !in FieldNames
    ensures FromObject(o[k := v]) == FromObject(o)
  {
    var r, s := FromObject(o[k := v]), FromObject(o);
    forall j | j in FieldNames
      ensures Field(r, j) == Field(s, j)
    {
      assert Get(o[k := v], j) == Get(o, j);
    }
    FieldsDetermineRecord(r, s);
  }

  /** A named key missing from the argument is `undefined` in the record. */
  lemma MissingFieldUndefined(o: Object, k: string)
    requires k in FieldNames && k !in o
    ensures Field(FromObject(o), k) == None
  {
  }
}
