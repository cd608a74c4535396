/**
 * Storage of event payloads (apps/api/src/events/event-store.ts): JSON has no dates, so a date is
 * stored as an object with the single key "$date" holding its ISO text. `iso` and `parse` stand
 * for Date.prototype.toISOString and the Date constructor, of which only the round trip of a
 * date's own ISO text is used.
 */
module EventCodec {

  datatype Value =
    | Scalar(code: int) // null, booleans and numbers: stored as they are
    | Text(text: string)
    | Date(ms: int)
    | Array(items: seq<Value>)
    | Object(fields: map<string, Value>)

  const DATE_KEY: string := "$date"

  function Encode(iso: int -> string, v: Value): Value {
    match v
    case Date(ms) => Object(map[DATE_KEY := Text(iso(ms))])
    case Array(items) => Array(seq(|items|, i requires 0 <= i < |items| => Encode(iso, items[i])))
    case Object(fields) => Object(map k | k in fields :: Encode(iso, fields[k]))
    case _ => v
  }

  /** The shape `decodeFromStorage` takes for a stored date: one key, "$date", with a text. */
  predicate LooksLikeDate(v: Value) {
    v.Object? && |v.fields| == 1 && DATE_KEY in v.fields && v.fields[DATE_KEY].Text?
  }

  function Decode(parse: string -> int, v: Value): Value {
    if LooksLikeDate(v) then Date(parse(v.fields[DATE_KEY].text))
    else match v
      case Array(items) => Array(seq(|items|, i requires 0 <= i < |items| => Decode(parse, items[i])))
      case Object(fields) => Object(map k | k in fields :: Decode(parse, fields[k]))
      case _ => v
  }

  /** No object anywhere inside is itself of the shape reserved for dates. */
  predicate Clean(v: Value) {
    && !LooksLikeDate(v)
    && match v
       case Array(items) => forall i :: 0 <= i < |items| ==> Clean(items[i])
       case Object(fields) => forall k :: k in fields ==> Clean(fields[k])
       case _ => true
  }

  /** Decoding what was stored gives the payload back exactly when the reserved shape does not occur in it. */
  lemma {:induction false} RoundTrip(iso: int -> string, parse: string -> int, v: Value)
    requires forall ms :: parse(iso(ms)) == ms
    ensures Decode(parse, Encode(iso, v)) == v <==> Clean(v)
  {
    match v
    case Date(ms) =>
      var stored := Encode(iso, v);
      assert stored.fields.Keys == {DATE_KEY};
      assert |stored.fields| == |stored.fields.Keys|;
    case Array(items) =>
      forall i | 0 <= i < |items|
        ensures Decode(parse, Encode(iso, items[i])) == items[i] <==> Clean(items[i])
      {
        RoundTrip(iso, parse, items[i]);
      }
      var back := Decode(parse, Encode(iso, v));
      if back == v {
        forall i | 0 <= i < |items|
          ensures Clean(items[i])
        {
          assert back.items[i] == Decode(parse, Encode(iso, items[i]));
        }
      }
    case Object(fields) =>
      ObjectRoundTrip(iso, parse, v);
    case _ =>
  }

  lemma {:induction false} ObjectRoundTrip(iso: int -> string, parse: string -> int, v: Value)
    requires v.Object? && forall ms :: parse(iso(ms)) == ms
    ensures Decode(parse, Encode(iso, v)) == v <==> Clean(v)
    decreases v, 0
  {
    var fields := v.fields;
    var stored := Encode(iso, v);
    assert stored.fields.Keys == fields.Keys;
    assert |stored.fields| == |stored.fields.Keys| && |fields| == |fields.Keys|;
    forall k | k in fields
      ensures Decode(parse, Encode(iso, fields[k])) == fields[k] <==> Clean(fields[k])
    {
      RoundTrip(iso, parse, fields[k]);
    }
    if LooksLikeDate(v) {
      assert Encode(iso, fields[DATE_KEY]).Text?;
    } else {
      assert !LooksLikeDate(stored);
      FieldsRoundTrip(iso, parse, v);
    }
  }

  /** An object that decodes as an object round-trips exactly when all its fields do. */
  lemma FieldsRoundTrip(iso: int -> string, parse: string -> int, v: Value)
    requires v.Object? && !LooksLikeDate(Encode(iso, v))
    ensures Decode(parse, Encode(iso, v)) == v <==>
              forall k :: k in v.fields ==> Decode(parse, Encode(iso, v.fields[k])) == v.fields[k]
  {
    DecodedFields(iso, parse, v);
    SameObject(Decode(parse, Encode(iso, v)), v);
  }

  lemma SameObject(v: Value, w: Value)
    requires v.Object? && w.Object? && v.fields.Keys == w.fields.Keys
    ensures v == w <==> forall k :: k in w.fields ==> v.fields[k] == w.fields[k]
  {
    if forall k :: k in w.fields ==> v.fields[k] == w.fields[k] {
      assert v.fields == w.fields;
    }
  }

  lemma DecodedFields(iso: int -> string, parse: string -> int, v: Value)
    requires v.Object? && !LooksLikeDate(Encode(iso, v))
    ensures var back := Decode(parse, Encode(iso, v));
            && back.Object? && back.fields.Keys == v.fields.Keys
            && forall k :: k in v.fields ==> back.fields[k] == Decode(parse, Encode(iso, v.fields[k]))
  {
    var stored := Encode(iso, v);
    assert stored.fields.Keys == v.fields.Keys;
    assert forall k :: k in v.fields ==> stored.fields[k] == Encode(iso, v.fields[k]);
  }

  /** The input the round trip loses: a payload object whose only key is "$date", with a text. */
  lemma ReservedShapeIsMisread(iso: int -> string, parse: string -> int, text: string)
    ensures var v := Object(map[DATE_KEY := Text(text)]);
            Decode(parse, Encode(iso, v)) == Date(parse(text)) != v
  {
    var v := Object(map[DATE_KEY := Text(text)]);
    var stored := Encode(iso, v);
    assert Encode(iso, v.fields[DATE_KEY]) == Text(text);
    assert stored.fields.Keys == v.fields.Keys;
    assert stored.fields == v.fields;
    assert v.fields.Keys == {DATE_KEY};
    assert |v.fields| == |v.fields.Keys|;
  }

  /** What JSON can hold: no date anywhere. */
  predicate IsJson(v: Value) {
    match v
    case Date(_) => false
    case Array(items) => forall i :: 0 <= i < |items| ==> IsJson(items[i])
    case Object(fields) => forall k :: k in fields ==> IsJson(fields[k])
    case _ => true
  }

  lemma {:induction false} EncodedIsJson(iso: int -> string, v: Value)
    ensures IsJson(Encode(iso, v))
  {
    match v
    case Array(items) =>
      forall i | 0 <= i < |items|
        ensures IsJson(Encode(iso, items[i]))
      {
        EncodedIsJson(iso, items[i]);
      }
    case Object(fields) =>
      forall k | k in fields
        ensures IsJson(Encode(iso, fields[k]))
      {
        EncodedIsJson(iso, fields[k]);
      }
    case _ =>
  }
}
