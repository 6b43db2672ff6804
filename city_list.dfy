/**
 * Normalisation of the configured `cities` value into an ordered list of
 * city entries (src/fetch_weather.ts, lines 27-49). The configuration may
 * hold an array, an object wrapping the list under `city`, a single
 * xml2js-style object marked by a `$` property, or an object whose
 * property values are the cities.
 */
module CityList {
  import opened Options
  import opened JsValue

  /** Lines 30-32: a truthy value with a truthy `city` property is replaced by that property, once. */
  function Unwrap(raw: Value): Value {
    if Truthy(raw) && Truthy(Get(raw, "city")) then Get(raw, "city") else raw
  }

  /** The entries an array or object holds: its items, or its property values. */
  function Members(v: Value): seq<Value> {
    match v
    case Arr(items) => items
    case Obj(props) => ObjectValues(props)
    case _ => []
  }

  /**
   * Lines 34-48 applied to the (possibly unwrapped) value: an array is kept,
   * an object marked by a truthy `$` is wrapped, any other object gives its
   * property values, and anything else is rejected with None.
   */
  function Shape(c: Value): Option<seq<Value>> {
    if c.Arr? then Some(c.items)
    else if Truthy(c) && TypeofObject(c) then
      if Truthy(Get(c, "$")) then Some([c]) else Some(ObjectValues(c.props))
    else None
  }

  /**
   * The list the loop iterates over, or None when the script logs
   * "Cities config is not valid" and returns an empty result early.
   */
  function Normalize(raw: Value): (cities: Option<seq<Value>>)
    ensures cities.None? <==> !Unwrap(raw).Arr? && !Unwrap(raw).Obj?
    ensures cities.Some? ==>
      forall c | c in cities.value :: c == Unwrap(raw) || c in Members(Unwrap(raw))
  {
    Shape(Unwrap(raw))
  }

  /** An array, whether given directly or under a truthy `city` property, is used unchanged. */
  lemma ArrayUsedUnchanged(raw: Value)
    ensures raw.Arr? ==> Normalize(raw) == Some(raw.items)
    ensures raw.Obj? && Get(raw, "city").Arr? ==> Normalize(raw) == Some(Get(raw, "city").items)
  {
  }

  /**
   * A truthy `city` property replaces the value before any shape check,
   * so the outer value's own shape and `$` marker play no part, and the
   * inner value is not unwrapped a second time.
   */
  lemma CityUnwrappedFirst(raw: Value)
    requires Truthy(raw) && Truthy(Get(raw, "city"))
    ensures Normalize(raw) == Shape(Get(raw, "city"))
  {
  }

  /** An object carrying a truthy `$` marker is one city. */
  lemma MarkedObjectIsOneCity(raw: Value)
    requires Unwrap(raw).Obj? && Truthy(Get(Unwrap(raw), "$"))
    ensures Normalize(raw) == Some([Unwrap(raw)])
  {
  }

  /** Any other object contributes its property values, in enumeration order, one city per property. */
  lemma UnmarkedObjectGivesValues(raw: Value)
    requires Unwrap(raw).Obj? && !Truthy(Get(Unwrap(raw), "$"))
    ensures Normalize(raw).Some?
    ensures var props := Unwrap(raw).props;
      |Normalize(raw).value| == |props| &&
      forall i | 0 <= i < |props| :: Normalize(raw).value[i] == props[i].1
  {
  }

  /** `null`, `undefined` and primitives (a number, say) are rejected, so no city is processed. */
  lemma NonObjectRejected(raw: Value)
    requires !Unwrap(raw).Arr? && !Unwrap(raw).Obj?
    ensures Normalize(raw) == None
  {
  }

  /** The normalised list is a fixed point: given back as an array, it normalises to itself. */
  lemma NormalizeCanonical(raw: Value)
    requires Normalize(raw).Some?
    ensures Normalize(Arr(Normalize(raw).value)) == Normalize(raw)
  {
  }

  /**
   * A single city under `city` that has no `$` marker is not wrapped: its
   * property values become three separate entries.
   */
  lemma SingleCityWithoutMarker(lat: Number, lon: Number)
    ensures var city := Obj([("name", Str("A")), ("latitude", Num(lat)), ("longitude", Num(lon))]);
      Normalize(Obj([("city", city)])) == Some([Str("A"), Num(lat), Num(lon)])
  {
    var props := [("name", Str("A")), ("latitude", Num(lat)), ("longitude", Num(lon))];
    var raw := Obj([("city", Obj(props))]);
    assert Unwrap(raw) == Obj(props);
    assert forall p | p in props :: p.0 != "$";
    assert Get(Obj(props), "$") == Undefined;
    assert ObjectValues(props) == [Str("A"), Num(lat), Num(lon)];
  }

  /** The same single city carrying a truthy xml2js `$` marker is one entry. */
  lemma SingleCityWithMarker(attrs: Value, lat: Number, lon: Number)
    requires Truthy(attrs)
    ensures var city := Obj([("$", attrs), ("name", Str("A")), ("latitude", Num(lat)), ("longitude", Num(lon))]);
      Normalize(Obj([("city", city)])) == Some([city])
  {
  }
}
