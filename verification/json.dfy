/**
 * The JSON documents that `model_dump()` produces and that the HTTP layer
 * sends as a request body.  An object is a map from keys to values: JSON
 * objects are unordered, so the field order of a dump is not modelled.
 * Floating-point numbers are kept as their literal text.
 */
module Json {
  import opened Wrappers

  datatype Json =
    | JNull
    | JBool(b: bool)
    | JInt(i: int)
    | JNumber(literal: string)
    | JStr(s: string)
    | JArray(items: seq<Json>)
    | JObject(fields: map<string, Json>)

  /** The value stored under `key` in an object, if there is one. */
  function Get(j: Json, key: string): (r: Option<Json>)
    ensures r.Some? <==> j.JObject? && key in j.fields
    ensures r.Some? ==> r.value == j.fields[key]
  {
    if j.JObject? && key in j.fields then Some(j.fields[key]) else None
  }

  // ---------------------------------------------------------------------
  // Encoders for the scalar and optional shapes that pydantic dumps.
  // ---------------------------------------------------------------------

  /** `None` is dumped as JSON null. */
  function OptStr(o: Option<string>): Json {
    match o
    case None => JNull
    case Some(s) => JStr(s)
  }

  function OptObj<T>(o: Option<T>, enc: T -> Json): Json {
    match o
    case None => JNull
    case Some(x) => enc(x)
  }

  function Items<T>(xs: seq<T>, enc: T -> Json): (r: seq<Json>)
    ensures |r| == |xs|
  {
    if xs == [] then [] else [enc(xs[0])] + Items(xs[1..], enc)
  }

  function List<T>(xs: seq<T>, enc: T -> Json): Json {
    JArray(Items(xs, enc))
  }

  // ---------------------------------------------------------------------
  // Decoders: the outer Option fails when the document has the wrong shape.
  // ---------------------------------------------------------------------

  function AsStr(j: Json): Option<string> {
    if j.JStr? then Some(j.s) else None
  }

  function AsBool(j: Json): Option<bool> {
    if j.JBool? then Some(j.b) else None
  }

  function AsInt(j: Json): Option<int> {
    if j.JInt? then Some(j.i) else None
  }

  function AsNumber(j: Json): Option<string> {
    if j.JNumber? then Some(j.literal) else None
  }

  function AsOptStr(j: Json): Option<Option<string>> {
    match j
    case JNull => Some(None)
    case JStr(s) => Some(Some(s))
    case _ => None
  }

  function AsOpt<T>(j: Json, dec: Json -> Option<T>): Option<Option<T>> {
    if j.JNull? then Some(None)
    else
      var x :- dec(j);
      Some(Some(x))
  }

  function AsItems<T>(js: seq<Json>, dec: Json -> Option<T>): Option<seq<T>> {
    if js == [] then Some([])
    else
      var x :- dec(js[0]);
      var rest :- AsItems(js[1..], dec);
      Some([x] + rest)
  }

  function AsList<T>(j: Json, dec: Json -> Option<T>): Option<seq<T>> {
    if j.JArray? then AsItems(j.items, dec) else None
  }

  function GetStr(j: Json, key: string): Option<string> {
    var v :- Get(j, key);
    AsStr(v)
  }

  function GetOptStr(j: Json, key: string): Option<Option<string>> {
    var v :- Get(j, key);
    AsOptStr(v)
  }

  function GetBool(j: Json, key: string): Option<bool> {
    var v :- Get(j, key);
    AsBool(v)
  }

  function GetInt(j: Json, key: string): Option<int> {
    var v :- Get(j, key);
    AsInt(v)
  }

  function GetNumber(j: Json, key: string): Option<string> {
    var v :- Get(j, key);
    AsNumber(v)
  }

  function GetObj<T>(j: Json, key: string, dec: Json -> Option<T>): Option<T> {
    var v :- Get(j, key);
    dec(v)
  }

  function GetOpt<T>(j: Json, key: string, dec: Json -> Option<T>): Option<Option<T>> {
    var v :- Get(j, key);
    AsOpt(v, dec)
  }

  function GetList<T>(j: Json, key: string, dec: Json -> Option<T>): Option<seq<T>> {
    var v :- Get(j, key);
    AsList(v, dec)
  }

  // ---------------------------------------------------------------------
  // Round trips of the generic shapes, given a round trip of the elements.
  // ---------------------------------------------------------------------

  lemma {:induction false} ItemsRoundTrip<T>(xs: seq<T>, enc: T -> Json, dec: Json -> Option<T>)
    requires forall i :: 0 <= i < |xs| ==> dec(enc(xs[i])) == Some(xs[i])
    ensures AsItems(Items(xs, enc), dec) == Some(xs)
  {
    if xs != [] {
      assert dec(enc(xs[0])) == Some(xs[0]);
      forall i | 0 <= i < |xs[1..]| ensures dec(enc(xs[1..][i])) == Some(xs[1..][i]) {
        assert xs[1..][i] == xs[i + 1];
      }
      ItemsRoundTrip(xs[1..], enc, dec);
      assert [xs[0]] + xs[1..] == xs;
    }
  }

  lemma ListRoundTrip<T>(xs: seq<T>, enc: T -> Json, dec: Json -> Option<T>)
    requires forall i :: 0 <= i < |xs| ==> dec(enc(xs[i])) == Some(xs[i])
    ensures AsList(List(xs, enc), dec) == Some(xs)
  {
    ItemsRoundTrip(xs, enc, dec);
  }

  lemma OptRoundTrip<T>(o: Option<T>, enc: T -> Json, dec: Json -> Option<T>)
    requires o.Some? ==> !enc(o.value).JNull? && dec(enc(o.value)) == Some(o.value)
    ensures AsOpt(OptObj(o, enc), dec) == Some(o)
  {
  }

  /** A field holding the dump of an optional string reads back as that option. */
  lemma GetOptStrOf(j: Json, key: string, o: Option<string>)
    requires Get(j, key) == Some(OptStr(o))
    ensures GetOptStr(j, key) == Some(o)
  {
  }

  /** A field holding an encoding its decoder inverts reads back as the value. */
  lemma GetObjOf<T>(j: Json, key: string, v: Json, dec: Json -> Option<T>, x: T)
    requires Get(j, key) == Some(v) && dec(v) == Some(x)
    ensures GetObj(j, key, dec) == Some(x)
  {
  }

  lemma GetStrOf(j: Json, key: string, x: string)
    requires Get(j, key) == Some(JStr(x))
    ensures GetStr(j, key) == Some(x)
  {
  }

  lemma GetBoolOf(j: Json, key: string, x: bool)
    requires Get(j, key) == Some(JBool(x))
    ensures GetBool(j, key) == Some(x)
  {
  }

  lemma GetOptOf<T>(j: Json, key: string, o: Option<T>, enc: T -> Json, dec: Json -> Option<T>)
    requires Get(j, key) == Some(OptObj(o, enc))
    requires o.Some? ==> !enc(o.value).JNull? && dec(enc(o.value)) == Some(o.value)
    ensures GetOpt(j, key, dec) == Some(o)
  {
    OptRoundTrip(o, enc, dec);
  }
}
