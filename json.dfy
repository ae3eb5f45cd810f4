/** The values `JSON.parse` produces and the JavaScript operations the
    services apply to them: property access, truthiness, `x || d` and the
    conversion to text of a template literal. Finite numbers are integers
    here; NaN and the infinities, which `JSON.parse` never produces but
    arithmetic on parsed values can, are values of their own. */
module Json {
  import opened Wrappers
  import opened Text

  datatype Json =
    | JNull
    | JBool(b: bool)
    | JNumber(n: int)
    | JString(s: string)
    | JArray(items: seq<Json>)
    | JObject(fields: seq<(string, Json)>)
    | JNaN
    | JInfinity(negative: bool)

  /** What `JSON.parse` did with a text: a value, or the message of its SyntaxError. */
  datatype ParseOutcome = Parsed(value: Json) | Failed(message: string)

  predicate HasKey(fields: seq<(string, Json)>, key: string) {
    exists i :: 0 <= i < |fields| && fields[i].0 == key
  }

  /** `v[key]` on a parsed value: objects answer with their last binding for
      the key (the one `JSON.parse` keeps), everything else with `undefined`. */
  function Get(v: Json, key: string): Option<Json> {
    if v.JObject? then Lookup(v.fields, key) else None
  }

  function Lookup(fields: seq<(string, Json)>, key: string): Option<Json> {
    if fields == [] then None
    else if fields[|fields| - 1].0 == key then Some(fields[|fields| - 1].1)
    else Lookup(fields[..|fields| - 1], key)
  }

  /** A key is found exactly when some field binds it, and what is found is
      bound to it. */
  lemma {:induction false} LookupMeans(fields: seq<(string, Json)>, key: string)
    ensures Lookup(fields, key).Some? <==> HasKey(fields, key)
    ensures Lookup(fields, key).Some? ==> exists i :: 0 <= i < |fields| && fields[i] == (key, Lookup(fields, key).value)
  {
    if fields != [] && fields[|fields| - 1].0 != key {
      var init := fields[..|fields| - 1];
      LookupMeans(init, key);
      if HasKey(fields, key) {
        var i :| 0 <= i < |fields| && fields[i].0 == key;
        assert init[i].0 == key;
      }
      if Lookup(init, key).Some? {
        var i :| 0 <= i < |init| && init[i] == (key, Lookup(init, key).value);
        assert fields[i] == init[i];
      }
    }
  }

  lemma GetMeans(v: Json, key: string)
    ensures Get(v, key).Some? <==> v.JObject? && HasKey(v.fields, key)
  {
    if v.JObject? {
      LookupMeans(v.fields, key);
    }
  }

  /** JavaScript truthiness; `None` stands for `undefined`. */
  predicate Truthy(v: Option<Json>) {
    match v
    case None => false
    case Some(JNull) => false
    case Some(JBool(b)) => b
    case Some(JNumber(n)) => n != 0
    case Some(JNaN) => false
    case Some(JString(s)) => s != []
    case Some(_) => true
  }

  /** `v || d`: the value itself when truthy, the default otherwise. */
  function Or(v: Option<Json>, d: Json): (r: Json)
    ensures Truthy(v) ==> Some(r) == v
    ensures !Truthy(v) ==> r == d
  {
    if Truthy(v) then v.value else d
  }

  /** The text a template literal or `String(v)` gives for a value. */
  function JsString(v: Json): string
    decreases v, 1
  {
    match v
    case JNull => "null"
    case JBool(b) => if b then "true" else "false"
    case JNumber(n) => IntToString(n)
    case JString(s) => s
    case JArray(items) => JoinItems(items)
    case JObject(_) => "[object Object]"
    case JNaN => "NaN"
    case JInfinity(negative) => if negative then "-Infinity" else "Infinity"
  }

  /** `Array.prototype.join(",")`: `null` elements render as the empty text. */
  function JoinItems(items: seq<Json>): string
    decreases items, 0
  {
    if items == [] then []
    else
      var first := if items[0].JNull? then [] else JsString(items[0]);
      if |items| == 1 then first else first + "," + JoinItems(items[1..])
  }

  /** `Array.isArray(v)`. */
  predicate IsArray(v: Option<Json>) {
    v.Some? && v.value.JArray?
  }

  /** `typeof v === 'string'`. */
  predicate IsString(v: Option<Json>) {
    v.Some? && v.value.JString?
  }

  /** The value holds no NaN and no infinity. */
  predicate AllFinite(v: Json)
    decreases v
  {
    match v
    case JNaN => false
    case JInfinity(_) => false
    case JArray(items) => forall i :: 0 <= i < |items| ==> AllFinite(items[i])
    case JObject(fields) => forall i :: 0 <= i < |fields| ==> AllFinite(fields[i].1)
    case _ => true
  }

  /** What a `jsonb` column gives back for a value: `JSON.stringify` writes
      NaN and the infinities as `null`, and leaves everything else as it is. */
  function Stored(v: Json): (r: Json)
    decreases v
    ensures AllFinite(r)
    ensures AllFinite(v) ==> r == v
    ensures v.JNaN? || v.JInfinity? ==> r == JNull
  {
    match v
    case JNaN => JNull
    case JInfinity(_) => JNull
    case JArray(items) =>
      var stored := seq(|items|, i requires 0 <= i < |items| => Stored(items[i]));
      assert AllFinite(v) ==> stored == items;
      JArray(stored)
    case JObject(fields) =>
      var stored := seq(|fields|, i requires 0 <= i < |fields| => (fields[i].0, Stored(fields[i].1)));
      assert AllFinite(v) ==> stored == fields;
      JObject(stored)
    case _ => v
  }
}
