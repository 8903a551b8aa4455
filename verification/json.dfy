/** JSON values (RFC 8259) as the JavaScript code sees them after `JSON.parse`,
    and the property reads (`a.b[0].c`) it performs on them. Parsing and
    serialising stay abstract: they are passed in as functions wherever the
    source calls `JSON.parse` or `JSON.stringify`. */
module Json {
  import opened Wrappers

  /** A JSON value. Objects are maps: when a text repeats a key, the parser
      decides which value is kept. Numbers are exact reals; nothing in the
      model does floating-point arithmetic on them. */
  datatype Json =
    | JNull
    | JBool(b: bool)
    | JNumber(n: real)
    | JString(s: string)
    | JArray(items: seq<Json>)
    | JObject(fields: map<string, Json>)

  /** JavaScript truthiness of a parsed value (`if (v)`, `v || d`). */
  predicate Truthy(j: Json) {
    match j
    case JNull => false
    case JBool(b) => b
    case JNumber(n) => n != 0.0
    case JString(s) => s != ""
    case _ => true
  }

  /** A JavaScript value as far as property reads see it: `undefined` or a
      JSON value. */
  datatype JsValue = Undefined | Defined(json: Json)

  /** One step of a property path: `.name` or `[i]`. */
  datatype Key = Field(name: string) | Index(i: nat)

  /** The decimal spelling of a natural number, as used for the property name
      `o[3]` reads on a plain object. */
  function Decimal(n: nat): string
    decreases n
  {
    if n < 10 then ["0123456789"[n]] else Decimal(n / 10) + ["0123456789"[n % 10]]
  }

  /** Reads one property. Reading any property of `undefined` or `null` is a
      TypeError, reported as the key that could not be read; a property that
      is simply absent reads as `undefined`. */
  function Get(v: JsValue, k: Key): (r: Result<JsValue, Key>)
    ensures r.Failure? <==> v == Undefined || v == Defined(JNull)
    ensures r.Failure? ==> r.error == k
  {
    match v
    case Undefined => Failure(k)
    case Defined(j) =>
      match j
      case JNull => Failure(k)
      case JObject(fields) =>
        var name := if k.Field? then k.name else Decimal(k.i);
        Success(if name in fields then Defined(fields[name]) else Undefined)
      case JArray(items) =>
        if k.Index? then Success(if k.i < |items| then Defined(items[k.i]) else Undefined)
        else if k.name == "length" then Success(Defined(JNumber(|items| as real)))
        else Success(Undefined)
      case JString(s) =>
        if k.Index? then Success(if k.i < |s| then Defined(JString([s[k.i]])) else Undefined)
        else if k.name == "length" then Success(Defined(JNumber(|s| as real)))
        else Success(Undefined)
      case _ => Success(Undefined)
  }

  /** Reads a whole property path left to right, stopping at the first
      TypeError. */
  function Follow(v: JsValue, path: seq<Key>): Result<JsValue, Key>
    decreases |path|
  {
    if |path| == 0 then Success(v)
    else
      var next :- Get(v, path[0]);
      Follow(next, path[1..])
  }

  /** Reading `p + q` is reading `p` and then reading `q` from what it gave. */
  lemma {:induction false} FollowAppend(v: JsValue, p: seq<Key>, q: seq<Key>)
    ensures Follow(v, p + q) ==
      (match Follow(v, p)
       case Success(w) => Follow(w, q)
       case Failure(k) => Failure(k))
    decreases |p|
  {
    if |p| > 0 {
      assert (p + q)[0] == p[0];
      assert (p + q)[1..] == p[1..] + q;
      match Get(v, p[0])
      case Success(w) => FollowAppend(w, p[1..], q);
      case Failure(_) =>
    } else {
      assert p + q == q;
    }
  }
}
