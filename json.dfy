/** Decoded JSON values as the request handlers see them, HTTP responses, and
    the few pieces of Python and JavaScript value semantics the handlers lean on
    (truthiness, member lookup, iteration, optional chaining). */
module Json {

  datatype Option<+T> = None | Some(value: T)

  /** A computation that either yields a value or raises with the exception's text. */
  datatype Result<+T> = Ok(value: T) | Err(error: string)

  /** A decoded JSON value. Numbers are integers; object members keep the
      order in which they were written, as Python dicts and JavaScript objects do. */
  datatype Json =
    | JNull
    | JBool(b: bool)
    | JNum(n: int)
    | JStr(s: string)
    | JArr(items: seq<Json>)
    | JObj(fields: seq<(string, Json)>)

  /** A request or provider body: either it did not decode (with the error
      text the framework raised), or it decoded to a value. */
  datatype Payload = Unreadable(reason: string) | Parsed(value: Json)

  datatype Body = NoContent | JsonBody(value: Json)

  datatype Response = Response(status: nat, body: Body)

  /** A JSON-object response with the given members. */
  function Reply(status: nat, fields: seq<(string, Json)>): Response {
    Response(status, JsonBody(JObj(fields)))
  }

  /** The `{"error": message}` envelope every handler uses for failures. */
  function ErrorReply(status: nat, message: string): Response {
    Reply(status, [("error", JStr(message))])
  }

  /** Position of the first member named `key`. */
  function KeyIndex(fields: seq<(string, Json)>, key: string): (r: Option<nat>)
    ensures r.Some? ==> r.value < |fields| && fields[r.value].0 == key
    ensures r.Some? ==> forall j :: 0 <= j < r.value ==> fields[j].0 != key
    ensures r.None? ==> forall j :: 0 <= j < |fields| ==> fields[j].0 != key
  {
    if |fields| == 0 then None
    else if fields[0].0 == key then Some(0)
    else match KeyIndex(fields[1..], key)
      case None => None
      case Some(i) => Some(i + 1)
  }

  /** Member lookup on an object: `d.get(key)` in Python, `o[key]` in JavaScript. */
  function Get(fields: seq<(string, Json)>, key: string): Option<Json> {
    match KeyIndex(fields, key)
    case None => None
    case Some(i) => Some(fields[i].1)
  }

  /** Looking up in joined member lists: the first list wins where it has the key. */
  lemma {:induction false} GetAppend(a: seq<(string, Json)>, b: seq<(string, Json)>, key: string)
    ensures Get(a + b, key) == if Get(a, key).Some? then Get(a, key) else Get(b, key)
  {
    if |a| > 0 {
      assert (a + b)[0] == a[0] && (a + b)[1..] == a[1..] + b;
      if a[0].0 != key {
        GetAppend(a[1..], b, key);
        assert Get(a + b, key) == Get(a[1..] + b, key);
        assert Get(a, key) == Get(a[1..], key);
      }
    } else {
      assert a + b == b;
    }
  }

  /** Python's `d.get(key, default)`. */
  function GetOr(fields: seq<(string, Json)>, key: string, default: Json): Json {
    match Get(fields, key)
    case None => default
    case Some(v) => v
  }

  /** Python truthiness: None, False, 0, "", [] and {} are false. */
  predicate PyTruthy(v: Json)
    ensures !PyTruthy(v) <==> v in {JNull, JBool(false), JNum(0), JStr(""), JArr([]), JObj([])}
  {
    match v
    case JNull => false
    case JBool(b) => b
    case JNum(n) => n != 0
    case JStr(s) => s != ""
    case JArr(xs) => xs != []
    case JObj(fs) => fs != []
  }

  /** JavaScript truthiness: undefined, null, false, 0 and "" are false; every
      array and object, even an empty one, is true. `None` stands for undefined. */
  predicate JsTruthy(v: Option<Json>)
    ensures !JsTruthy(v) <==> v in {None, Some(JNull), Some(JBool(false)), Some(JNum(0)), Some(JStr(""))}
  {
    match v
    case None => false
    case Some(JNull) => false
    case Some(JBool(b)) => b
    case Some(JNum(n)) => n != 0
    case Some(JStr(s)) => s != ""
    case Some(JArr(_)) => true
    case Some(JObj(_)) => true
  }

  /** The two truthiness rules differ on exactly two values, the empty list and
      the empty object, which Python counts false and JavaScript true. */
  lemma TruthinessDiffers(v: Json)
    ensures PyTruthy(v) != JsTruthy(Some(v)) <==> v == JArr([]) || v == JObj([])
    ensures PyTruthy(v) ==> JsTruthy(Some(v))
  {
  }

  /** The Python type name of a decoded value, as it appears in exception texts. */
  function PyTypeName(v: Json): string {
    match v
    case JNull => "NoneType"
    case JBool(_) => "bool"
    case JNum(_) => "int"
    case JStr(_) => "str"
    case JArr(_) => "list"
    case JObj(_) => "dict"
  }

  /** The text of the AttributeError raised by `v.get(...)` on a value that is not a dict. */
  function NoGet(v: Json): string {
    "'" + PyTypeName(v) + "' object has no attribute 'get'"
  }

  /** What a Python `for x in v` visits: the elements of a list, the
      one-character strings of a str, the keys of a dict; anything else raises TypeError. */
  function PyIter(v: Json): (r: Result<seq<Json>>)
    ensures r.Ok? <==> v.JArr? || v.JStr? || v.JObj?
    ensures v.JArr? ==> r == Ok(v.items)
    // a string visits its characters, one single-character string each, in order
    ensures v.JStr? ==> r.Ok? && |r.value| == |v.s| && forall i :: 0 <= i < |v.s| ==> r.value[i] == JStr([v.s[i]])
    // a dict visits its keys, in insertion order
    ensures v.JObj? ==> r.Ok? && |r.value| == |v.fields| && forall i :: 0 <= i < |v.fields| ==> r.value[i] == JStr(v.fields[i].0)
    ensures r.Ok? ==> (r.value == [] <==> !PyTruthy(v))
  {
    match v
    case JArr(xs) => Ok(xs)
    case JStr(s) => Ok(seq(|s|, i requires 0 <= i < |s| => JStr([s[i]])))
    case JObj(fs) => Ok(seq(|fs|, i requires 0 <= i < |fs| => JStr(fs[i].0)))
    case _ => Err("'" + PyTypeName(v) + "' object is not iterable")
  }

  /** JavaScript `v?.key` for the plain (non-built-in) property names the
      handlers read: a member of an object, undefined for every other value. */
  function JsProp(v: Option<Json>, key: string): Option<Json> {
    match v
    case Some(JObj(fs)) => Get(fs, key)
    case _ => None
  }

  /** JavaScript `v?.[0]`: the first element of an array, the member "0" of an
      object, the first character of a string, undefined otherwise. */
  function JsIndex0(v: Option<Json>): Option<Json> {
    match v
    case Some(JArr(xs)) => if xs == [] then None else Some(xs[0])
    case Some(JObj(fs)) => Get(fs, "0")
    case Some(JStr(s)) => if s == "" then None else Some(JStr([s[0]]))
    case _ => None
  }
}
