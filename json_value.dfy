/**
  The values `json.loads` builds (None, bool, int, float, str, list, dict) and
  the Python operations the JSON index walkers apply to them: iteration
  (`for x in v`), subscripting with a string key (`v[key]`) and the text an
  f-string substitutes for a value (`str(v)`).
*/
module JsonValue {
  import opened Wrappers
  import opened Python
  import Strings

  /**
    A parsed JSON value. A float carries the text `str()` gives it, since the
    model has no floating point. An object lists its members in insertion order
    with distinct keys, as the dict `json.loads` builds.
  */
  datatype Json =
    | JNull
    | JBool(b: bool)
    | JInt(i: int)
    | JFloat(text: string)
    | JString(s: string)
    | JArray(items: seq<Json>)
    | JObject(members: seq<(string, Json)>)

  /** `type(v).__name__`. */
  function TypeName(v: Json): string {
    match v
    case JNull => "NoneType"
    case JBool(_) => "bool"
    case JInt(_) => "int"
    case JFloat(_) => "float"
    case JString(_) => "str"
    case JArray(_) => "list"
    case JObject(_) => "dict"
  }

  /**
    The elements `for x in v` visits: a list's items, a dict's keys, a string's
    one-character strings; other values are not iterable.
  */
  function Iterate(v: Json): Result<seq<Json>, PyError> {
    match v
    case JArray(items) => Ok(items)
    case JObject(members) => Ok(seq(|members|, i requires 0 <= i < |members| => JString(members[i].0)))
    case JString(s) => Ok(seq(|s|, i requires 0 <= i < |s| => JString([s[i]])))
    case _ => Err(PyError(TypeError, "'" + TypeName(v) + "' object is not iterable"))
  }

  /** The value stored under `key`, if any. */
  function Lookup(members: seq<(string, Json)>, key: string): Option<Json> {
    if members == [] then None
    else if members[0].0 == key then Some(members[0].1)
    else Lookup(members[1..], key)
  }

  /** `v[key]` for a string key. */
  function Subscript(v: Json, key: string): Result<Json, PyError> {
    match v
    case JObject(members) =>
      (match Lookup(members, key)
       case Some(x) => Ok(x)
       case None => Err(PyError(KeyError, StrRepr(key))))
    case JArray(_) => Err(PyError(TypeError, "list indices must be integers or slices, not str"))
    case JString(_) => Err(PyError(TypeError, "string indices must be integers, not 'str'"))
    case _ => Err(PyError(TypeError, "'" + TypeName(v) + "' object is not subscriptable"))
  }

  /** `v[path[0]][path[1]]...`, raising at the first step that fails. */
  function SubscriptPath(v: Json, path: seq<string>): Result<Json, PyError>
    decreases |path|
  {
    if path == [] then Ok(v)
    else
      var x :- Subscript(v, path[0]);
      SubscriptPath(x, path[1..])
  }

  /**
    `[x[key] for x in items]`: either every element has the key, and the values
    come out one per element in order, or the error of the first element that
    does not is raised.
  */
  function CollectKey(items: seq<Json>, key: string): (r: Result<seq<Json>, PyError>)
    ensures r.Ok? ==> |r.value| == |items|
    ensures r.Ok? ==> forall i | 0 <= i < |items| :: Subscript(items[i], key) == Ok(r.value[i])
    ensures r.Err? ==> exists k | 0 <= k < |items| ::
      Subscript(items[k], key) == Err(r.error) && forall j | 0 <= j < k :: Subscript(items[j], key).Ok?
  {
    if items == [] then Ok([])
    else
      match Subscript(items[0], key)
      case Err(e) => Err(e)
      case Ok(x) =>
        match CollectKey(items[1..], key)
        case Err(e) =>
          ghost var k :| 1 <= k + 1 < |items| && Subscript(items[1..][k], key) == Err(e)
            && forall j | 0 <= j < k :: Subscript(items[1..][j], key).Ok?;
          assert Subscript(items[k + 1], key) == Err(e);
          Err(e)
        case Ok(xs) => Ok([x] + xs)
  }

  /** Two hexadecimal digits of a byte value, as `repr` writes them. */
  function Hex2(n: nat): string
    requires n < 256
  {
    ["0123456789abcdef"[n / 16], "0123456789abcdef"[n % 16]]
  }

  /** How `repr` writes one character of a string quoted with `quote`. */
  function EscapeChar(c: char, quote: char): string {
    if c == quote || c == '\\' then ['\\', c]
    else if c == '\n' then "\\n"
    else if c == '\r' then "\\r"
    else if c == '\t' then "\\t"
    else if c < ' ' || ('\U{7F}' <= c <= '\U{A0}') then "\\x" + Hex2(c as int)
    else [c]
  }

  function EscapeChars(s: string, quote: char): string {
    if s == [] then "" else EscapeChar(s[0], quote) + EscapeChars(s[1..], quote)
  }

  /** `repr(s)`: single quotes unless the text holds a single quote and no double quote. */
  function StrRepr(s: string): string {
    var quote := if '\'' in s && '"' !in s then '"' else '\'';
    [quote] + EscapeChars(s, quote) + [quote]
  }

  /** `repr(v)`. */
  function Repr(v: Json): string
    decreases v
  {
    match v
    case JNull => "None"
    case JBool(b) => if b then "True" else "False"
    case JInt(i) => IntToString(i)
    case JFloat(text) => text
    case JString(s) => StrRepr(s)
    case JArray(items) =>
      "[" + Strings.Join(seq(|items|, i requires 0 <= i < |items| => Repr(items[i])), ", ") + "]"
    case JObject(members) =>
      "{" + Strings.Join(seq(|members|, i requires 0 <= i < |members| =>
                           StrRepr(members[i].0) + ": " + Repr(members[i].1)), ", ") + "}"
  }

  /** `str(v)`, the text `f"{v}"` substitutes: a string itself, anything else its `repr`. */
  function Format(v: Json): string {
    if v.JString? then v.s else Repr(v)
  }
}
