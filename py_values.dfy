/** The slice of the Python runtime that the program normaliser relies on:
    the values `json` decodes (plus the `datetime` objects the normaliser
    creates), truthiness, ASCII `str.lower`, `dict.get` and `int(...)`. */
module PyValues {
  import opened Wrappers

  /** A Python value as the normaliser sees it. A JSON object is a dict, kept
      as its list of (key, value) pairs in insertion order, which is the order
      `dict.items()` yields them. A `datetime` is an abstract count of seconds. */
  datatype Value =
    | Null
    | Bool(b: bool)
    | Int(i: int)
    | Str(s: string)
    | List(items: seq<Value>)
    | Dict(entries: seq<(string, Value)>)
    | DateTime(seconds: int)

  /** The items of a dict, in iteration order. */
  type Entries = seq<(string, Value)>

  /** The exceptions the normaliser can raise. */
  datatype PyError =
    | KeyError(key: string)
    | AttributeError
    | TypeError
    | ValueError

  /** The library parsers the normaliser calls and this model does not
      re-implement: `int(s)` on a string and `datetime.fromisoformat(s)`,
      the latter giving a timestamp in seconds. `None` means the parser
      raised `ValueError`. */
  datatype Parsers = Parsers(parseInt: string -> Option<int>, parseIsoTime: string -> Option<int>)

  /** Python truthiness (`bool(v)`): the falsy values are exactly None,
      False, zero, the empty string, the empty list and the empty dict. */
  predicate Truthy(v: Value)
    ensures !Truthy(v) <==> v in {Null, Bool(false), Int(0), Str(""), List([]), Dict([])}
  {
    match v
    case Null => false
    case Bool(b) => b
    case Int(i) => i != 0
    case Str(s) => s != ""
    case List(items) => items != []
    case Dict(entries) => entries != []
    case DateTime(_) => true
  }

  predicate IsUpper(c: char) {
    'A' <= c <= 'Z'
  }

  predicate IsLower(c: char) {
    'a' <= c <= 'z'
  }

  /** `str.lower` on one character, restricted to ASCII. */
  function LowerChar(c: char): (d: char)
    ensures !IsUpper(d)
    ensures IsUpper(c) ==> IsLower(d) && d as int == c as int + 32
    ensures !IsUpper(c) ==> d == c
  {
    if IsUpper(c) then (c as int + 32) as char else c
  }

  /** `str.lower`, restricted to ASCII. */
  function Lower(s: string): (r: string)
    ensures |r| == |s|
    ensures forall i :: 0 <= i < |s| ==> r[i] == LowerChar(s[i])
  {
    seq(|s|, i requires 0 <= i < |s| => LowerChar(s[i]))
  }

  /** No ASCII upper-case letter occurs in `s`. */
  predicate IsLowerCase(s: string) {
    forall i :: 0 <= i < |s| ==> !IsUpper(s[i])
  }

  lemma LowerIsLowerCase(s: string)
    ensures IsLowerCase(Lower(s))
    ensures IsLowerCase(s) ==> Lower(s) == s
  {
  }

  lemma LowerIdempotent(s: string)
    ensures Lower(Lower(s)) == Lower(s)
  {
    LowerIsLowerCase(Lower(s));
  }

  /** The keys of a dict. */
  function Keys(d: Entries): set<string> {
    set i | 0 <= i < |d| :: d[i].0
  }

  /** `d.get(key)`: the value stored under `key`, or `None` when the key is
      absent. The keys of a dict are distinct, so the first pair with that
      key is the only one. */
  function Get(d: Entries, key: string): (r: Option<Value>)
    ensures r.None? <==> key !in Keys(d)
    ensures r.Some? ==> exists i :: 0 <= i < |d| && d[i] == (key, r.value)
  {
    if d == [] then None
    else if d[0].0 == key then Some(d[0].1)
    else
      var r := Get(d[1..], key);
      assert Keys(d) == {d[0].0} + Keys(d[1..]) by {
        forall k | k in Keys(d) ensures k in {d[0].0} + Keys(d[1..]) {
          var i :| 0 <= i < |d| && d[i].0 == k;
          if i > 0 { assert d[1..][i - 1].0 == k; }
        }
      }
      r
  }

  /** `d.get(key, default)`. */
  function GetOr(d: Entries, key: string, default: Value): (r: Value)
    ensures key !in Keys(d) ==> r == default
    ensures key in Keys(d) ==> exists i :: 0 <= i < |d| && d[i] == (key, r)
  {
    match Get(d, key)
    case None => default
    case Some(v) => v
  }

  /** `int(v)` for the values JSON can hold: an int is itself, a bool is 0 or
      1, a string goes through the integer parser (ValueError when it does not
      parse), anything else is a TypeError. */
  function IntOf(v: Value, parseInt: string -> Option<int>): (r: Result<int, PyError>)
    ensures r.Err? ==> r.error == ValueError || r.error == TypeError
    ensures r.Err? && r.error == ValueError <==> v.Str? && parseInt(v.s).None?
    ensures r.Err? && r.error == TypeError <==> !v.Int? && !v.Bool? && !v.Str?
    ensures v.Int? ==> r == Ok(v.i)
    ensures v.Bool? ==> r == Ok(if v.b then 1 else 0)
    ensures v.Str? && parseInt(v.s).Some? ==> r == Ok(parseInt(v.s).value)
  {
    match v
    case Int(i) => Ok(i)
    case Bool(b) => Ok(if b then 1 else 0)
    case Str(s) => (match parseInt(s) case Some(n) => Ok(n) case None => Err(ValueError))
    case _ => Err(TypeError)
  }
}
