/** The part of Python's semantics the eAPI client relies on: decoded JSON
    values, truth testing, the exceptions the client can raise, the `str`
    methods used to name client classes, and subscripting and membership
    on decoded JSON. */
module Py {

  /** A value as Python's json module decodes it. JSON numbers are
      modelled as integers only. */
  datatype Json =
    | JNull
    | JBool(b: bool)
    | JInt(i: int)
    | JString(s: string)
    | JArray(items: seq<Json>)
    | JObject(fields: map<string, Json>)

  /** The exceptions that leave a client's `send`. */
  datatype Exception =
      /** EapiException, carrying `response["error"]["message"]` */
    | EapiException(message: Json)
    | KeyError(key: Json)
    | TypeError
    | IndexError
    | AttributeError(name: string)
    | NotImplementedError(text: string)
      /** an HTTP status the HTTP library treats as a failure */
    | HttpError(status: int)
      /** the target could not be reached at all */
    | ConnectionFailure(reason: string)
      /** a fault reported by the JSON-RPC library itself */
      /** the ValueError raised when a body is not valid JSON */
    | DecodeFailure

  /** A value, or the exception raised instead of producing it. */
  datatype Result<+T> = Ok(value: T) | Err(error: Exception)

  datatype Option<+T> = None | Some(value: T)

  /** Python truth testing: None, False, 0, "", [] and {} are false. */
  function Truthy(v: Json): (b: bool)
    ensures !b <==> v in {JNull, JBool(false), JInt(0), JString(""), JArray([]), JObject(map[])}
  {
    match v
    case JNull => false
    case JBool(b) => b
    case JInt(i) => i != 0
    case JString(s) => s != ""
    case JArray(items) => items != []
    case JObject(fields) => fields != map[]
  }

  function LowerChar(c: char): char {
    if 'A' <= c <= 'Z' then (c as int + 32) as char else c
  }

  function UpperChar(c: char): char {
    if 'a' <= c <= 'z' then (c as int - 32) as char else c
  }

  /** `s.lower()` on an ASCII string. */
  function Lower(s: string): (r: string)
    ensures |r| == |s|
    ensures forall i :: 0 <= i < |s| ==> r[i] == LowerChar(s[i])
  {
    seq(|s|, i requires 0 <= i < |s| => LowerChar(s[i]))
  }

  /** `s.capitalize()`: the first character upper-cased, the rest lower-cased. */
  function Capitalize(s: string): (r: string)
    ensures |r| == |s|
    ensures Lower(r) == Lower(s)
  {
    if s == [] then [] else [UpperChar(s[0])] + Lower(s[1..])
  }

  /** Two strings that agree up to case capitalize to the same string:
      `capitalize()` makes a name lookup case-insensitive. */
  lemma CapitalizeIgnoresCase(s: string, t: string)
    requires Lower(s) == Lower(t)
    ensures Capitalize(s) == Capitalize(t)
  {
    if s != [] {
      assert Lower(s)[0] == Lower(t)[0];
      assert UpperChar(s[0]) == UpperChar(t[0]);
      assert Lower(s[1..]) == Lower(s)[1..];
      assert Lower(t[1..]) == Lower(t)[1..];
    }
  }

  /** On a string without capitals, `capitalize()` only upper-cases the first character. */
  lemma CapitalizeLowerCase(s: string)
    requires forall i :: 0 <= i < |s| ==> !('A' <= s[i] <= 'Z')
    ensures s != [] ==> Capitalize(s) == [UpperChar(s[0])] + s[1..]
  {
    if s != [] {
      assert Lower(s[1..]) == s[1..];
    }
  }

  /** `needle in haystack` for two strings: substring test. */
  predicate IsInfix(needle: string, haystack: string)
    decreases |haystack|
  {
    |needle| <= |haystack| &&
    (haystack[..|needle|] == needle || (haystack != [] && IsInfix(needle, haystack[1..])))
  }

  /** `needle` occurs in `haystack` starting at index `i`. */
  predicate OccursAt(needle: string, haystack: string, i: int) {
    0 <= i && i + |needle| <= |haystack| && haystack[i..i + |needle|] == needle
  }

  /** The substring test holds exactly when the needle occurs at some index. */
  lemma {:induction false} IsInfixIffOccurs(needle: string, haystack: string)
    ensures IsInfix(needle, haystack) <==> exists i :: OccursAt(needle, haystack, i)
    decreases |haystack|
  {
    if |needle| <= |haystack| {
      if haystack[..|needle|] == needle {
        assert OccursAt(needle, haystack, 0);
      } else {
        IsInfixIffOccurs(needle, haystack[1..]);
        if IsInfix(needle, haystack[1..]) {
          var j :| OccursAt(needle, haystack[1..], j);
          assert haystack[1..][j..j + |needle|] == haystack[j + 1..j + 1 + |needle|];
          assert OccursAt(needle, haystack, j + 1);
        }
        if exists i :: OccursAt(needle, haystack, i) {
          var i :| OccursAt(needle, haystack, i);
          assert i != 0;
          assert haystack[1..][i - 1..i - 1 + |needle|] == haystack[i..i + |needle|];
          assert OccursAt(needle, haystack[1..], i - 1);
        }
      }
    }
  }

  /** `key in v` for a str `key` and a decoded value `v`. */
  function Contains(v: Json, key: string): (r: Result<bool>)
    ensures v.JObject? ==> r == Ok(key in v.fields)
    ensures v.JArray? ==> r == Ok(JString(key) in v.items)
    ensures v.JString? ==> r == Ok(IsInfix(key, v.s))
    ensures v.JNull? || v.JBool? || v.JInt? ==> r == Err(TypeError)
  {
    match v
    case JObject(m) => Ok(key in m)
    case JArray(items) => Ok(JString(key) in items)
    case JString(s) => Ok(IsInfix(key, s))
    case _ => Err(TypeError)
  }

  /** `v[key]` for a str `key`: a lookup in a dict, TypeError on anything else. */
  function Subscript(v: Json, key: string): (r: Result<Json>)
    ensures r.Ok? <==> v.JObject? && key in v.fields
    ensures r.Ok? ==> r.value == v.fields[key]
    ensures r.Err? ==> r.error == (if v.JObject? then KeyError(JString(key)) else TypeError)
  {
    match v
    case JObject(m) => if key in m then Ok(m[key]) else Err(KeyError(JString(key)))
    case _ => Err(TypeError)
  }

  /** `v[0]`: the first element of a list, the first character of a str;
      a dict has no key 0, other values are not subscriptable. */
  function First(v: Json): (r: Result<Json>)
    ensures r.Ok? <==> (v.JArray? && v.items != []) || (v.JString? && v.s != "")
    ensures r.Ok? && v.JArray? ==> r.value == v.items[0]
    ensures r.Ok? && v.JString? ==> r.value == JString([v.s[0]])
    ensures (v.JArray? && v.items == []) || (v.JString? && v.s == "") ==> r == Err(IndexError)
    ensures v.JObject? ==> r == Err(KeyError(JInt(0)))
  {
    match v
    case JArray(items) => if items == [] then Err(IndexError) else Ok(items[0])
    case JString(s) => if s == "" then Err(IndexError) else Ok(JString([s[0]]))
    case JObject(_) => Err(KeyError(JInt(0)))
    case _ => Err(TypeError)
  }
}
