/** A parsed JSON document, as Python's `json` module hands it to the tool
    (dict, list, str, int, float, bool, None), together with the Python
    operators the tool applies to it: `key in v`, `v[key]`, `len(v)` and
    `v[0]`. Python checks types only when an operator runs, so each
    operator either yields a value or raises the error Python would raise. */
module Json {
  import opened Results

  datatype Json =
    | JNull
    | JBool(b: bool)
    | JInt(i: int)
    | JFloat(mantissa: int, exponent: int)  // mantissa * 10^exponent
    | JString(s: string)
    | JArray(items: seq<Json>)
    | JObject(members: map<string, Json>)

  /** The Python built-in exceptions that these operators can raise. */
  datatype PyError =
    | TypeError
    | KeyError(key: string)  // the key as Python prints it
    | IndexError

  /** Python's `needle in hay` on two strings: `needle` occurs in `hay`. */
  predicate IsSubstring(needle: string, hay: string)
    decreases |hay|
  {
    needle <= hay || (hay != [] && IsSubstring(needle, hay[1..]))
  }

  /** A string occurs in any concatenation that has it in the middle. */
  lemma {:induction false} SubstringOfConcat(x: string, a: string, b: string)
    ensures IsSubstring(x, a + x + b)
  {
    if a == [] {
      assert x <= a + x + b;
    } else {
      SubstringOfConcat(x, a[1..], b);
      assert (a + x + b)[1..] == a[1..] + x + b;
    }
  }

  /** A string never occurs in a shorter one. */
  lemma {:induction false} NoSubstringOfShorter(needle: string, hay: string)
    requires |hay| < |needle|
    ensures !IsSubstring(needle, hay)
  {
    if hay != [] {
      NoSubstringOfShorter(needle, hay[1..]);
    }
  }

  /** Python's `key in v` for a string key: a dict tests its keys, a list
      its elements, a string its substrings; numbers, booleans and None
      raise TypeError. */
  function In(key: string, v: Json): Result<bool, PyError> {
    match v
    case JObject(m) => Ok(key in m)
    case JArray(xs) => Ok(JString(key) in xs)
    case JString(s) => Ok(IsSubstring(key, s))
    case _ => Err(TypeError)
  }

  /** Python's `v[key]` for a string key: only a dict can be indexed by a
      string; a missing key raises KeyError. */
  function GetItem(v: Json, key: string): Result<Json, PyError> {
    match v
    case JObject(m) => if key in m then Ok(m[key]) else Err(KeyError("'" + key + "'"))
    case _ => Err(TypeError)
  }

  /** Python's `len(v)`: defined on dicts, lists and strings. */
  function Len(v: Json): Result<nat, PyError> {
    match v
    case JObject(m) => Ok(|m|)
    case JArray(xs) => Ok(|xs|)
    case JString(s) => Ok(|s|)
    case _ => Err(TypeError)
  }

  /** Python's `v[0]`: a list's first element, a string's first character
      as a string; a dict parsed from JSON has only string keys, so the
      integer key 0 is always missing. */
  function First(v: Json): Result<Json, PyError> {
    match v
    case JArray(xs) => if xs != [] then Ok(xs[0]) else Err(IndexError)
    case JString(s) => if s != [] then Ok(JString([s[0]])) else Err(IndexError)
    case JObject(_) => Err(KeyError("0"))
    case _ => Err(TypeError)
  }

  /** The elements Python's `for x in s` visits when `s` is a string:
      its characters, each as a one-character string. */
  function Chars(s: string): (r: seq<Json>)
    ensures |r| == |s|
    ensures forall i :: 0 <= i < |s| ==> r[i] == JString([s[i]])
  {
    seq(|s|, i requires 0 <= i < |s| => JString([s[i]]))
  }
}
