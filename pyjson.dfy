/** JSON documents as the validators in utils/helpers.py receive them from
    `response.json()`, and the few Python built-ins the validators apply to
    them: `in`, subscripting with a string key, and `isinstance`.

    Python signals a misuse of `in` or of `[]` by raising an exception; the
    model makes that visible as an `Outcome`, which is failure-compatible so
    that `var x :- E; ...` propagates an exception the way Python does. */
module PyJson {

  /** A decoded JSON value. Python's json module turns JSON integers into
      `int` and every other number into `float`; no validator looks inside a
      float, so it is kept as its literal text. */
  datatype Json =
    | JNull
    | JBool(b: bool)
    | JInt(i: int)
    | JNumber(literal: string)
    | JString(s: string)
    | JArray(items: seq<Json>)
    | JObject(fields: map<string, Json>)

  /** The two exceptions the validators can raise. */
  datatype PyError = TypeError | KeyError

  /** What a Python expression does: returns a value or raises. */
  datatype Outcome<+T> = Returns(value: T) | Raises(error: PyError) {

    predicate IsFailure() {
      Raises?
    }

    function PropagateFailure<U>(): Outcome<U>
      requires Raises?
    {
      Raises(error)
    }

    function Extract(): T
      requires Returns?
    {
      value
    }
  }

  /** The values on which Python's `in` is defined here: dict, list, str. */
  predicate IsContainer(v: Json) {
    v.JObject? || v.JArray? || v.JString?
  }

  /** Python's `t in s` for two strings: `t` occurs in `s` as a contiguous
      run (the empty string occurs in every string). */
  predicate IsSubstring(t: string, s: string)
    decreases |s|
  {
    t <= s || (|s| > 0 && IsSubstring(t, s[1..]))
  }

  /** Python's `name in v`: a key test on a dict, an element test on a list
      (a str equals only a str with the same characters), a substring test on
      a str, and a TypeError ("argument is not iterable") on None, bool, int
      and float. */
  function Contains(v: Json, name: string): (r: Outcome<bool>)
    ensures r.Returns? <==> IsContainer(v)
    ensures r.Raises? ==> r.error == TypeError
    ensures v.JObject? ==> r == Returns(name in v.fields)
  {
    match v
    case JObject(m) => Returns(name in m)
    case JArray(items) => Returns(JString(name) in items)
    case JString(s) => Returns(IsSubstring(name, s))
    case _ => Raises(TypeError)
  }

  /** `name in v` evaluates to True. */
  predicate Has(v: Json, name: string) {
    Contains(v, name) == Returns(true)
  }

  /** Python's `v[key]` with a str key: the value on a dict that has the
      key, a KeyError on a dict that lacks it, and a TypeError on everything
      else (lists and strings take integer indices only; None, bool, int and
      float are not subscriptable). */
  function Subscript(v: Json, key: string): (r: Outcome<Json>)
    ensures r.Returns? <==> v.JObject? && key in v.fields
    ensures r == Raises(KeyError) <==> v.JObject? && key !in v.fields
    ensures r.Returns? ==> r.value == v.fields[key]
  {
    match v
    case JObject(m) => if key in m then Returns(m[key]) else Raises(KeyError)
    case _ => Raises(TypeError)
  }

  /** Python's `isinstance(v, int)`: `bool` is a subclass of `int`, so JSON
      `true` and `false` pass too. */
  predicate IsInstanceInt(v: Json) {
    v.JInt? || v.JBool?
  }

  /** Python's `isinstance(v, str)`. */
  predicate IsInstanceStr(v: Json) {
    v.JString?
  }

  /** The recursive substring test agrees with the positional one: `t`
      occurs in `s` exactly when it is a prefix of some suffix of `s`. */
  lemma {:induction false} IsSubstringAt(t: string, s: string)
    ensures IsSubstring(t, s) <==> exists i :: 0 <= i <= |s| && t <= s[i..]
  {
    if IsSubstring(t, s) {
      if t <= s {
        assert s[0..] == s;
      } else {
        IsSubstringAt(t, s[1..]);
        var i :| 0 <= i <= |s[1..]| && t <= s[1..][i..];
        assert s[1..][i..] == s[i + 1..];
      }
    }
    if exists i :: 0 <= i <= |s| && t <= s[i..] {
      var i :| 0 <= i <= |s| && t <= s[i..];
      if i == 0 {
        assert s[0..] == s;
      } else {
        assert s[1..][i - 1..] == s[i..];
        IsSubstringAt(t, s[1..]);
      }
    }
  }
}
