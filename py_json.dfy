/**
 * The loosely-typed JSON values that the scripts read from the generation
 * server (history records, queue snapshots, WebSocket messages), together
 * with the few Python operations the scripts apply to them: `x[key]`,
 * `x[0]`, `x.get(key, default)` and `key in x`. Each of these can raise a
 * Python exception, which is made explicit with the `Py` datatype so that
 * the callers' `try`/`except` clauses can be modelled on top of them.
 */
module PyJson {

  /** A decoded JSON document. JSON numbers are not represented. */
  datatype Json =
    | JNull
    | JBool(b: bool)
    | JStr(str: string)
    | JList(items: seq<Json>)
    | JObj(fields: map<string, Json>)

  /** Python's `None` / a present value, as returned by the scripts. */
  datatype Option<+T> = None | Some(value: T)

  /** The Python exceptions that the modelled code raises or catches.
      RequestError stands for any failure of an HTTP request or of decoding
      its body. */
  datatype Exc = KeyError | IndexError | TypeError | AttributeError | RequestError

  /** The outcome of a Python expression: a value, or a raised exception.
      Failure-compatible, so `var x :- e; ...` propagates the exception. */
  datatype Py<+T> = Ok(value: T) | Raise(exc: Exc) {
    predicate IsFailure() { Raise? }

    function PropagateFailure<U>(): Py<U>
      requires Raise?
    {
      Raise(exc)
    }

    function Extract(): T
      requires Ok?
    {
      value
    }
  }

  /** Python's truth value of a decoded JSON value (`if x:`, `not x`):
      None, False and empty strings, lists and dicts are false. */
  function Truthy(x: Json): (b: bool)
    ensures !b <==> x in [JNull, JBool(false), JStr([]), JList([]), JObj(map[])]
  {
    match x
    case JNull => false
    case JBool(b) => b
    case JStr(s) => s != []
    case JList(xs) => xs != []
    case JObj(m) => m != map[]
  }

  /** Python `x[key]` with a string key. Only an object can be indexed by a
      string; a missing key is a KeyError. */
  function GetItem(x: Json, key: string): (r: Py<Json>)
    ensures r.Ok? <==> x.JObj? && key in x.fields
    ensures r.Ok? ==> r.value == x.fields[key]
    ensures r.Raise? ==> r.exc == (if x.JObj? then KeyError else TypeError)
  {
    match x
    case JObj(m) => if key in m then Ok(m[key]) else Raise(KeyError)
    case _ => Raise(TypeError)
  }

  /** Python `x[0]`: the first element of a list, the first character of a
      string (as a one-character string). An empty sequence is an
      IndexError; an object has no integer key 0 (JSON keys are strings), a
      KeyError; `None[0]` and `True[0]` are TypeErrors. */
  function FirstItem(x: Json): (r: Py<Json>)
    ensures r.Ok? <==> (x.JList? && |x.items| > 0) || (x.JStr? && |x.str| > 0)
    ensures r.Ok? && x.JList? ==> r.value == x.items[0]
    ensures r.Ok? && x.JStr? ==> r.value == JStr(x.str[..1])
    ensures r.Raise? ==> r.exc == (if x.JObj? then KeyError else if x.JList? || x.JStr? then IndexError else TypeError)
  {
    match x
    case JList(xs) => if |xs| > 0 then Ok(xs[0]) else Raise(IndexError)
    case JStr(s) => if |s| > 0 then Ok(JStr(s[..1])) else Raise(IndexError)
    case JObj(_) => Raise(KeyError)
    case _ => Raise(TypeError)
  }

  /** Python `x.get(key, default)`: only a dict has `get`; anything else is
      an AttributeError. */
  function Get(x: Json, key: string, default: Json): (r: Py<Json>)
    ensures r.Ok? <==> x.JObj?
    ensures r.Ok? ==> r.value == if key in x.fields then x.fields[key] else default
    ensures r.Raise? ==> r.exc == AttributeError
  {
    match x
    case JObj(m) => Ok(if key in m then m[key] else default)
    case _ => Raise(AttributeError)
  }

  /** Python `key in x` for a string key: key membership for a dict,
      element membership for a list, substring test for a string; `None`
      and the booleans are not iterable (TypeError). */
  function Contains(x: Json, key: string): (r: Py<bool>)
    ensures r.Raise? <==> x.JNull? || x.JBool?
    ensures r.Raise? ==> r.exc == TypeError
    ensures x.JObj? ==> r == Ok(key in x.fields)
    ensures x.JList? ==> r == Ok(JStr(key) in x.items)
    ensures x.JStr? ==> r == Ok(IsSubstring(key, x.str))
  {
    match x
    case JObj(m) => Ok(key in m)
    case JList(xs) => Ok(JStr(key) in xs)
    case JStr(s) => Ok(HasSubstring(s, key))
    case _ => Raise(TypeError)
  }

  /** `t` occurs in `s` at some offset. */
  ghost predicate IsSubstring(t: string, s: string) {
    exists i :: 0 <= i <= |s| - |t| && OccursAt(t, s, i)
  }

  ghost predicate OccursAt(t: string, s: string, i: int)
    requires 0 <= i <= |s| - |t|
  {
    s[i..i + |t|] == t
  }

  /** Substring search by scanning the offsets from left to right. */
  function HasSubstring(s: string, t: string): (b: bool)
    ensures b <==> IsSubstring(t, s)
    decreases |s|
  {
    if |s| < |t| then false
    else if s[..|t|] == t then
      assert OccursAt(t, s, 0);
      true
    else
      assert IsSubstring(t, s) <==> IsSubstring(t, s[1..]) by {
        assert !OccursAt(t, s, 0) by { assert s[0..|t|] == s[..|t|]; }
        if IsSubstring(t, s) {
          var i :| 0 <= i <= |s| - |t| && OccursAt(t, s, i);
          assert i >= 1;
          SliceOfTail(s, i, |t|);
          assert OccursAt(t, s[1..], i - 1);
        }
        if IsSubstring(t, s[1..]) {
          var j :| 0 <= j <= |s| - 1 - |t| && OccursAt(t, s[1..], j);
          SliceOfTail(s, j + 1, |t|);
          assert OccursAt(t, s, j + 1);
        }
      }
      HasSubstring(s[1..], t)
  }

  lemma SliceOfTail(s: string, i: int, n: int)
    requires 1 <= i && 0 <= n && i + n <= |s|
    ensures s[i..i + n] == s[1..][i - 1..i - 1 + n]
  {
    var a, b := s[i..i + n], s[1..][i - 1..i - 1 + n];
    forall k | 0 <= k < n ensures a[k] == b[k] {
      assert s[1..][i - 1 + k] == s[i + k];
    }
  }

  /** ASCII `str.lower()` on one character. */
  function LowerChar(c: char): char {
    if 'A' <= c <= 'Z' then (c as int + 32) as char else c
  }

  predicate IsUpper(c: char) {
    'A' <= c <= 'Z'
  }

  /** No character of `s` is an upper-case ASCII letter. */
  predicate NoUpper(s: string) {
    forall i :: 0 <= i < |s| ==> !IsUpper(s[i])
  }

  /** Python `s.lower()`, restricted to the ASCII letters. */
  function Lower(s: string): (r: string)
    ensures |r| == |s|
    ensures NoUpper(r)
    ensures forall i :: 0 <= i < |s| && !IsUpper(s[i]) ==> r[i] == s[i]
    ensures forall i :: 0 <= i < |s| && IsUpper(s[i]) ==> r[i] == (s[i] as int + 32) as char
  {
    if s == [] then [] else [LowerChar(s[0])] + Lower(s[1..])
  }

  /** Lowering a string that is already lower-case changes nothing. */
  lemma {:induction false} LowerKeepsLowerCase(s: string)
    requires NoUpper(s)
    ensures Lower(s) == s
  {
    if s != [] {
      assert NoUpper(s[1..]) by {
        forall i | 0 <= i < |s| - 1 ensures !IsUpper(s[1..][i]) {
          assert s[1..][i] == s[i + 1];
        }
      }
      LowerKeepsLowerCase(s[1..]);
    }
  }

  /** Lowering is idempotent. */
  lemma LowerIdempotent(s: string)
    ensures Lower(Lower(s)) == Lower(s)
  {
    LowerKeepsLowerCase(Lower(s));
  }
}
