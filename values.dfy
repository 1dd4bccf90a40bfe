/**
 * Python-level values that the console's core passes around: JSON documents
 * (the payload of every envelope), the exceptions the core raises and catches,
 * and the handful of `str` methods it calls.
 */
module Values {

  datatype Option<T> = None | Some(value: T)

  /** A call that either returns a value or raises an exception. */
  datatype Result<T, E> = Ok(value: T) | Err(error: E)

  /**
   * The exceptions of the core. Python's class hierarchy is given by the
   * predicates below: BrokenPipeError, ConnectionResetError and
   * ConnectionAbortedError are ConnectionErrors; JSONDecodeError is a
   * ValueError; SystemExit is not an Exception.
   */
  datatype Exc =
    | ValueError(msg: string)
    | JsonDecodeError
    | TypeError(msg: string)
    | KeyError(key: string)
    | IndexError
    | AttributeError(name: string)
    | UnboundLocalError(name: string)
    | OverflowError
    | BrokenPipeError(msg: string)
    | ConnectionResetError
    | ConnectionAbortedError(msg: string)
    | ConnectionError(msg: string)
    | RuntimeError(msg: string)
    | OSError
    | SystemExit

  predicate IsValueError(e: Exc) {
    e.ValueError? || e.JsonDecodeError?
  }

  predicate IsConnectionError(e: Exc) {
    e.ConnectionError? || e.BrokenPipeError? || e.ConnectionResetError? || e.ConnectionAbortedError?
  }

  /** What `except Exception` catches: everything but SystemExit. */
  predicate IsException(e: Exc) {
    !e.SystemExit?
  }

  /**
   * A JSON value as `json.loads` builds it. Objects keep their members in
   * insertion order, as Python dicts do; arrays stand for lists and tuples.
   */
  datatype Json =
    | Null
    | Bool(b: bool)
    | Int(i: int)
    | Str(s: string)
    | Arr(items: seq<Json>)
    | Obj(fields: seq<(string, Json)>)

  /** Python truthiness of a JSON value. */
  predicate Truthy(j: Json) {
    match j
    case Null => false
    case Bool(b) => b
    case Int(i) => i != 0
    case Str(s) => s != ""
    case Arr(items) => items != []
    case Obj(fields) => fields != []
  }

  // ---------------------------------------------------------------------
  // Dicts: an insertion-ordered list of members with distinct keys.

  function Keys(fields: seq<(string, Json)>): set<string> {
    if fields == [] then {} else {fields[0].0} + Keys(fields[1..])
  }

  predicate UniqueKeys(fields: seq<(string, Json)>) {
    fields == [] || (fields[0].0 !in Keys(fields[1..]) && UniqueKeys(fields[1..]))
  }

  /** `d.get(k)`: the value under `k`, or None when `k` is not a key. */
  function Lookup(fields: seq<(string, Json)>, k: string): (r: Option<Json>)
    ensures r.Some? <==> k in Keys(fields)
  {
    if fields == [] then None
    else if fields[0].0 == k then Some(fields[0].1)
    else Lookup(fields[1..], k)
  }

  /** `d[k] = v`: replaces the value of an existing key in place, or appends a new member. */
  function Put(fields: seq<(string, Json)>, k: string, v: Json): (r: seq<(string, Json)>)
    ensures Keys(r) == Keys(fields) + {k}
  {
    if fields == [] then [(k, v)]
    else if fields[0].0 == k then [(k, v)] + fields[1..]
    else [fields[0]] + Put(fields[1..], k, v)
  }

  /** Reading a key just written gives the value written. */
  lemma {:induction false} LookupPutSame(fields: seq<(string, Json)>, k: string, v: Json)
    ensures Lookup(Put(fields, k, v), k) == Some(v)
  {
    if fields != [] && fields[0].0 != k {
      LookupPutSame(fields[1..], k, v);
    }
  }

  /** Writing one key leaves every other key as it was. */
  lemma {:induction false} LookupPutOther(fields: seq<(string, Json)>, k: string, v: Json, k': string)
    requires k' != k
    ensures Lookup(Put(fields, k, v), k') == Lookup(fields, k')
  {
    if fields != [] && fields[0].0 != k {
      LookupPutOther(fields[1..], k, v, k');
    }
  }

  /** Writing a key keeps the keys distinct. */
  lemma {:induction false} PutKeepsUniqueKeys(fields: seq<(string, Json)>, k: string, v: Json)
    requires UniqueKeys(fields)
    ensures UniqueKeys(Put(fields, k, v))
  {
    if fields != [] && fields[0].0 != k {
      PutKeepsUniqueKeys(fields[1..], k, v);
      assert Put(fields, k, v)[1..] == Put(fields[1..], k, v);
    }
  }

  /** `d.get(k)`: the value under `k`, None (JSON null) when there is none. */
  function DictGet(fields: seq<(string, Json)>, k: string): (r: Json)
    ensures k !in Keys(fields) ==> r == Null
    ensures k in Keys(fields) ==> Lookup(fields, k) == Some(r)
  {
    match Lookup(fields, k)
    case Some(v) => v
    case None => Null
  }

  /** `j[k]` with a string key: KeyError for a dict without `k`, TypeError for anything but a dict. */
  function Subscript(j: Json, k: string): (r: Result<Json, Exc>)
    ensures r.Ok? <==> j.Obj? && k in Keys(j.fields)
    ensures r.Ok? ==> Lookup(j.fields, k) == Some(r.value)
    ensures r.Err? && j.Obj? ==> r.error == KeyError(k)
    ensures r.Err? && !j.Obj? ==> r.error.TypeError?
  {
    if !j.Obj? then Err(TypeError(NotSubscriptable))
    else
      match Lookup(j.fields, k)
      case Some(v) => Ok(v)
      case None => Err(KeyError(k))
  }

  const NotSubscriptable: string := "object is not subscriptable"
  const NoItemAssignment: string := "object does not support item assignment"

  /** `j[k] = v` on a value that may not be a dict: the dict after the write, or TypeError. */
  function SetItem(j: Json, k: string, v: Json): (r: Result<Json, Exc>)
    ensures r.Ok? <==> j.Obj?
    ensures r.Ok? ==> r.value.Obj? && Keys(r.value.fields) == Keys(j.fields) + {k}
    ensures r.Ok? ==> Lookup(r.value.fields, k) == Some(v)
    ensures r.Ok? ==> forall k' :: k' != k ==> Lookup(r.value.fields, k') == Lookup(j.fields, k')
  {
    if j.Obj? then
      LookupPutSame(j.fields, k, v);
      assert forall k' :: k' != k ==> Lookup(Put(j.fields, k, v), k') == Lookup(j.fields, k') by {
        forall k' | k' != k ensures Lookup(Put(j.fields, k, v), k') == Lookup(j.fields, k') {
          LookupPutOther(j.fields, k, v, k');
        }
      }
      Ok(Obj(Put(j.fields, k, v)))
    else Err(TypeError(NoItemAssignment))
  }

  /** Every JSON value a Python program can hold: object keys are distinct at every level. */
  predicate WellFormed(j: Json)
    decreases j
  {
    match j
    case Arr(items) => forall i :: 0 <= i < |items| ==> WellFormed(items[i])
    case Obj(fields) =>
      && UniqueKeys(fields)
      && forall i :: 0 <= i < |fields| ==> WellFormed(fields[i].1)
    case _ => true
  }

  // ---------------------------------------------------------------------
  // str methods. Case mapping is the ASCII one; see README for what that leaves out.

  /** `c.isspace()`: the characters `str.strip()` removes. */
  predicate IsSpace(c: char) {
    || c == ' ' || '\t' <= c <= '\r' || '\U{1c}' <= c <= '\U{1f}'
    || c == '\U{85}' || c == '\U{a0}' || c == '\U{1680}' || '\U{2000}' <= c <= '\U{200a}'
    || c == '\U{2028}' || c == '\U{2029}' || c == '\U{202f}' || c == '\U{205f}' || c == '\U{3000}'
  }

  /** `not s.strip()`: the string holds nothing but whitespace. */
  predicate IsBlank(s: string) {
    forall i :: 0 <= i < |s| ==> IsSpace(s[i])
  }

  function TrimStart(s: string): (r: string)
    ensures r == [] || !IsSpace(r[0])
  {
    if s != [] && IsSpace(s[0]) then TrimStart(s[1..]) else s
  }

  function TrimEnd(s: string): (r: string)
    ensures r == [] || !IsSpace(r[|r| - 1])
  {
    if s != [] && IsSpace(s[|s| - 1]) then TrimEnd(s[..|s| - 1]) else s
  }

  /** `s.strip()` */
  function Strip(s: string): string {
    TrimEnd(TrimStart(s))
  }

  lemma {:induction false} TrimStartEmptyIffBlank(s: string)
    ensures TrimStart(s) == "" <==> IsBlank(s)
  {
    if s != [] && IsSpace(s[0]) {
      TrimStartEmptyIffBlank(s[1..]);
      assert IsBlank(s) <==> IsBlank(s[1..]) by {
        assert forall i :: 0 < i < |s| ==> s[1..][i - 1] == s[i];
      }
    }
  }

  lemma {:induction false} TrimEndEmptyIffBlank(s: string)
    ensures TrimEnd(s) == "" <==> IsBlank(s)
  {
    if s != [] && IsSpace(s[|s| - 1]) {
      TrimEndEmptyIffBlank(s[..|s| - 1]);
      assert IsBlank(s) <==> IsBlank(s[..|s| - 1]) by {
        assert forall i :: 0 <= i < |s| - 1 ==> s[..|s| - 1][i] == s[i];
      }
    }
  }

  /** `s.strip()` is empty exactly when `s` is blank. */
  lemma StripEmptyIffBlank(s: string)
    ensures Strip(s) == "" <==> IsBlank(s)
  {
    TrimStartEmptyIffBlank(s);
    TrimEndEmptyIffBlank(TrimStart(s));
  }

  function LowerChar(c: char): (r: char)
    ensures 'A' <= c <= 'Z' ==> 'a' <= r <= 'z'
    ensures !('A' <= c <= 'Z') ==> r == c
  {
    if 'A' <= c <= 'Z' then (c as int + 32) as char else c
  }

  function UpperChar(c: char): (r: char)
    ensures 'a' <= c <= 'z' ==> 'A' <= r <= 'Z'
    ensures !('a' <= c <= 'z') ==> r == c
  {
    if 'a' <= c <= 'z' then (c as int - 32) as char else c
  }

  /** `s.lower()`, and `s.casefold()` on the ASCII range */
  function Lower(s: string): (r: string)
    ensures |r| == |s|
    ensures forall i :: 0 <= i < |s| ==> r[i] == LowerChar(s[i])
  {
    if s == [] then [] else [LowerChar(s[0])] + Lower(s[1..])
  }

  /** `s.upper()` on the ASCII range */
  function Upper(s: string): (r: string)
    ensures |r| == |s|
    ensures forall i :: 0 <= i < |s| ==> r[i] == UpperChar(s[i])
  {
    if s == [] then [] else [UpperChar(s[0])] + Upper(s[1..])
  }

  /** A string with no upper-case letter is its own lower-case form (every command table key is one). */
  lemma LowerOfLowerCase(s: string)
    requires forall i :: 0 <= i < |s| ==> !('A' <= s[i] <= 'Z')
    ensures Lower(s) == s
  {
  }

  /**
   * `c.isprintable()`. Exact on Latin-1 (controls, the no-break space and the
   * soft hyphen are not printable); above it only the space separators and the
   * common format characters are told apart.
   */
  predicate IsPrintable(c: char) {
    if c < '\U{100}' then
      (' ' <= c <= '~') || ('\U{a1}' <= c && c != '\U{ad}')
    else
      !(|| c == '\U{1680}' || '\U{2000}' <= c <= '\U{200f}' || '\U{2028}' <= c <= '\U{202f}'
        || '\U{205f}' <= c <= '\U{2064}' || c == '\U{3000}' || c == '\U{feff}'
        || '\U{e000}' <= c <= '\U{f8ff}')
  }
}
