/**
 * Decoded JSON values as Python holds them after `response.json()`, and the
 * handful of Python operations the adapter applies to them: truthiness,
 * `k in x`, `x[k]`, `x[0]`, `len(x) > 0`, `x.get(k, d)`, iteration,
 * `str.split`, `str.join` and `str()`.  Each operation either yields a value
 * or the exception Python would raise, as a `Fault`.
 */
module PyJson {

  datatype Option<+T> = None | Some(value: T)

  datatype Result<+T, +E> = Ok(value: T) | Err(error: E) {
    predicate IsFailure() { Err? }
    function PropagateFailure<U>(): Result<U, E>
      requires Err?
    {
      Err(error)
    }
    function Extract(): T
      requires Ok?
    {
      value
    }
  }

  /**
   * A JSON value.  JSON `null` and Python's `None` are one value, JNull.
   * An object is its list of members in text order; when a key repeats,
   * the last member wins, as with `json.loads`.  Numbers with a fraction
   * are not part of the model.
   */
  datatype Json =
    | JNull
    | JBool(b: bool)
    | JInt(i: int)
    | JStr(s: string)
    | JArr(items: seq<Json>)
    | JObj(members: seq<(string, Json)>)

  /** The exceptions Python raises when the adapter meets a value of the wrong shape. */
  datatype Fault =
    | KeyError(key: Json)                           // d[k] with k not a key of the dict d
    | NoAttribute(typeName: string, attr: string)   // x.get / x.split on a value without that method
    | NotIterable(typeName: string)                 // `for _ in x` over None, a bool or an int
    | NotContainer(typeName: string)                // `k in x` with x None, a bool or an int
    | NotSubscriptable(typeName: string)            // x[...] with x None, a bool or an int
    | BadIndexType(typeName: string)                // a list or a str indexed by a str
    | NoLen(typeName: string)                       // len(x) of None, a bool or an int
    | IndexOutOfRange(typeName: string)             // x[0] of an empty list or str
    | JoinItemNotStr(index: nat, typeName: string)  // sep.join(xs) with xs[index] not a str

  /** Python's `type(x).__name__`. */
  function TypeName(j: Json): string {
    match j
    case JNull => "NoneType"
    case JBool(_) => "bool"
    case JInt(_) => "int"
    case JStr(_) => "str"
    case JArr(_) => "list"
    case JObj(_) => "dict"
  }

  /** Python's `bool(x)`: None, False, 0 and empty containers are falsy. */
  predicate Truthy(j: Json) {
    match j
    case JNull => false
    case JBool(b) => b
    case JInt(i) => i != 0
    case JStr(s) => s != ""
    case JArr(items) => items != []
    case JObj(members) => members != []
  }

  /** The value a dict holds for `key`: the last member with that key. */
  function Lookup(members: seq<(string, Json)>, key: string): Option<Json> {
    if members == [] then None
    else if members[|members| - 1].0 == key then Some(members[|members| - 1].1)
    else Lookup(members[..|members| - 1], key)
  }

  predicate HasKey(members: seq<(string, Json)>, key: string) {
    Lookup(members, key).Some?
  }

  /** `s.startswith(p)` */
  predicate IsPrefix(p: string, s: string) {
    |p| <= |s| && s[..|p|] == p
  }

  /** Python's `p in s` on two strings. */
  predicate IsSubstring(p: string, s: string)
    decreases |s|
  {
    IsPrefix(p, s) || (s != [] && IsSubstring(p, s[1..]))
  }

  /** Python's `key in x` with a str key. */
  function Contains(x: Json, key: string): Result<bool, Fault> {
    match x
    case JObj(members) => Ok(HasKey(members, key))
    case JArr(items) => Ok(JStr(key) in items)
    case JStr(s) => Ok(IsSubstring(key, s))
    case _ => Err(NotContainer(TypeName(x)))
  }

  /** Python's `x[key]` with a str key. */
  function GetItem(x: Json, key: string): (r: Result<Json, Fault>)
    ensures r.Ok? <==> x.JObj? && HasKey(x.members, key)
  {
    match x
    case JObj(members) =>
      (match Lookup(members, key)
       case Some(v) => Ok(v)
       case None => Err(KeyError(JStr(key))))
    case JArr(_) => Err(BadIndexType("list"))
    case JStr(_) => Err(BadIndexType("str"))
    case _ => Err(NotSubscriptable(TypeName(x)))
  }

  /** Python's `x[0]`.  Object keys are strings, so a dict never has the key 0. */
  function Index0(x: Json): Result<Json, Fault> {
    match x
    case JArr(items) => if items != [] then Ok(items[0]) else Err(IndexOutOfRange("list"))
    case JStr(s) => if s != "" then Ok(JStr([s[0]])) else Err(IndexOutOfRange("str"))
    case JObj(_) => Err(KeyError(JInt(0)))
    case _ => Err(NotSubscriptable(TypeName(x)))
  }

  /** Python's `len(x) > 0`. */
  function LenPositive(x: Json): Result<bool, Fault> {
    match x
    case JArr(items) => Ok(items != [])
    case JStr(s) => Ok(s != "")
    case JObj(members) => Ok(members != [])
    case _ => Err(NoLen(TypeName(x)))
  }

  /** Python's `x.get(key, default)`; only a dict has `get`. */
  function Get(x: Json, key: string, default: Json): (r: Result<Json, Fault>)
    ensures r.Ok? <==> x.JObj?
  {
    match x
    case JObj(members) =>
      (match Lookup(members, key)
       case Some(v) => Ok(v)
       case None => Ok(default))
    case _ => Err(NoAttribute(TypeName(x), "get"))
  }

  /**
   * What `for e in x` visits: list items, the one-character strings of a str,
   * the keys of a dict.  A key that repeats in a dict's member list is visited
   * once per member here, where Python visits each distinct key once; the
   * loops of the core stop at the first key, so they cannot tell the two apart.
   */
  function Elements(x: Json): Result<seq<Json>, Fault> {
    match x
    case JArr(items) => Ok(items)
    case JStr(s) => Ok(seq(|s|, k requires 0 <= k < |s| => JStr([s[k]])))
    case JObj(members) => Ok(seq(|members|, k requires 0 <= k < |members| => JStr(members[k].0)))
    case _ => Err(NotIterable(TypeName(x)))
  }

  /**
   * Python's `s.split(sep)` for a one-character separator: the pieces between
   * separators, so there is always at least one.  The first piece is the
   * longest prefix of `s` without `sep`.
   */
  function Split(s: string, sep: char): (pieces: seq<string>)
    ensures |pieces| >= 1
    ensures IsPrefix(pieces[0], s) && sep !in pieces[0]
    ensures |pieces[0]| < |s| ==> s[|pieces[0]|] == sep
  {
    if s == [] then [""]
    else
      var rest := Split(s[1..], sep);
      if s[0] == sep then [""] + rest
      else [[s[0]] + rest[0]] + rest[1..]
  }

  /** A piece without the separator, then the separator, splits off as one piece. */
  lemma {:induction false} SplitAfterPiece(a: string, sep: char, rest: string)
    requires sep !in a
    ensures Split(a + [sep] + rest, sep) == [a] + Split(rest, sep)
  {
    if a == [] {
      assert a + [sep] + rest == [sep] + rest;
      assert ([sep] + rest)[1..] == rest;
    } else {
      assert (a + [sep] + rest)[0] == a[0];
      assert (a + [sep] + rest)[1..] == a[1..] + [sep] + rest;
      SplitAfterPiece(a[1..], sep, rest);
      assert [a[0]] + a[1..] == a;
    }
  }

  /** A string without the separator splits into itself alone. */
  lemma {:induction false} SplitWithoutSeparator(a: string, sep: char)
    requires sep !in a
    ensures Split(a, sep) == [a]
  {
    if a != [] {
      SplitWithoutSeparator(a[1..], sep);
      assert [a[0]] + a[1..] == a;
    }
  }

  /** `sep.join(ss)` once every item is known to be a str. */
  function JoinStrings(sep: string, ss: seq<string>): string {
    if ss == [] then ""
    else if |ss| == 1 then ss[0]
    else ss[0] + sep + JoinStrings(sep, ss[1..])
  }

  /**
   * Joining at least one string, none of which holds the separator, and
   * splitting the result at the separator gives the strings back.
   */
  lemma {:induction false} SplitJoinRoundTrip(ss: seq<string>, sep: char)
    requires |ss| >= 1
    requires forall k :: 0 <= k < |ss| ==> sep !in ss[k]
    ensures Split(JoinStrings([sep], ss), sep) == ss
  {
    if |ss| == 1 {
      SplitWithoutSeparator(ss[0], sep);
    } else {
      SplitJoinRoundTrip(ss[1..], sep);
      SplitAfterPiece(ss[0], sep, JoinStrings([sep], ss[1..]));
      assert [ss[0]] + ss[1..] == ss;
    }
  }

  /** The value `key` has in a dict whose member list ends with `(k, v)`. */
  lemma LookupAppended(members: seq<(string, Json)>, k: string, v: Json, key: string)
    ensures Lookup(members + [(k, v)], key) == if key == k then Some(v) else Lookup(members, key)
  {
    assert (members + [(k, v)])[..|members|] == members;
  }

  /** The strs inside `xs`, or the TypeError `str.join` raises for the first item that is not one. */
  function StrItems(xs: seq<Json>): (r: Result<seq<string>, Fault>)
    ensures r.Ok? ==> |r.value| == |xs| && forall k :: 0 <= k < |xs| ==> xs[k] == JStr(r.value[k])
    ensures r.Err? ==> exists k :: 0 <= k < |xs| && !xs[k].JStr? && r.error == JoinItemNotStr(k, TypeName(xs[k]))
    ensures r.Ok? <==> forall k :: 0 <= k < |xs| ==> xs[k].JStr?
    ensures r.Err? ==> r.error.JoinItemNotStr? && forall j :: 0 <= j < r.error.index ==> xs[j].JStr?
  {
    if xs == [] then Ok([])
    else
      var init :- StrItems(xs[..|xs| - 1]);
      var last := xs[|xs| - 1];
      if last.JStr? then Ok(init + [last.s]) else Err(JoinItemNotStr(|xs| - 1, TypeName(last)))
  }

  /** Python's `sep.join(xs)`. */
  function Join(sep: string, xs: seq<Json>): Result<string, Fault> {
    var ss :- StrItems(xs);
    Ok(JoinStrings(sep, ss))
  }

  function DigitChar(d: nat): char
    requires d < 10
  {
    "0123456789"[d]
  }

  function NatToDecimal(n: nat): string
    decreases n
  {
    if n < 10 then [DigitChar(n)] else NatToDecimal(n / 10) + [DigitChar(n % 10)]
  }

  /** Python's `str(i)` for an int. */
  function IntToDecimal(i: int): string {
    if i < 0 then "-" + NatToDecimal(-i) else NatToDecimal(i)
  }

  /**
   * Python's `str(x)` (and `f"{x}"`).  The text Python gives a list or a dict
   * is taken from `strOf`.
   */
  function PyStr(x: Json, strOf: Json -> string): string {
    match x
    case JNull => "None"
    case JBool(b) => if b then "True" else "False"
    case JInt(i) => IntToDecimal(i)
    case JStr(s) => s
    case _ => strOf(x)
  }
}
