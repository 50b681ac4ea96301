/** The slice of JavaScript value semantics that the gateway and its forms rely on:
    JSON-shaped values, truthiness, `||`, property and index reads (plain and `?.`),
    `String.prototype.trim`, Error objects and Express replies. */
module Js {

  datatype Option<T> = None | Some(value: T)

  /** A JavaScript value as produced by `JSON.parse` (plus `undefined`, which is what a
      missing property reads as). Numbers are modelled as integers. */
  datatype Value =
    | Undefined
    | Null
    | Bool(b: bool)
    | Num(n: int)
    | Str(s: string)
    | Arr(items: seq<Value>)
    | Obj(fields: map<string, Value>)

  predicate Nullish(v: Value) {
    v.Undefined? || v.Null?
  }

  /** JavaScript's ToBoolean. */
  predicate Truthy(v: Value) {
    match v
    case Undefined => false
    case Null => false
    case Bool(b) => b
    case Num(n) => n != 0
    case Str(s) => s != ""
    case Arr(_) => true
    case Obj(_) => true
  }

  /** `a || b`: the left operand when it is truthy, the right one otherwise. */
  function Or(a: Value, b: Value): (r: Value)
    ensures Truthy(r) <==> Truthy(a) || Truthy(b)
    ensures r == a || r == b
  {
    if Truthy(a) then a else b
  }

  /** `v.k` on a value that is neither null nor undefined (on those it throws). Only own
      properties of objects are seen: every property name the modelled code reads is
      neither an array index, `length`, nor a name a built-in prototype provides. */
  function Member(v: Value, k: string): (r: Value)
    requires !Nullish(v)
    ensures !v.Obj? ==> r == Undefined
    ensures v.Obj? ==> (r != Undefined || k !in v.fields || v.fields[k] == Undefined)
  {
    if v.Obj? && k in v.fields then v.fields[k] else Undefined
  }

  /** `v?.k` */
  function OptMember(v: Value, k: string): (r: Value)
    ensures Nullish(v) ==> r == Undefined
  {
    if Nullish(v) then Undefined else Member(v, k)
  }

  /** `v[0]` on a value that is neither null nor undefined: the first element of an
      array, the first character of a string (a UTF-16 code unit in JavaScript; here a
      `char`), the property "0" of an object. */
  function Index0(v: Value): (r: Value)
    requires !Nullish(v)
    ensures v.Arr? && |v.items| > 0 ==> r == v.items[0]
    ensures v.Str? && v.s != "" ==> r == Str([v.s[0]])
    ensures v.Str? && v.s == "" ==> r == Undefined
  {
    match v
    case Arr(items) => if |items| > 0 then items[0] else Undefined
    case Str(s) => if |s| > 0 then Str([s[0]]) else Undefined
    case Obj(m) => if "0" in m then m["0"] else Undefined
    case _ => Undefined
  }

  /** `v?.[0]` */
  function OptIndex0(v: Value): (r: Value)
    ensures Nullish(v) ==> r == Undefined
  {
    if Nullish(v) then Undefined else Index0(v)
  }

  /** The result of evaluating an expression that may throw; the client code catches every
      such throw, so the error object itself is not kept. */
  datatype Completion = Normal(v: Value) | Threw

  /** A JavaScript Error object as far as the error-handling middleware reads it. `status`
      is the optional `err.status` property; it is read with `||`, so 0 counts as absent. */
  datatype Error = Error(name: string, message: string, status: Option<int>, stack: string)

  /** `new Error(message)`. Only the first line of the stack trace is modelled. */
  function NewError(message: string): (e: Error)
    ensures e.name == "Error" && e.message == message && e.status == None
  {
    Error("Error", message, None, "Error: " + message)
  }

  /** A TypeError raised by the engine, with the engine's message. */
  function NewTypeError(message: string): (e: Error)
    ensures e.name == "TypeError" && e.message == message && e.status == None
  {
    Error("TypeError", message, None, "TypeError: " + message)
  }

  datatype Result<T> = Ok(value: T) | Err(error: Error)

  /** `res.status(status).json(body)` */
  datatype Reply = Reply(status: int, body: Value)

  /* ---------- String.prototype.trim ---------- */

  /** ECMAScript WhiteSpace and LineTerminator code points, the set `trim` removes. */
  predicate IsWs(c: char) {
    || c == '\t' || c == '\n' || c == '\U{000B}' || c == '\U{000C}' || c == '\r'
    || c == ' ' || c == '\U{00A0}' || c == '\U{1680}'
    || ('\U{2000}' <= c <= '\U{200A}')
    || c == '\U{2028}' || c == '\U{2029}' || c == '\U{202F}' || c == '\U{205F}'
    || c == '\U{3000}' || c == '\U{FEFF}'
  }

  predicate Blank(s: string) {
    forall i | 0 <= i < |s| :: IsWs(s[i])
  }

  /** Number of whitespace characters at the start of `s`. */
  function LeadingWs(s: string): (n: nat)
    ensures n <= |s|
    ensures Blank(s[..n])
    ensures n < |s| ==> !IsWs(s[n])
  {
    if |s| > 0 && IsWs(s[0]) then
      var m := LeadingWs(s[1..]);
      assert s[..1 + m] == [s[0]] + s[1..][..m];
      1 + m
    else
      0
  }

  /** Number of whitespace characters at the end of `s`. */
  function TrailingWs(s: string): (n: nat)
    ensures n <= |s|
    ensures Blank(s[|s| - n..])
    ensures n < |s| ==> !IsWs(s[|s| - n - 1])
  {
    if |s| > 0 && IsWs(s[|s| - 1]) then
      var m := TrailingWs(s[..|s| - 1]);
      BlankSuffixGrows(s, m);
      1 + m
    else
      0
  }

  /** A blank suffix of `s` minus its last character, followed by a whitespace last
      character, is a blank suffix of `s`. */
  lemma BlankSuffixGrows(s: string, m: nat)
    requires |s| > 0 && IsWs(s[|s| - 1]) && m <= |s| - 1
    requires Blank(s[..|s| - 1][|s| - 1 - m..])
    ensures Blank(s[|s| - (1 + m)..])
  {
    var t := s[..|s| - 1];
    var u := s[|s| - (1 + m)..];
    forall j | 0 <= j < |u|
      ensures IsWs(u[j])
    {
      if j < m {
        assert u[j] == t[|t| - m..][j];
      }
    }
  }

  /** `s.trim()`: `s` with its leading and trailing whitespace removed. */
  function Trim(s: string): (r: string)
    ensures r == [] || (!IsWs(r[0]) && !IsWs(r[|r| - 1]))
  {
    var t := s[LeadingWs(s)..];
    t[..|t| - TrailingWs(t)]
  }

  /** Trailing whitespace never swallows a non-whitespace first character. */
  lemma {:induction false} TrailingWsStops(t: string)
    requires |t| > 0 && !IsWs(t[0])
    ensures TrailingWs(t) < |t|
  {
    if |t| > 1 && IsWs(t[|t| - 1]) {
      var p := t[..|t| - 1];
      assert p[0] == t[0];
      TrailingWsStops(p);
    }
  }

  /** What `trim` removes is whitespace, and it removes it only at the two ends. */
  lemma TrimIsInfix(s: string) returns (i: nat, j: nat)
    ensures i <= j <= |s|
    ensures Trim(s) == s[i..j]
    ensures Blank(s[..i]) && Blank(s[j..])
  {
    i := LeadingWs(s);
    var t := s[i..];
    var k := TrailingWs(t);
    j := i + |t| - k;
    assert Trim(s) == t[..|t| - k];
    assert t[..|t| - k] == s[i..j];
    assert s[j..] == t[|t| - k..];
  }

  /** `!s.trim()` holds exactly for strings made only of whitespace. */
  lemma TrimEmptyIffBlank(s: string)
    ensures Trim(s) == [] <==> Blank(s)
  {
    var i := LeadingWs(s);
    var t := s[i..];
    var k := TrailingWs(t);
    assert Trim(s) == t[..|t| - k];
    if i < |s| {
      assert t[0] == s[i];
      TrailingWsStops(t);
      assert |Trim(s)| == |t| - k;
    } else {
      assert s[..i] == s;
    }
  }


}
