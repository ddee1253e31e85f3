/** The JavaScript values that a decoded webhook body can hold, and the few
    operations of the language that the handlers rely on: truthiness, `||`,
    property reads with and without optional chaining, `String(v)`, `===`,
    ASCII case mapping, `includes`, `join` and `substring`. */
module Js {

  datatype Option<T> = None | Some(value: T)

  /** A JavaScript value as produced by JSON decoding, plus `undefined` for a
      missing property. Numbers are integers here. */
  datatype Json =
    | Undefined
    | Null
    | Bool(b: bool)
    | Num(n: int)
    | Str(s: string)
    | Arr(items: seq<Json>)
    | Obj(fields: map<string, Json>)

  /** The TypeErrors the handlers can raise. */
  datatype TypeError =
    | CannotReadProperty(key: string)   // `x.key` where x is null or undefined
    | NotAFunction(name: string)        // `x.name()` where x has no such method

  /** The outcome of a call that may throw. */
  datatype Outcome<T> = Returned(value: T) | Threw(error: TypeError)

  predicate IsNullish(v: Json) {
    v.Undefined? || v.Null?
  }

  /** JavaScript's `Boolean(v)`. */
  predicate Truthy(v: Json) {
    match v
    case Undefined => false
    case Null => false
    case Bool(b) => b
    case Num(n) => n != 0
    case Str(s) => s != ""
    case Arr(_) => true
    case Obj(_) => true
  }

  /** `a || b`: the first operand when it is truthy, otherwise the second. */
  function Or(a: Json, b: Json): (r: Json)
    ensures Truthy(a) ==> r == a
    ensures !Truthy(a) ==> r == b
    ensures Truthy(r) <==> Truthy(a) || Truthy(b)
  {
    if Truthy(a) then a else b
  }

  /** `v.key` on a value that is not null or undefined (reading a property of
      those throws, which callers model separately). Only decoded objects have
      named properties; prototype properties are not modelled. */
  function Get(v: Json, key: string): Json
    requires !IsNullish(v)
  {
    if v.Obj? && key in v.fields then v.fields[key] else Undefined
  }

  /** `v?.key`. */
  function OptGet(v: Json, key: string): Json {
    if IsNullish(v) then Undefined else Get(v, key)
  }

  /** `v[i]` on a value that is not null or undefined. */
  function Index(v: Json, i: nat): Json
    requires !IsNullish(v)
  {
    match v
    case Arr(items) => if i < |items| then items[i] else Undefined
    case Str(s) => if i < |s| then Str([s[i]]) else Undefined
    case Obj(_) => Get(v, NatToString(i))
    case _ => Undefined
  }

  /** `v?.[i]`. */
  function OptIndex(v: Json, i: nat): Json {
    if IsNullish(v) then Undefined else Index(v, i)
  }

  /** `a === b`. Arrays and objects are compared by reference, and two
      decoded composite values are never the same reference. */
  predicate StrictEquals(a: Json, b: Json) {
    !a.Arr? && !a.Obj? && a == b
  }

  function DigitChar(d: nat): char
    requires d < 10
  {
    (48 + d) as char
  }

  /** Decimal rendering of a natural number, as `String(n)` does. */
  function NatToString(n: nat): (r: string)
    ensures |r| > 0
    ensures forall i | 0 <= i < |r| :: '0' <= r[i] <= '9'
    ensures r[0] == '0' ==> n == 0
  {
    if n < 10 then [DigitChar(n)] else NatToString(n / 10) + [DigitChar(n % 10)]
  }

  function IntToString(n: int): (r: string)
    ensures |r| > 0
  {
    if n < 0 then "-" + NatToString(-n) else NatToString(n)
  }

  /** The value of a string of decimal digits. */
  function DigitsValue(s: string): nat
    requires forall i | 0 <= i < |s| :: '0' <= s[i] <= '9'
  {
    if s == [] then 0 else DigitsValue(s[..|s| - 1]) * 10 + (s[|s| - 1] as int - 48)
  }

  /** The rendering of a natural number reads back as that number, so
      distinct line numbers never render alike. */
  lemma {:induction false} NatToStringRoundTrip(n: nat)
    ensures DigitsValue(NatToString(n)) == n
  {
    var r := NatToString(n);
    if n >= 10 {
      NatToStringRoundTrip(n / 10);
      assert r[..|r| - 1] == NatToString(n / 10);
    }
  }

  /** `String(v)`, as template literals and `+` with a string apply it. */
  function ToStr(v: Json): string
    decreases v, 1
  {
    match v
    case Undefined => "undefined"
    case Null => "null"
    case Bool(b) => if b then "true" else "false"
    case Num(n) => IntToString(n)
    case Str(s) => s
    case Arr(items) => JoinItems(items)
    case Obj(_) => "[object Object]"
  }

  /** A one-digit number renders as its digit. */
  lemma DigitText(n: nat)
    requires n < 10
    ensures ToStr(Num(n)) == [DigitChar(n)]
  {
  }

  /** `v + s` for a string s: string concatenation after `String(v)`. */
  function Concat(v: Json, s: string): Json {
    Str(ToStr(v) + s)
  }

  lemma ConcatTwice(v: Json, a: string, b: string)
    ensures Concat(Concat(v, a), b) == Concat(v, a + b)
  {
    assert ToStr(v) + a + b == ToStr(v) + (a + b);
  }

  /** `items.join(",")`, the way `String` renders an array. */
  function JoinItems(items: seq<Json>): string
    decreases items, 0
  {
    if items == [] then ""
    else if |items| == 1 then ElementText(items[0])
    else ElementText(items[0]) + "," + JoinItems(items[1..])
  }

  /** How `join` renders one element: null and undefined as the empty
      string, anything else with `String`. */
  function ElementText(v: Json): string
    decreases v, 2
  {
    if IsNullish(v) then "" else ToStr(v)
  }

  /** `items.join(sep)` over any values. */
  function JoinValues(items: seq<Json>, sep: string): string {
    Join(seq(|items|, i requires 0 <= i < |items| => ElementText(items[i])), sep)
  }

  /** `parts.join(sep)` over strings. */
  function Join(parts: seq<string>, sep: string): string {
    if parts == [] then ""
    else if |parts| == 1 then parts[0]
    else parts[0] + sep + Join(parts[1..], sep)
  }

  lemma JoinTwo(a: string, b: string, sep: string)
    ensures Join([a, b], sep) == a + sep + b
  {
    assert [a, b][1..] == [b];
  }

  lemma JoinValuesTwo(a: Json, b: Json, sep: string)
    ensures JoinValues([a, b], sep) == ElementText(a) + sep + ElementText(b)
  {
    var texts := seq(2, i requires 0 <= i < 2 => ElementText([a, b][i]));
    assert texts == [ElementText(a), ElementText(b)];
    JoinTwo(ElementText(a), ElementText(b), sep);
  }

  function LowerChar(c: char): char {
    if 'A' <= c <= 'Z' then (c as int + 32) as char else c
  }

  function UpperChar(c: char): char {
    if 'a' <= c <= 'z' then (c as int - 32) as char else c
  }

  /** `s.toLowerCase()` on the ASCII letters. */
  function Lower(s: string): (r: string)
    ensures |r| == |s|
    ensures forall i | 0 <= i < |s| :: r[i] == LowerChar(s[i])
  {
    if s == [] then [] else [LowerChar(s[0])] + Lower(s[1..])
  }

  /** `s.toUpperCase()` on the ASCII letters. */
  function Upper(s: string): (r: string)
    ensures |r| == |s|
    ensures forall i | 0 <= i < |s| :: r[i] == UpperChar(s[i])
  {
    if s == [] then [] else [UpperChar(s[0])] + Upper(s[1..])
  }

  /** `s.includes(t)` on strings. */
  predicate HasSubstring(s: string, t: string)
    decreases |s|
  {
    t <= s || (|s| > 0 && HasSubstring(s[1..], t))
  }

  /** `v.includes(t)`: a substring test on strings, a membership test
      (by `===`) on arrays; any other value has no `includes` method. */
  function Includes(v: Json, t: string): (r: Outcome<bool>)
    ensures r.Threw? <==> !v.Str? && !v.Arr?
    ensures r.Threw? ==> r.error == if IsNullish(v) then CannotReadProperty("includes") else NotAFunction("includes")
    ensures r == Returned(true) <==> (v.Str? && HasSubstring(v.s, t)) || (v.Arr? && Str(t) in v.items)
  {
    match v
    case Str(s) => Returned(HasSubstring(s, t))
    case Arr(items) => Returned(Str(t) in items)
    case Undefined => Threw(CannotReadProperty("includes"))
    case Null => Threw(CannotReadProperty("includes"))
    case _ => Threw(NotAFunction("includes"))
  }

  /** `s.substring(0, n)`. */
  function Take(s: string, n: nat): (r: string)
    ensures r <= s
    ensures |r| == if |s| <= n then |s| else n
  {
    if |s| <= n then s else s[..n]
  }
}
