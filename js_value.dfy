/**
 * JavaScript values as the JSON-to-CSV flattener sees them, and the few pieces of
 * JavaScript semantics it relies on: property access with `?.`, truthiness,
 * string conversion (`String(v)` and `+` with a string), `Number(...)`,
 * loose equality with a string literal, `parseInt`, `split` and `join`.
 *
 * Numbers are modelled as integers; floating point is outside the model.
 */
module JsValue {

  /** A value of the language after `JSON.parse`, plus `undefined` and `NaN`, which
      property access and arithmetic can produce. */
  datatype Value =
    | Undefined
    | Null
    | Bool(b: bool)
    | Num(n: int)
    | NaN
    | Str(s: string)
    | Arr(items: seq<Value>)
    | Obj(fields: map<string, Value>)

  /** `v === null || v === undefined` */
  predicate IsNullish(v: Value) {
    v.Undefined? || v.Null?
  }

  /** JavaScript's ToBoolean: `undefined`, `null`, `false`, `0`, `NaN` and `""` are falsy. */
  predicate Truthy(v: Value) {
    match v
    case Undefined => false
    case Null => false
    case Bool(b) => b
    case Num(n) => n != 0
    case NaN => false
    case Str(s) => s != ""
    case Arr(_) => true
    case Obj(_) => true
  }

  /** `v ?? d` */
  function OrElse(v: Value, d: Value): (r: Value)
    ensures !IsNullish(v) ==> r == v
    ensures IsNullish(v) ==> r == d
  {
    if IsNullish(v) then d else v
  }

  /** `(v ?? {})?.key` reads what `v?.key` reads, and `v ?? {}` is never null or
      undefined, so a plain `.key` on it cannot throw. */
  lemma OrEmptyReadsThrough(v: Value, key: string)
    ensures !IsNullish(OrElse(v, Obj(map[])))
    ensures Prop(OrElse(v, Obj(map[])), key) == Prop(v, key)
  {
  }

  /** `v?.key` for a named key that is not an array index, not `length` and not
      inherited from a prototype; on anything but an object it is `undefined`.
      (`v.key` is the same value whenever it does not throw.) */
  function Prop(v: Value, key: string): Value {
    if v.Obj? && key in v.fields then v.fields[key] else Undefined
  }

  /** `v[i]` for a non-negative integer index. */
  function At(v: Value, i: nat): Value {
    match v
    case Arr(xs) => if i < |xs| then xs[i] else Undefined
    case Str(s) => if i < |s| then Str([s[i]]) else Undefined
    case Obj(m) => if NatToString(i) in m then m[NatToString(i)] else Undefined
    case _ => Undefined
  }

  // ---------------------------------------------------------------- strings

  /** `parts.join(sep)` on an array of strings. */
  function Join(parts: seq<string>, sep: string): string {
    if |parts| == 0 then ""
    else if |parts| == 1 then parts[0]
    else parts[0] + sep + Join(parts[1..], sep)
  }

  /** `s.split(c)` for a one-character separator. */
  function Split(s: string, c: char): (parts: seq<string>)
    ensures |parts| >= 1
  {
    if s == [] then [""]
    else
      var rest := Split(s[1..], c);
      if s[0] == c then [""] + rest else [[s[0]] + rest[0]] + rest[1..]
  }

  /** Number of occurrences of `c` in `s`. */
  function Count(s: string, c: char): nat {
    if s == [] then 0 else (if s[0] == c then 1 else 0) + Count(s[1..], c)
  }

  lemma {:induction false} CountAppend(a: string, b: string, c: char)
    ensures Count(a + b, c) == Count(a, c) + Count(b, c)
  {
    if a != [] {
      assert (a + b)[1..] == a[1..] + b;
      CountAppend(a[1..], b, c);
    } else {
      assert a + b == b;
    }
  }

  lemma {:induction false} CountAbsent(s: string, c: char)
    requires c !in s
    ensures Count(s, c) == 0
  {
    if s != [] {
      CountAbsent(s[1..], c);
    }
  }

  /** Splitting on `c` and joining with `c` gives back the string, and no part contains `c`. */
  lemma {:induction false} SplitJoin(s: string, c: char)
    ensures Join(Split(s, c), [c]) == s
    ensures forall i :: 0 <= i < |Split(s, c)| ==> c !in Split(s, c)[i]
    ensures |Split(s, c)| == Count(s, c) + 1
  {
    SplitJoinBack(s, c);
    SplitPartsFree(s, c);
    SplitCount(s, c);
  }

  /** Joining the parts with `c` gives back the string. */
  lemma {:induction false} SplitJoinBack(s: string, c: char)
    ensures Join(Split(s, c), [c]) == s
  {
    if s != [] {
      SplitJoinBack(s[1..], c);
      var rest := Split(s[1..], c);
      if s[0] == c {
        assert Split(s, c) == [""] + rest;
        assert ([""] + rest)[1..] == rest;
        assert s == [c] + s[1..];
      } else {
        var parts := Split(s, c);
        assert parts == [[s[0]] + rest[0]] + rest[1..];
        if |rest| > 1 {
          assert parts[1..] == rest[1..];
          assert Join(rest, [c]) == rest[0] + [c] + Join(rest[1..], [c]);
        }
        assert s == [s[0]] + s[1..];
      }
    }
  }

  /** No part contains the separator. */
  lemma {:induction false} SplitPartsFree(s: string, c: char)
    ensures forall i :: 0 <= i < |Split(s, c)| ==> c !in Split(s, c)[i]
  {
    if s != [] {
      SplitPartsFree(s[1..], c);
      var rest := Split(s[1..], c);
      var parts := Split(s, c);
      if s[0] == c {
        assert parts == [""] + rest;
        forall i | 1 <= i < |parts|
          ensures c !in parts[i]
        {
          assert parts[i] == rest[i - 1];
        }
      } else {
        assert parts == [[s[0]] + rest[0]] + rest[1..];
        forall i | 1 <= i < |parts|
          ensures c !in parts[i]
        {
          assert parts[i] == rest[i];
        }
      }
    }
  }

  /** There is one part more than there are separators. */
  lemma {:induction false} SplitCount(s: string, c: char)
    ensures |Split(s, c)| == Count(s, c) + 1
  {
    if s != [] {
      SplitCount(s[1..], c);
    }
  }

  /** Joining parts that do not contain `c` with `c` and splitting again gives back the parts. */
  lemma {:induction false} JoinSplit(parts: seq<string>, c: char)
    requires |parts| >= 1
    requires forall i :: 0 <= i < |parts| ==> c !in parts[i]
    ensures Split(Join(parts, [c]), c) == parts
  {
    if |parts| == 1 {
      SplitNoSeparator(parts[0], c);
    } else {
      JoinSplit(parts[1..], c);
      var tail := Join(parts[1..], [c]);
      SplitPrefix(parts[0], tail, c);
      assert [""] + parts[1..] == [""] + Split(tail, c);
      assert parts == [parts[0]] + parts[1..];
    }
  }

  lemma {:induction false} SplitNoSeparator(s: string, c: char)
    requires c !in s
    ensures Split(s, c) == [s]
  {
    if s != [] {
      SplitNoSeparator(s[1..], c);
      assert [s[0]] + s[1..] == s;
    }
  }

  /** Splitting `p + [c] + t` where `p` has no `c`: the first part is `p`, the rest is the split of `t`. */
  lemma {:induction false} SplitPrefix(p: string, t: string, c: char)
    requires c !in p
    ensures Split(p + [c] + t, c) == [p] + Split(t, c)
  {
    if p == [] {
      assert p + [c] + t == [c] + t;
      assert ([c] + t)[1..] == t;
    } else {
      SplitPrefix(p[1..], t, c);
      assert (p + [c] + t)[1..] == p[1..] + [c] + t;
      var rest := Split(p[1..] + [c] + t, c);
      assert rest == [p[1..]] + Split(t, c);
      assert [p[0]] + p[1..] == p;
    }
  }

  // ---------------------------------------------------------------- numbers

  function DigitChar(d: nat): (c: char)
    requires d < 10
    ensures '0' <= c <= '9'
  {
    "0123456789"[d]
  }

  predicate IsDigit(c: char) {
    '0' <= c <= '9'
  }

  function DigitValue(c: char): nat
    requires IsDigit(c)
  {
    (c as int) - ('0' as int)
  }

  /** Decimal text of a natural number, without leading zeros. */
  function NatToString(n: nat): (s: string)
    ensures |s| >= 1
    ensures forall i :: 0 <= i < |s| ==> IsDigit(s[i])
  {
    if n < 10 then [DigitChar(n)] else NatToString(n / 10) + [DigitChar(n % 10)]
  }

  /** `String(n)` for an integer (up to the exponent notation JavaScript uses from 1e21 on). */
  function IntToString(i: int): (s: string)
    ensures forall k :: 0 <= k < |s| ==> IsDigit(s[k]) || s[k] == '-'
  {
    if i < 0 then "-" + NatToString(-i) else NatToString(i)
  }

  predicate AllDigits(s: string) {
    forall i :: 0 <= i < |s| ==> IsDigit(s[i])
  }

  /** Value of a string of decimal digits, read left to right. */
  function DigitsValue(s: string): nat
    requires AllDigits(s)
  {
    if s == [] then 0 else 10 * DigitsValue(s[..|s| - 1]) + DigitValue(s[|s| - 1])
  }

  /** JavaScript's StringToNumber for the empty string and optionally signed decimal
      integers; every other text reads as `NaN`. */
  function StringToNumber(s: string): (r: Value)
    ensures r.Num? || r.NaN?
  {
    if s == [] then Num(0)
    else if s[0] == '-' && |s| > 1 && AllDigits(s[1..]) then Num(-(DigitsValue(s[1..]) as int))
    else if s[0] == '+' && |s| > 1 && AllDigits(s[1..]) then Num(DigitsValue(s[1..]))
    else if AllDigits(s) then Num(DigitsValue(s))
    else NaN
  }

  lemma {:induction false} DigitsOfNat(n: nat)
    ensures DigitsValue(NatToString(n)) == n
  {
    var s := NatToString(n);
    if n >= 10 {
      DigitsOfNat(n / 10);
      assert s[..|s| - 1] == NatToString(n / 10);
    }
  }

  /** Reading back the text of an integer gives the integer. */
  lemma IntToStringRoundTrip(i: int)
    ensures StringToNumber(IntToString(i)) == Num(i)
  {
    if i < 0 {
      var n: nat := -i;
      NegativeRoundTrip(n);
      assert IntToString(i) == "-" + NatToString(n);
    } else {
      NatRoundTrip(i);
      assert IntToString(i) == NatToString(i);
    }
  }

  /** A natural number written in decimal reads back as itself. */
  lemma NatRoundTrip(n: nat)
    ensures StringToNumber(NatToString(n)) == Num(n)
  {
    var s := NatToString(n);
    assert IsDigit(s[0]) && AllDigits(s);
    DigitsOfNat(n);
  }

  /** So does a negative number written with a leading minus sign. */
  lemma NegativeRoundTrip(n: nat)
    requires n > 0
    ensures StringToNumber("-" + NatToString(n)) == Num(-(n as int))
  {
    var s := "-" + NatToString(n);
    assert s[1..] == NatToString(n);
    assert AllDigits(s[1..]);
    DigitsOfNat(n);
  }

  /** JavaScript's ToNumber. */
  function ToNumber(v: Value): (r: Value)
    ensures r.Num? || r.NaN?
  {
    match v
    case Undefined => NaN
    case Null => Num(0)
    case Bool(b) => Num(if b then 1 else 0)
    case Num(_) => v
    case NaN => NaN
    case Str(s) => StringToNumber(s)
    case Arr(_) => StringToNumber(Show(v))
    case Obj(_) => NaN
  }

  /** `a - b` */
  function Subtract(a: Value, b: Value): (r: Value)
    ensures r.Num? <==> ToNumber(a).Num? && ToNumber(b).Num?
    ensures r.Num? ==> r.n == ToNumber(a).n - ToNumber(b).n
  {
    var x, y := ToNumber(a), ToNumber(b);
    if x.Num? && y.Num? then Num(x.n - y.n) else NaN
  }

  /** An amount as the records carry it: the number itself, or its decimal text. */
  predicate IsAmount(v: Value, a: int) {
    v == Num(a) || v == Str(IntToString(a))
  }

  /** An amount, a number or its decimal text, converts to that number. */
  lemma ToNumberOfAmount(v: Value, a: int)
    requires IsAmount(v, a)
    ensures ToNumber(v) == Num(a)
  {
    IntToStringRoundTrip(a);
  }

  /** Subtracting two amounts, each a number or its decimal text, gives their difference. */
  lemma SubtractAmounts(x: Value, y: Value, a: int, b: int)
    requires IsAmount(x, a) && IsAmount(y, b)
    ensures Subtract(x, y) == Num(a - b)
  {
    IntToStringRoundTrip(a);
    IntToStringRoundTrip(b);
  }

  /** A missing amount (or an object where an amount belongs) makes the difference `NaN`. */
  lemma SubtractMissing(x: Value, y: Value)
    requires x.Undefined? || x.Obj? || y.Undefined? || y.Obj?
    ensures Subtract(x, y) == NaN
  {
  }

  /** JavaScript's `String(v)`, which is also what `v + "..."` converts `v` to. */
  function Show(v: Value): (r: string)
    ensures v.Str? ==> r == v.s
    ensures v.Num? ==> StringToNumber(r) == v
  {
    match v
    case Undefined => "undefined"
    case Null => "null"
    case Bool(b) => if b then "true" else "false"
    case Num(n) => IntToStringRoundTrip(n); IntToString(n)
    case NaN => "NaN"
    case Str(s) => s
    case Arr(xs) =>
      // `Array.prototype.join`: null and undefined elements become empty text
      Join(seq(|xs|, i requires 0 <= i < |xs| => if IsNullish(xs[i]) then "" else Show(xs[i])), ",")
    case Obj(_) => "[object Object]"
  }

  /** `v == lit` (loose equality) against a string literal `lit`. */
  predicate LooseEqualsString(v: Value, lit: string)
    ensures IsNullish(v) || v.NaN? ==> !LooseEqualsString(v, lit)
    ensures v.Str? ==> (LooseEqualsString(v, lit) <==> v.s == lit)
    ensures v.Num? ==> (LooseEqualsString(v, lit) <==> StringToNumber(lit) == v)
  {
    match v
    case Undefined => false
    case Null => false
    case Bool(b) => StringToNumber(lit) == Num(if b then 1 else 0)
    case Num(n) => StringToNumber(lit) == Num(n)
    case NaN => false
    case Str(s) => s == lit
    case Arr(_) => Show(v) == lit
    case Obj(_) => lit == "[object Object]"
  }

  /** A literal that is not numeric text is loosely equal only to a string (or an
      array) whose text it is. */
  lemma LooseEqualsText(v: Value, lit: string)
    requires StringToNumber(lit).NaN?
    requires lit != "[object Object]"
    ensures LooseEqualsString(v, lit) <==> (v.Str? || v.Arr?) && Show(v) == lit
  {
  }

  // ---------------------------------------------------------------- parseInt

  /** The white space `parseInt` skips before a number. */
  predicate IsJsWhiteSpace(c: char) {
    c in {'\t', '\n', '\U{B}', '\U{C}', '\r', ' ', '\U{A0}', '\U{1680}', '\U{2000}', '\U{2001}',
          '\U{2002}', '\U{2003}', '\U{2004}', '\U{2005}', '\U{2006}', '\U{2007}', '\U{2008}',
          '\U{2009}', '\U{200A}', '\U{2028}', '\U{2029}', '\U{202F}', '\U{205F}', '\U{3000}', '\U{FEFF}'}
  }

  function TrimStart(s: string): (r: string)
    ensures |r| <= |s| && r == s[|s| - |r|..]
    ensures r == [] || !IsJsWhiteSpace(r[0])
  {
    if s != [] && IsJsWhiteSpace(s[0]) then TrimStart(s[1..]) else s
  }

  /** Value of `c` as a digit in base 10 or 16 (letters of either case), if it is one. */
  function RadixDigit(c: char, radix: nat): (d: int)
    ensures -1 <= d < radix
  {
    if '0' <= c <= '9' && (c as int) - ('0' as int) < radix then (c as int) - ('0' as int)
    else if radix == 16 && 'a' <= c <= 'f' then (c as int) - ('a' as int) + 10
    else if radix == 16 && 'A' <= c <= 'F' then (c as int) - ('A' as int) + 10
    else -1
  }

  /** Length of the longest prefix of `s` made of digits in `radix`. */
  function DigitPrefixLength(s: string, radix: nat): (k: nat)
    ensures k <= |s|
  {
    if s != [] && RadixDigit(s[0], radix) >= 0 then 1 + DigitPrefixLength(s[1..], radix) else 0
  }

  function DigitsValueIn(s: string, radix: nat): nat
    requires forall i :: 0 <= i < |s| ==> RadixDigit(s[i], radix) >= 0
  {
    if s == [] then 0
    else radix * DigitsValueIn(s[..|s| - 1], radix) + RadixDigit(s[|s| - 1], radix)
  }

  lemma {:induction false} DigitPrefixIsDigits(s: string, radix: nat)
    ensures forall i :: 0 <= i < DigitPrefixLength(s, radix) ==> RadixDigit(s[i], radix) >= 0
  {
    if s != [] && RadixDigit(s[0], radix) >= 0 {
      DigitPrefixIsDigits(s[1..], radix);
    }
  }

  /** `parseInt(s)` with no radix argument: skip leading white space, read an optional
      sign, then a `0x`/`0X` prefix selects base 16; the longest run of digits that
      follows is the value, and `NaN` when there is none. */
  function ParseInt(s: string): (r: Value)
    ensures r.Num? || r.NaN?
  {
    var t := TrimStart(s);
    var negative := t != [] && t[0] == '-';
    var u := if t != [] && (t[0] == '-' || t[0] == '+') then t[1..] else t;
    var hex := |u| >= 2 && u[0] == '0' && (u[1] == 'x' || u[1] == 'X');
    var radix := if hex then 16 else 10;
    var body := if hex then u[2..] else u;
    var k := DigitPrefixLength(body, radix);
    if k == 0 then NaN
    else
      var m := PrefixValue(body, radix);
      Num(if negative then -(m as int) else m)
  }

  /** Value of the longest run of digits in `radix` that starts `s`. */
  function PrefixValue(s: string, radix: nat): nat {
    var p := s[..DigitPrefixLength(s, radix)];
    DigitPrefixIsDigits(s, radix);
    assert forall i :: 0 <= i < |p| ==> p[i] == s[i];
    DigitsValueIn(p, radix)
  }

  /** The run of decimal digits that starts `p + rest` is exactly `p` when `rest` does not
      go on with a digit. */
  lemma {:induction false} DigitRun(p: string, rest: string)
    requires AllDigits(p)
    requires rest == [] || RadixDigit(rest[0], 10) < 0
    ensures DigitPrefixLength(p + rest, 10) == |p|
  {
    if p == [] {
      assert p + rest == rest;
    } else {
      assert (p + rest)[0] == p[0] && (p + rest)[1..] == p[1..] + rest;
      DigitRun(p[1..], rest);
    }
  }

  /** In base 10, reading digits with `RadixDigit` agrees with `DigitValue`. */
  lemma {:induction false} DecimalDigitsValue(s: string)
    requires AllDigits(s)
    ensures forall i :: 0 <= i < |s| ==> RadixDigit(s[i], 10) >= 0
    ensures DigitsValueIn(s, 10) == DigitsValue(s)
  {
    if s != [] {
      DecimalDigitsValue(s[..|s| - 1]);
    }
  }

  /** `parseInt` of the decimal text of `n`, followed by anything that is not a further
      digit (nor an `x` that would turn `0` into a hexadecimal prefix), is `n`. */
  lemma ParseIntOfDecimal(n: nat, rest: string)
    requires rest == [] || RadixDigit(rest[0], 10) < 0
    requires n == 0 && rest != [] ==> rest[0] != 'x' && rest[0] != 'X'
    ensures ParseInt(NatToString(n) + rest) == Num(n)
  {
    var p := NatToString(n);
    var s := p + rest;
    assert s[0] == p[0];
    if n >= 10 {
      assert s[1] == p[1];
    } else if n > 0 {
      assert p == [DigitChar(n)];
    }
    ParseIntOfDigits(s);
    DecimalPrefixValue(n, rest);
  }

  /** Text that starts with a decimal digit, and not with `0x`, is read in base 10. */
  lemma ParseIntOfDigits(s: string)
    requires s != [] && IsDigit(s[0])
    requires !(|s| >= 2 && s[0] == '0' && (s[1] == 'x' || s[1] == 'X'))
    ensures ParseInt(s) == Num(PrefixValue(s, 10))
  {
    assert !IsJsWhiteSpace(s[0]);
    assert TrimStart(s) == s;
    assert s[0] != '-' && s[0] != '+';
    assert RadixDigit(s[0], 10) >= 0;
    assert DigitPrefixLength(s, 10) >= 1;
  }

  /** The run of digits that starts `NatToString(n) + rest` has the value `n`. */
  lemma DecimalPrefixValue(n: nat, rest: string)
    requires rest == [] || RadixDigit(rest[0], 10) < 0
    ensures PrefixValue(NatToString(n) + rest, 10) == n
  {
    var p := NatToString(n);
    DigitRun(p, rest);
    assert (p + rest)[..|p|] == p;
    DecimalDigitsValue(p);
    DigitsOfNat(n);
  }

  /** `parseInt` of text that starts with neither white space, a sign nor a digit is `NaN`. */
  lemma ParseIntWithoutDigits(s: string)
    requires s == [] || (!IsJsWhiteSpace(s[0]) && s[0] != '-' && s[0] != '+' && RadixDigit(s[0], 10) < 0)
    ensures ParseInt(s) == NaN
  {
    assert TrimStart(s) == s;
  }
}
