/** The JavaScript value rules the app's code leans on: number truthiness
    and NaN-propagating arithmetic, `toLowerCase`, `includes`,
    `parseInt` and the text of an integer. */
module Js {

  datatype Option<T> = None | Some(value: T)

  /** A JavaScript number: NaN or a finite value (infinities never arise in
      the app). A numeric field that is missing reads as `undefined`, which
      behaves exactly as NaN under every operation used here (`||`, `*`, `+`,
      `Number(...)`, `> 0`), so a missing field is written NaN. */
  datatype Number = NaN | Num(v: real)

  /** Truthiness of a number: NaN and 0 are falsy, every other number is truthy. */
  predicate Truthy(x: Number) {
    x.Num? && x.v != 0.0
  }

  /** `a || b` on numbers. */
  function Or(a: Number, b: Number): Number {
    if Truthy(a) then a else b
  }

  /** `a + b`: NaN if either side is NaN. */
  function Plus(a: Number, b: Number): Number {
    if a.Num? && b.Num? then Num(a.v + b.v) else NaN
  }

  /** `a * b`: NaN if either side is NaN. */
  function Times(a: Number, b: Number): Number {
    if a.Num? && b.Num? then Num(a.v * b.v) else NaN
  }

  function FromInt(n: int): Number {
    Num(n as real)
  }

  /** `(a + (l + p)) + c == ((a + l) + c) + p`, NaN included. */
  lemma ShiftSummand(a: Number, l: Number, p: Number, c: Number)
    ensures Plus(Plus(a, Plus(l, p)), c) == Plus(Plus(Plus(a, l), c), p)
  {
  }

  // ---------------------------------------------------------------------
  // Strings

  /** `toLowerCase` on one character; only ASCII letters are mapped. */
  function LowerChar(c: char): char {
    if 'A' <= c <= 'Z' then (c as int + 32) as char else c
  }

  function ToLower(s: string): (r: string)
    ensures |r| == |s|
    ensures forall i :: 0 <= i < |s| ==> r[i] == LowerChar(s[i])
  {
    if s == [] then [] else [LowerChar(s[0])] + ToLower(s[1..])
  }

  /** `t` occurs in `s` starting at index `i`. */
  predicate OccursAt(s: string, t: string, i: int) {
    0 <= i && i + |t| <= |s| && s[i..i + |t|] == t
  }

  /** `s.includes(t)`, as a left-to-right scan. */
  function Includes(s: string, t: string): bool
    decreases |s|
  {
    if |t| > |s| then false
    else if s[..|t|] == t then true
    else Includes(s[1..], t)
  }

  /** The scan finds `t` exactly when `t` occurs somewhere in `s`. */
  lemma {:induction false} IncludesIff(s: string, t: string)
    ensures Includes(s, t) <==> exists i :: OccursAt(s, t, i)
    decreases |s|
  {
    if |t| > |s| {
      forall i | OccursAt(s, t, i) ensures false { }
    } else if s[..|t|] == t {
      assert OccursAt(s, t, 0);
    } else {
      IncludesIff(s[1..], t);
      if Includes(s, t) {
        var i :| OccursAt(s[1..], t, i);
        assert s[1..][i..i + |t|] == s[i + 1..i + 1 + |t|];
        assert OccursAt(s, t, i + 1);
      } else {
        forall i | OccursAt(s, t, i) ensures false {
          assert i != 0;
          assert s[1..][i - 1..i - 1 + |t|] == s[i..i + |t|];
          assert OccursAt(s[1..], t, i - 1);
        }
      }
    }
  }

  /** Every string includes the empty string. */
  lemma IncludesEmpty(s: string)
    ensures Includes(s, "")
  {
    IncludesIff(s, "");
    assert OccursAt(s, "", 0);
  }

  // ---------------------------------------------------------------------
  // parseInt and Number.prototype.toString

  /** The white space and line terminators that `parseInt` skips. */
  predicate IsSpace(c: char) {
    c == ' ' || c == '\t' || c == '\n' || c == '\r' || c == '\U{000B}' || c == '\U{000C}'
    || c == '\U{00A0}' || c == '\U{1680}' || ('\U{2000}' <= c <= '\U{200A}')
    || c == '\U{2028}' || c == '\U{2029}' || c == '\U{202F}' || c == '\U{205F}'
    || c == '\U{3000}' || c == '\U{FEFF}'
  }

  function TrimStart(s: string): (r: string)
    ensures |r| <= |s| && r == s[|s| - |r|..]
    ensures r == [] || !IsSpace(r[0])
  {
    if s != [] && IsSpace(s[0]) then TrimStart(s[1..]) else s
  }

  /** The value of a digit in any radix up to 36, and 36 for a character
      that is no digit at all. */
  function DigitValue(c: char): nat {
    if '0' <= c <= '9' then c as nat - '0' as nat
    else if 'a' <= c <= 'z' then c as nat - 'a' as nat + 10
    else if 'A' <= c <= 'Z' then c as nat - 'A' as nat + 10
    else 36
  }

  /** The number of leading characters of `s` that are digits in `radix`. */
  function DigitRun(s: string, radix: nat): (k: nat)
    ensures k <= |s|
    ensures forall i :: 0 <= i < k ==> DigitValue(s[i]) < radix
    ensures k < |s| ==> DigitValue(s[k]) >= radix
  {
    if s != [] && DigitValue(s[0]) < radix then 1 + DigitRun(s[1..], radix) else 0
  }

  /** The positional value of a digit string, read left to right. */
  function ValueOf(digits: string, radix: nat): nat {
    if digits == [] then 0
    else ValueOf(digits[..|digits| - 1], radix) * radix + DigitValue(digits[|digits| - 1])
  }

  /** `parseInt(s)` with no radix: skip leading white space, then read an
      optionally signed magnitude; no digit at all gives NaN, written None. */
  function ParseInt(s: string): Option<int> {
    ParseSigned(TrimStart(s))
  }

  /** One leading `-` negates the magnitude; one leading `+` is dropped. */
  function ParseSigned(t: string): Option<int> {
    var negative := t != [] && t[0] == '-';
    var u := if t != [] && (t[0] == '-' || t[0] == '+') then t[1..] else t;
    match ParseMagnitude(u)
    case None => None
    case Some(m) => Some(if negative then -(m as int) else m)
  }

  /** The unsigned part of `parseInt`: a `0x`/`0X` prefix selects radix 16,
      otherwise radix 10, and the longest run of digits that follows is read. */
  function ParseMagnitude(u: string): Option<nat> {
    var hex := |u| >= 2 && u[0] == '0' && (u[1] == 'x' || u[1] == 'X');
    var radix := if hex then 16 else 10;
    var w := if hex then u[2..] else u;
    var k := DigitRun(w, radix);
    if k == 0 then None else Some(ValueOf(w[..k], radix))
  }

  function DigitChar(d: nat): char
    requires d < 10
  {
    ('0' as int + d) as char
  }

  function NatToString(n: nat): string
    decreases n
  {
    if n < 10 then [DigitChar(n)] else NatToString(n / 10) + [DigitChar(n % 10)]
  }

  /** `n.toString()` for an integer `n` with |n| < 10^21; from 10^21 on,
      JavaScript prints the exponent form instead. */
  function IntToString(n: int): string {
    if n < 0 then "-" + NatToString(-n) else NatToString(n)
  }

  predicate AllDecimalDigits(s: string) {
    forall i :: 0 <= i < |s| ==> '0' <= s[i] <= '9'
  }

  lemma {:induction false} NatToStringDigits(n: nat)
    ensures |NatToString(n)| >= 1
    ensures AllDecimalDigits(NatToString(n))
    decreases n
  {
    if n >= 10 {
      NatToStringDigits(n / 10);
    }
  }

  lemma {:induction false} DigitRunOfDigits(s: string)
    requires AllDecimalDigits(s)
    ensures DigitRun(s, 10) == |s|
    decreases |s|
  {
    if s != [] {
      DigitRunOfDigits(s[1..]);
    }
  }

  lemma {:induction false} ValueOfNatToString(n: nat)
    ensures ValueOf(NatToString(n), 10) == n
    decreases n
  {
    if n >= 10 {
      var p := NatToString(n / 10);
      var s := p + [DigitChar(n % 10)];
      assert s[..|s| - 1] == p;
      ValueOfNatToString(n / 10);
    }
  }

  lemma MagnitudeOfNatToString(m: nat)
    ensures ParseMagnitude(NatToString(m)) == Some(m)
  {
    var d := NatToString(m);
    NatToStringDigits(m);
    DigitRunOfDigits(d);
    ValueOfNatToString(m);
    assert d[..|d|] == d;
  }

  lemma TrimStartKeeps(s: string)
    requires s != [] && !IsSpace(s[0])
    ensures TrimStart(s) == s
  {
  }

  lemma ParseDigits(d: string, m: nat)
    requires |d| >= 1 && '0' <= d[0] <= '9'
    requires ParseMagnitude(d) == Some(m)
    ensures ParseInt(d) == Some(m)
  {
    TrimStartKeeps(d);
  }

  lemma ParseNegatedDigits(d: string, m: nat)
    requires |d| >= 1
    requires ParseMagnitude(d) == Some(m)
    ensures ParseInt(['-'] + d) == Some(-(m as int))
  {
    var s := ['-'] + d;
    TrimStartKeeps(s);
    assert s[1..] == d;
  }

  /** Parsing the text of an integer gives back that integer. */
  lemma ParseIntRoundTrip(n: int)
    ensures ParseInt(IntToString(n)) == Some(n)
  {
    var m: nat := if n < 0 then -n else n;
    NatToStringDigits(m);
    MagnitudeOfNatToString(m);
    if n < 0 {
      ParseNegatedDigits(NatToString(m), m);
    } else {
      ParseDigits(NatToString(m), m);
    }
  }
}
