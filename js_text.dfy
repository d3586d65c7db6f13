/**
 * The JavaScript string and number built-ins the back-office relies on,
 * written out over `seq<char>`: `startsWith`, `slice(-n)`, `padStart`,
 * `Number.prototype.toString`, `parseInt`, `toLowerCase`, `replace` of a
 * single character, `Array.prototype.join`, and the ordering the database
 * uses for `orderBy: { memberCode: 'desc' }` (code-point order).
 */
module JsText {
  import opened Wrappers

  type Pos = n: nat | n > 0 witness 1

  predicate StartsWith(s: string, prefix: string) {
    |prefix| <= |s| && s[..|prefix|] == prefix
  }

  /** `s.slice(-n)` for a positive `n`: the last `n` characters, or all of `s`. */
  function SliceLast(s: string, n: Pos): (r: string)
    ensures |r| == if |s| < n then |s| else n
    ensures s == s[..|s| - |r|] + r
  {
    if |s| <= n then s else s[|s| - n..]
  }

  function Repeat(c: char, n: nat): (r: string)
    ensures |r| == n
    ensures forall i :: 0 <= i < n ==> r[i] == c
  {
    if n == 0 then [] else Repeat(c, n - 1) + [c]
  }

  /** `s.padStart(n, c)` with a one-character pad. */
  function PadStart(s: string, n: nat, c: char): (r: string)
    ensures |r| == if |s| < n then n else |s|
    ensures r == Repeat(c, |r| - |s|) + s
  {
    if |s| >= n then s else Repeat(c, n - |s|) + s
  }

  predicate IsDigit(c: char) {
    '0' <= c <= '9'
  }

  predicate AllDigits(s: string) {
    forall i :: 0 <= i < |s| ==> IsDigit(s[i])
  }

  function DigitChar(d: nat): (c: char)
    requires d < 10
    ensures IsDigit(c) && c as int - '0' as int == d
  {
    (d + '0' as int) as char
  }

  function DigitOf(c: char): (d: nat)
    requires IsDigit(c)
    ensures d < 10
  {
    c as int - '0' as int
  }

  /** The value of a decimal digit string (empty string: 0). */
  function DigitsValue(s: string): nat
    requires AllDigits(s)
  {
    if s == [] then 0 else 10 * DigitsValue(s[..|s| - 1]) + DigitOf(s[|s| - 1])
  }

  function Pow10(k: nat): (p: nat)
    ensures p >= 1
  {
    if k == 0 then 1 else 10 * Pow10(k - 1)
  }

  /** Decimal text of a natural number, no leading zeros. */
  function NatToString(n: nat): string
    decreases n
  {
    if n < 10 then [DigitChar(n)] else NatToString(n / 10) + [DigitChar(n % 10)]
  }

  /** `String(i)` for an integer (safe-integer range; no exponent notation). */
  function IntToString(i: int): string {
    if i < 0 then "-" + NatToString(-i) else NatToString(i)
  }

  /** A JavaScript number as far as this system produces them: an integer or NaN. */
  datatype Number = Num(value: int) | NaN {
    /** `x + k`; NaN absorbs. */
    function Plus(k: int): Number {
      match this
      case Num(v) => Num(v + k)
      case NaN => NaN
    }

    /** `x.toString()`. */
    function ToText(): string {
      match this
      case Num(v) => IntToString(v)
      case NaN => "NaN"
    }
  }

  /** The longest prefix of `s` made of decimal digits. */
  function LeadingDigits(s: string): (r: string)
    ensures AllDigits(r) && StartsWith(s, r)
    ensures |r| < |s| ==> !IsDigit(s[|r|])
  {
    if s == [] || !IsDigit(s[0]) then [] else [s[0]] + LeadingDigits(s[1..])
  }

  /**
   * `parseInt(s)` in base 10: an optional sign, then the leading digits;
   * NaN when there are none. A leading "0x" hex prefix and leading white
   * space are not modelled.
   */
  function ParseInt(s: string): Number {
    var signed := |s| > 0 && (s[0] == '-' || s[0] == '+');
    var body := if signed then s[1..] else s;
    var digits := LeadingDigits(body);
    if digits == [] then NaN
    else
      var v: int := DigitsValue(digits);
      if signed && s[0] == '-' then Num(-v) else Num(v)
  }

  function LowerChar(c: char): char {
    if 'A' <= c <= 'Z' then (c as int + 32) as char else c
  }

  /** `s.toLowerCase()` on the ASCII letters. */
  function ToLower(s: string): (r: string)
    ensures |r| == |s|
    ensures forall i :: 0 <= i < |s| ==> r[i] == LowerChar(s[i])
  {
    seq(|s|, i requires 0 <= i < |s| => LowerChar(s[i]))
  }

  /** `s.replace(from, to)` with one-character strings: only the first occurrence changes. */
  function ReplaceFirst(s: string, from: char, to: char): (r: string)
    ensures |r| == |s|
  {
    if s == [] then []
    else if s[0] == from then [to] + s[1..]
    else [s[0]] + ReplaceFirst(s[1..], from, to)
  }

  /**
   * `replace` changes the first occurrence and nothing else; without an
   * occurrence the string is returned as it is.
   */
  lemma {:induction false} ReplaceFirstChangesOnlyFirst(s: string, from: char, to: char, i: nat)
    requires i <= |s|
    requires forall j :: 0 <= j < i ==> s[j] != from
    ensures i == |s| ==> ReplaceFirst(s, from, to) == s
    ensures i < |s| && s[i] == from ==> ReplaceFirst(s, from, to) == s[..i] + [to] + s[i + 1..]
  {
    if s == [] {
    } else if s[0] == from {
      assert s[..0] + [to] + s[1..] == [to] + s[1..];
    } else if i > 0 {
      var rest := s[1..];
      forall j | 0 <= j < i - 1 ensures rest[j] != from {
        assert rest[j] == s[j + 1];
      }
      ReplaceFirstChangesOnlyFirst(rest, from, to, i - 1);
      assert ReplaceFirst(s, from, to) == [s[0]] + ReplaceFirst(rest, from, to);
      if i == |s| {
        assert s == [s[0]] + rest;
      } else if s[i] == from {
        assert rest[i - 1] == from;
        assert s[..i] == [s[0]] + rest[..i - 1];
        assert s[i + 1..] == rest[i..];
        assert [s[0]] + (rest[..i - 1] + [to] + rest[i..]) == s[..i] + [to] + s[i + 1..];
      }
    }
  }

  /** Replacing in `a + [from] + b`, where `a` holds no `from`, changes just that character. */
  lemma ReplaceFirstBetween(a: string, b: string, from: char, to: char)
    requires from !in a
    ensures ReplaceFirst(a + [from] + b, from, to) == a + [to] + b
  {
    var s := a + [from] + b;
    assert s[|a|] == from;
    forall j | 0 <= j < |a| ensures s[j] != from {
      assert s[j] == a[j];
    }
    ReplaceFirstChangesOnlyFirst(s, from, to, |a|);
    assert s[..|a|] == a && s[|a| + 1..] == b;
  }

  /** Lowercasing commutes with replacing a non-letter by a character lowercasing leaves alone. */
  lemma {:induction false} ToLowerReplaceFirst(s: string, from: char, to: char)
    requires LowerChar(to) == to
    requires !('A' <= from <= 'Z') && !('a' <= from <= 'z')
    ensures ToLower(ReplaceFirst(s, from, to)) == ReplaceFirst(ToLower(s), from, to)
  {
    if s != [] {
      ToLowerReplaceFirst(s[1..], from, to);
      assert ToLower(s)[1..] == ToLower(s[1..]);
      if s[0] == from {
        assert ToLower([to] + s[1..]) == [to] + ToLower(s[1..]);
      } else {
        assert LowerChar(s[0]) != from;
        assert ToLower([s[0]] + ReplaceFirst(s[1..], from, to)) == [LowerChar(s[0])] + ToLower(ReplaceFirst(s[1..], from, to));
      }
    }
  }

  /** `parts.join(sep)`. */
  function Join(parts: seq<string>, sep: string): string {
    if parts == [] then ""
    else if |parts| == 1 then parts[0]
    else parts[0] + sep + Join(parts[1..], sep)
  }

  lemma Join2(a: string, b: string, sep: string)
    ensures Join([a, b], sep) == a + sep + b
  {
    assert [a, b][1..] == [b];
  }

  lemma Join3(a: string, b: string, c: string, sep: string)
    ensures Join([a, b, c], sep) == a + sep + b + sep + c
  {
    assert [a, b, c][1..] == [b, c];
    Join2(b, c, sep);
  }

  /** Code-point lexicographic order: `a < b`. */
  predicate StrLess(a: string, b: string) {
    if a == [] then b != []
    else if b == [] then false
    else if a[0] != b[0] then a[0] < b[0]
    else StrLess(a[1..], b[1..])
  }

  // ---------------------------------------------------------------------
  // Decimal digits

  lemma {:induction false} NatToStringDigits(n: nat)
    ensures AllDigits(NatToString(n)) && |NatToString(n)| >= 1
    ensures DigitsValue(NatToString(n)) == n
    decreases n
  {
    if n >= 10 {
      NatToStringDigits(n / 10);
      var s := NatToString(n / 10) + [DigitChar(n % 10)];
      assert s[..|s| - 1] == NatToString(n / 10);
    }
  }

  lemma {:induction false} NatToStringLength(n: nat, k: nat)
    requires n < Pow10(k)
    ensures |NatToString(n)| <= if k == 0 then 1 else k
    decreases n
  {
    if n >= 10 {
      assert Pow10(0) == 1 && Pow10(1) == 10;
      NatToStringLength(n / 10, k - 1);
    }
  }

  lemma {:induction false} NatToStringLongEnough(n: nat, k: nat)
    requires n >= Pow10(k)
    ensures |NatToString(n)| >= k + 1
    decreases n
  {
    if k > 0 {
      NatToStringLongEnough(n / 10, k - 1);
    }
  }

  lemma {:induction false} LeadingDigitsOfDigits(s: string)
    requires AllDigits(s)
    ensures LeadingDigits(s) == s
  {
    if s != [] {
      LeadingDigitsOfDigits(s[1..]);
    }
  }

  /** Leading zeros do not change the value of a digit string. */
  lemma {:induction false} LeadingZerosValue(z: nat, s: string)
    requires AllDigits(s)
    ensures AllDigits(Repeat('0', z) + s)
    ensures DigitsValue(Repeat('0', z) + s) == DigitsValue(s)
    decreases |s|
  {
    var t := Repeat('0', z) + s;
    if s == [] {
      assert t == Repeat('0', z);
      ZerosValue(z);
    } else {
      var init := s[..|s| - 1];
      LeadingZerosValue(z, init);
      assert t[..|t| - 1] == Repeat('0', z) + init;
    }
  }

  lemma {:induction false} ZerosValue(z: nat)
    ensures AllDigits(Repeat('0', z)) && DigitsValue(Repeat('0', z)) == 0
  {
    if z > 0 {
      ZerosValue(z - 1);
      var r := Repeat('0', z);
      assert r[..|r| - 1] == Repeat('0', z - 1);
    }
  }

  /** `parseInt` reads back what `toString` wrote. */
  lemma ParseIntOfIntToString(i: int)
    ensures ParseInt(IntToString(i)) == Num(i)
  {
    var n: nat := if i < 0 then -i else i;
    NatToStringDigits(n);
    LeadingDigitsOfDigits(NatToString(n));
    if i < 0 {
      assert IntToString(i)[1..] == NatToString(n);
    } else {
      assert IntToString(i) == NatToString(n);
      assert NatToString(n)[0] != '-' && NatToString(n)[0] != '+';
    }
  }

  /** A non-empty digit string parses to its value. */
  lemma ParseIntOfDigits(p: string)
    requires AllDigits(p) && p != []
    ensures ParseInt(p) == Num(DigitsValue(p))
  {
    LeadingDigitsOfDigits(p);
    assert IsDigit(p[0]);
  }

  /** A zero-padded natural number still parses back to itself. */
  lemma ParseIntOfPadded(n: nat, width: nat)
    ensures ParseInt(PadStart(NatToString(n), width, '0')) == Num(n)
  {
    var s := NatToString(n);
    NatToStringDigits(n);
    var p := PadStart(s, width, '0');
    LeadingZerosValue(|p| - |s|, s);
    ParseIntOfDigits(p);
  }

  /** Euclidean division is unique: any quotient/remainder pair is the one `/` and `%` give. */
  lemma ModUnique(n: nat, m: nat, q: nat, r: nat)
    requires m > 0 && n == m * q + r && r < m
    ensures n % m == r
  {
    var q', r' := n / m, n % m;
    assert n == m * q' + r';
    if q < q' {
      MulMonotone(q + 1, q', m);
      MulStep(q, m);
    } else if q' < q {
      MulMonotone(q' + 1, q, m);
      MulStep(q', m);
    }
  }

  lemma ModStep(v: nat, d: nat, p: nat)
    requires d < 10 && p >= 1
    ensures 10 * (v % p) + d == (10 * v + d) % (10 * p)
  {
    var a, b := v / p, v % p;
    assert v == p * a + b;
    assert 10 * (p * a) == (10 * p) * a;
    assert 10 * v + d == (10 * p) * a + (10 * b + d);
    ModUnique(10 * v + d, 10 * p, a, 10 * b + d);
  }

  /** `ModStep` with every quantity named, so that a caller's terms match it as they are. */
  lemma ModStepAt(a: nat, b: nat, n: nat, m: nat, v: nat, d: nat, p: nat)
    requires d < 10 && p >= 1
    requires a == 10 * b + d && b == v % p && n == 10 * v + d && m == 10 * p
    ensures a == n % m
  {
    ModStep(v, d, p);
  }

  lemma SliceLastOfDigits(s: string, k: Pos)
    requires AllDigits(s)
    ensures AllDigits(SliceLast(s, k))
  {
    var r := SliceLast(s, k);
    assert forall i | 0 <= i < |r| :: r[i] == s[|s| - |r| + i];
  }

  /** A digit string no longer than k is its own last k characters, and its value is below 10^k. */
  lemma SliceLastDigitsShort(s: string, k: Pos)
    requires AllDigits(s) && |s| <= k
    ensures DigitsValue(SliceLast(s, k)) == DigitsValue(s) % Pow10(k)
  {
    assert SliceLast(s, k) == s;
    DigitsValueBound(s);
    Pow10Monotone(|s|, k);
    ModUnique(DigitsValue(s), Pow10(k), 0, DigitsValue(s));
  }

  /** The last character of a digit string is its value modulo 10. */
  lemma SliceLastDigitsOne(s: string)
    requires AllDigits(s) && |s| > 1
    ensures DigitsValue(SliceLast(s, 1)) == DigitsValue(s) % Pow10(1)
  {
    var r := SliceLast(s, 1);
    assert r == s[|s| - 1..];
    assert r[..0] == [];
    assert DigitsValue(r) == DigitOf(s[|s| - 1]);
    ModUnique(DigitsValue(s), Pow10(1), DigitsValue(s[..|s| - 1]), DigitOf(s[|s| - 1]));
  }

  /** The value of a non-empty digit string: ten times that of all but its last digit, plus that digit. */
  lemma DigitsValueInit(s: string)
    requires AllDigits(s) && s != []
    ensures AllDigits(s[..|s| - 1])
    ensures DigitsValue(s) == 10 * DigitsValue(s[..|s| - 1]) + DigitOf(s[|s| - 1])
  {
  }

  /** Dropping the last character of the last k characters leaves the last k - 1 characters of the rest. */
  lemma SliceLastInit(s: string, k: Pos)
    requires |s| > k > 1
    ensures SliceLast(s, k)[..k - 1] == SliceLast(s[..|s| - 1], k - 1)
    ensures SliceLast(s, k)[k - 1] == s[|s| - 1]
  {
    assert SliceLast(s, k)[..k - 1] == s[|s| - k..|s| - 1];
    assert SliceLast(s[..|s| - 1], k - 1) == s[|s| - k..|s| - 1];
  }

  /** The last k characters of a digit string spell its value modulo 10^k. */
  lemma {:induction false} SliceLastDigitsValue(s: string, k: Pos)
    requires AllDigits(s)
    ensures AllDigits(SliceLast(s, k))
    ensures DigitsValue(SliceLast(s, k)) == DigitsValue(s) % Pow10(k)
    decreases |s|
  {
    SliceLastOfDigits(s, k);
    if |s| <= k {
      SliceLastDigitsShort(s, k);
    } else if k == 1 {
      SliceLastDigitsOne(s);
    } else {
      var init, d := s[..|s| - 1], DigitOf(s[|s| - 1]);
      var k': Pos := k - 1;
      var r := SliceLast(s, k);
      SliceLastInit(s, k);
      SliceLastDigitsValue(init, k');
      DigitsValueInit(r);
      DigitsValueInit(s);
      assert Pow10(k) == 10 * Pow10(k');
      ModStepAt(DigitsValue(r), DigitsValue(SliceLast(init, k')), DigitsValue(s), Pow10(k),
                DigitsValue(init), d, Pow10(k'));
    }
  }

  lemma {:induction false} Pow10Monotone(i: nat, j: nat)
    requires i <= j
    ensures Pow10(i) <= Pow10(j)
    decreases j
  {
    if i < j {
      Pow10Monotone(i, j - 1);
    }
  }

  /** The last k characters of a number's decimal text spell n modulo 10^k. */
  lemma SliceLastValue(n: nat, k: Pos)
    ensures AllDigits(SliceLast(NatToString(n), k))
    ensures DigitsValue(SliceLast(NatToString(n), k)) == n % Pow10(k)
  {
    NatToStringDigits(n);
    SliceLastDigitsValue(NatToString(n), k);
  }

  // ---------------------------------------------------------------------
  // Code-point order

  lemma {:induction false} StrLessIrreflexive(a: string)
    ensures !StrLess(a, a)
  {
    if a != [] {
      StrLessIrreflexive(a[1..]);
    }
  }

  lemma {:induction false} StrLessTransitive(a: string, b: string, c: string)
    requires StrLess(a, b) && StrLess(b, c)
    ensures StrLess(a, c)
  {
    if a != [] && b != [] && c != [] && a[0] == b[0] && b[0] == c[0] {
      StrLessTransitive(a[1..], b[1..], c[1..]);
    }
  }

  lemma {:induction false} StrLessTotal(a: string, b: string)
    requires a != b
    ensures StrLess(a, b) || StrLess(b, a)
  {
    if a != [] && b != [] && a[0] == b[0] {
      assert a == [a[0]] + a[1..] && b == [b[0]] + b[1..];
      assert a[1..] != b[1..];
      StrLessTotal(a[1..], b[1..]);
    }
  }

  lemma {:induction false} StrLessAsymmetric(a: string, b: string)
    requires StrLess(a, b)
    ensures !StrLess(b, a)
  {
    if StrLess(b, a) {
      StrLessTransitive(a, b, a);
      StrLessIrreflexive(a);
    }
  }

  /** A shared prefix does not change the order. */
  lemma {:induction false} StrLessCommonPrefix(p: string, x: string, y: string)
    ensures StrLess(p + x, p + y) == StrLess(x, y)
  {
    if p != [] {
      assert (p + x)[1..] == p[1..] + x;
      assert (p + y)[1..] == p[1..] + y;
      StrLessCommonPrefix(p[1..], x, y);
    } else {
      assert p + x == x && p + y == y;
    }
  }

  /** The arithmetic of peeling the first digit, with every quantity named. */
  lemma FrontStepAt(total: nat, initValue: nat, first: nat, q: nat, initTail: nat, last: nat,
                    weight: nat, tailValue: nat)
    requires total == 10 * initValue + last
    requires initValue == first * q + initTail
    requires weight == 10 * q && tailValue == 10 * initTail + last
    ensures total == first * weight + tailValue
  {
    assert 10 * (first * q) == first * (10 * q);
  }

  lemma {:induction false} DigitsValueFront(s: string)
    requires AllDigits(s) && s != []
    ensures AllDigits(s[1..])
    ensures DigitsValue(s) == DigitOf(s[0]) * Pow10(|s| - 1) + DigitsValue(s[1..])
    decreases |s|
  {
    if |s| > 1 {
      var init, tail := s[..|s| - 1], s[1..];
      DigitsValueFront(init);
      assert init[1..] == tail[..|tail| - 1];
      assert init[0] == s[0] && tail[|tail| - 1] == s[|s| - 1];
      DigitsValueInit(s);
      DigitsValueInit(tail);
      assert Pow10(|s| - 1) == 10 * Pow10(|init| - 1);
      FrontStepAt(DigitsValue(s), DigitsValue(init), DigitOf(s[0]), Pow10(|init| - 1),
                  DigitsValue(init[1..]), DigitOf(s[|s| - 1]), Pow10(|s| - 1), DigitsValue(tail));
    } else {
      assert s[..|s| - 1] == [];
      assert s[1..] == [];
    }
  }

  lemma {:induction false} DigitsValueBound(s: string)
    requires AllDigits(s)
    ensures DigitsValue(s) < Pow10(|s|)
    decreases |s|
  {
    if s != [] {
      DigitsValueBound(s[..|s| - 1]);
    }
  }

  /** On digit strings of one length, code-point order is numeric order. */
  lemma {:induction false} StrLessDigits(a: string, b: string)
    requires AllDigits(a) && AllDigits(b) && |a| == |b|
    ensures StrLess(a, b) <==> DigitsValue(a) < DigitsValue(b)
    decreases |a|
  {
    if a != [] {
      DigitsValueFront(a);
      DigitsValueFront(b);
      DigitsValueBound(a[1..]);
      DigitsValueBound(b[1..]);
      var p := Pow10(|a| - 1);
      var da, db := DigitOf(a[0]), DigitOf(b[0]);
      if da < db {
        FrontDigitDominates(da, db, p, DigitsValue(a[1..]), DigitsValue(b[1..]));
      } else if db < da {
        FrontDigitDominates(db, da, p, DigitsValue(b[1..]), DigitsValue(a[1..]));
      } else {
        StrLessDigits(a[1..], b[1..]);
      }
    }
  }

  lemma MulStep(a: nat, p: nat)
    ensures (a + 1) * p == a * p + p
  {
  }

  lemma {:induction false} MulMonotone(d: nat, e: nat, p: nat)
    requires d <= e
    ensures d * p <= e * p
    decreases e - d
  {
    if d < e {
      MulMonotone(d, e - 1, p);
      MulStep(e - 1, p);
    }
  }

  lemma FrontDigitDominates(d: nat, e: nat, p: nat, x: nat, y: nat)
    requires d < e && x < p
    ensures d * p + x < e * p + y
  {
    MulMonotone(d + 1, e, p);
    MulStep(d, p);
  }
}
