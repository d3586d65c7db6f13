/**
 * Identifier generators and date presets (src/lib/utils.ts).
 *
 * The database lookup in `generateMemberCode` becomes an input (the greatest
 * existing code with the year's prefix, or none); the clock and the random
 * source of `generateTransactionCode` become inputs too.
 */
module Utils {
  import opened Wrappers
  import opened JsText

  /** "MEM" followed by the last two digits of the year. */
  function MemberCodePrefix(year: nat): (p: string)
    ensures |p| <= 5
    ensures StartsWith(p, "MEM")
  {
    "MEM" + SliceLast(NatToString(year), 2)
  }

  /** From year 10 on, the year contributes exactly two characters. */
  lemma MemberCodePrefixLength(year: nat)
    requires year >= 10
    ensures |MemberCodePrefix(year)| == 5
  {
    assert Pow10(1) == 10;
    NatToStringLongEnough(year, 1);
  }

  /** The number the next code carries: 1, or one more than the last code's final four characters. */
  function NextMemberNumber(last: Option<string>): Number {
    match last
    case None => Num(1)
    case Some(code) => ParseInt(SliceLast(code, 4)).Plus(1)
  }

  /** `generateMemberCode()` for the given year and the greatest code already stored under its prefix. */
  function GenerateMemberCode(year: nat, last: Option<string>): (code: string)
    ensures StartsWith(code, MemberCodePrefix(year))
    ensures |code| >= |MemberCodePrefix(year)| + 4
  {
    MemberCodePrefix(year) + PadStart(NextMemberNumber(last).ToText(), 4, '0')
  }

  /**
   * `findFirst({ where: { memberCode: { startsWith: prefix } }, orderBy: { memberCode: 'desc' } })`:
   * the greatest stored code in code-point order that carries the prefix.
   */
  function LastMemberCode(codes: seq<string>, prefix: string): (r: Option<string>)
    ensures r.None? <==> forall i :: 0 <= i < |codes| ==> !StartsWith(codes[i], prefix)
    ensures r.Some? ==> r.value in codes && StartsWith(r.value, prefix)
    ensures r.Some? ==> forall i :: 0 <= i < |codes| && StartsWith(codes[i], prefix) ==> !StrLess(r.value, codes[i])
  {
    if codes == [] then None
    else
      var rest := LastMemberCode(codes[1..], prefix);
      assert forall i :: 1 <= i < |codes| ==> codes[i] == codes[1..][i - 1];
      if !StartsWith(codes[0], prefix) then rest
      else if rest.None? then
        StrLessIrreflexive(codes[0]);
        Some(codes[0])
      else if StrLess(codes[0], rest.value) then
        StrLessAsymmetric(codes[0], rest.value);
        rest
      else
        var top := codes[0];
        StrLessIrreflexive(top);
        assert forall i :: 0 <= i < |codes| && StartsWith(codes[i], prefix) ==> !StrLess(top, codes[i]) by {
          forall i | 1 <= i < |codes| && StartsWith(codes[i], prefix)
            ensures !StrLess(top, codes[i])
          {
            assert !StrLess(rest.value, codes[1..][i - 1]);
            if StrLess(top, codes[i]) {
              if top != rest.value {
                StrLessTotal(top, rest.value);
                StrLessTransitive(rest.value, top, codes[i]);
              }
            }
          }
        }
        Some(top)
  }

  /** The code carrying number `n` under the year's prefix, as the generator writes it. */
  function MemberCodeFor(year: nat, n: nat): string {
    MemberCodePrefix(year) + PadStart(NatToString(n), 4, '0')
  }

  /** The four-character numeric suffix of a code below 10000. */
  lemma Padded4(n: nat)
    requires n < 10000
    ensures |PadStart(NatToString(n), 4, '0')| == 4
    ensures AllDigits(PadStart(NatToString(n), 4, '0'))
    ensures DigitsValue(PadStart(NatToString(n), 4, '0')) == n
  {
    assert Pow10(4) == 10000;
    NatToStringLength(n, 4);
    NatToStringDigits(n);
    var s := NatToString(n);
    LeadingZerosValue(4 - |s|, s);
  }

  /** Number 1 padded to four digits. */
  lemma FirstPad()
    ensures PadStart(NatToString(1), 4, '0') == "0001"
  {
    assert NatToString(1) == "1";
    assert Repeat('0', 1) == "0";
    assert Repeat('0', 2) == "00";
    assert Repeat('0', 3) == "000";
  }

  /** The first code of a year ends in "0001". */
  lemma FirstCodeOfYear(year: nat)
    ensures GenerateMemberCode(year, None) == MemberCodePrefix(year) + "0001"
  {
    assert NextMemberNumber(None).ToText() == NatToString(1);
    FirstPad();
  }

  /**
   * For a next number below 10000 the code is nine characters long (two-digit
   * year), and its last four characters parse back to that number.
   */
  lemma MemberCodeLayout(year: nat, last: Option<string>, n: nat)
    requires year >= 10
    requires NextMemberNumber(last) == Num(n) && n < 10000
    ensures GenerateMemberCode(year, last) == MemberCodeFor(year, n)
    ensures |GenerateMemberCode(year, last)| == 9
    ensures ParseInt(SliceLast(GenerateMemberCode(year, last), 4)) == Num(n)
  {
    Padded4(n);
    MemberCodePrefixLength(year);
    var pad := PadStart(NatToString(n), 4, '0');
    var code := MemberCodePrefix(year) + pad;
    assert SliceLast(code, 4) == pad;
    ParseIntOfPadded(n, 4);
  }

  /** A well-formed code yields the next number. */
  lemma NextAfter(year: nat, k: nat)
    requires year >= 10 && k < 10000
    ensures NextMemberNumber(Some(MemberCodeFor(year, k))) == Num(k + 1)
  {
    Padded4(k);
    var pad := PadStart(NatToString(k), 4, '0');
    assert SliceLast(MemberCodeFor(year, k), 4) == pad;
    ParseIntOfPadded(k, 4);
  }

  /** Below 10000, codes of one year sort in the order of their numbers. */
  lemma MemberCodeOrder(year: nat, i: nat, j: nat)
    requires i < 10000 && j < 10000
    ensures StrLess(MemberCodeFor(year, i), MemberCodeFor(year, j)) <==> i < j
  {
    Padded4(i);
    Padded4(j);
    StrLessCommonPrefix(MemberCodePrefix(year), PadStart(NatToString(i), 4, '0'), PadStart(NatToString(j), 4, '0'));
    StrLessDigits(PadStart(NatToString(i), 4, '0'), PadStart(NatToString(j), 4, '0'));
  }

  /** Every code stored under the year's prefix is one the generator wrote, with a number below `bound`. */
  ghost predicate WellFormedCodes(codes: seq<string>, year: nat, bound: nat) {
    forall i :: 0 <= i < |codes| && StartsWith(codes[i], MemberCodePrefix(year)) ==>
      exists k: nat :: k < bound && codes[i] == MemberCodeFor(year, k)
  }

  /** The code the generator produces from a well-formed table: one past the greatest stored number. */
  lemma NextCodeFromTable(codes: seq<string>, year: nat) returns (m: nat)
    requires year >= 10
    requires WellFormedCodes(codes, year, 9999)
    ensures 1 <= m < 10000
    ensures GenerateMemberCode(year, LastMemberCode(codes, MemberCodePrefix(year))) == MemberCodeFor(year, m)
    ensures forall i :: 0 <= i < |codes| && StartsWith(codes[i], MemberCodePrefix(year)) ==>
      exists k: nat :: k < m && codes[i] == MemberCodeFor(year, k)
  {
    var prefix := MemberCodePrefix(year);
    var last := LastMemberCode(codes, prefix);
    if last.None? {
      m := 1;
      FirstCodeOfYear(year);
      FirstPad();
    } else {
      var j :| 0 <= j < |codes| && codes[j] == last.value;
      var top: nat :| top < 9999 && last.value == MemberCodeFor(year, top);
      m := top + 1;
      NextAfter(year, top);
      MemberCodeLayout(year, last, m);
      forall i | 0 <= i < |codes| && StartsWith(codes[i], prefix)
        ensures exists k: nat :: k < m && codes[i] == MemberCodeFor(year, k)
      {
        var k: nat :| k < 9999 && codes[i] == MemberCodeFor(year, k);
        MemberCodeOrder(year, top, k);
      }
    }
  }

  /** Codes below a number are all smaller than that number's code. */
  lemma CodesBelowAreSmaller(codes: seq<string>, year: nat, m: nat, code: string)
    requires 1 <= m < 10000 && code == MemberCodeFor(year, m)
    requires forall i :: 0 <= i < |codes| && StartsWith(codes[i], MemberCodePrefix(year)) ==>
      exists k: nat :: k < m && codes[i] == MemberCodeFor(year, k)
    ensures forall i :: 0 <= i < |codes| && StartsWith(codes[i], MemberCodePrefix(year)) ==> StrLess(codes[i], code)
    ensures code !in codes
  {
    forall i | 0 <= i < |codes| && StartsWith(codes[i], MemberCodePrefix(year))
      ensures StrLess(codes[i], code)
    {
      var k: nat :| k < m && codes[i] == MemberCodeFor(year, k);
      MemberCodeOrder(year, k, m);
    }
    if code in codes {
      var i :| 0 <= i < |codes| && codes[i] == code;
      assert StartsWith(code, MemberCodePrefix(year));
      StrLessIrreflexive(code);
    }
  }

  lemma AppendKeepsWellFormed(codes: seq<string>, year: nat, m: nat, code: string)
    requires m < 10000 && code == MemberCodeFor(year, m)
    requires forall i :: 0 <= i < |codes| && StartsWith(codes[i], MemberCodePrefix(year)) ==>
      exists k: nat :: k < m && codes[i] == MemberCodeFor(year, k)
    ensures WellFormedCodes(codes + [code], year, m + 1)
    ensures WellFormedCodes(codes + [code], year, 10000)
  {
    var codes' := codes + [code];
    forall i | 0 <= i < |codes'| && StartsWith(codes'[i], MemberCodePrefix(year))
      ensures exists k: nat :: k < m + 1 && codes'[i] == MemberCodeFor(year, k)
    {
      if i == |codes| {
        assert codes'[i] == MemberCodeFor(year, m);
      } else {
        assert codes'[i] == codes[i];
        var k: nat :| k < m && codes[i] == MemberCodeFor(year, k);
      }
    }
    WellFormedUnderLargerBound(codes', year, m + 1, 10000);
  }

  /** A table whose numbers are below one bound is below every larger bound. */
  lemma WellFormedUnderLargerBound(codes: seq<string>, year: nat, bound: nat, bound': nat)
    requires bound <= bound' && WellFormedCodes(codes, year, bound)
    ensures WellFormedCodes(codes, year, bound')
  {
    forall i | 0 <= i < |codes| && StartsWith(codes[i], MemberCodePrefix(year))
      ensures exists k: nat :: k < bound' && codes[i] == MemberCodeFor(year, k)
    {
      var k: nat :| k < bound && codes[i] == MemberCodeFor(year, k);
    }
  }

  /**
   * While a year has fewer than 9999 codes, the generated code is new,
   * greater than every stored code of that year, and keeps the table well formed.
   */
  lemma GeneratedCodeIsFresh(codes: seq<string>, year: nat, code: string) returns (m: nat)
    requires year >= 10
    requires WellFormedCodes(codes, year, 9999)
    requires code == GenerateMemberCode(year, LastMemberCode(codes, MemberCodePrefix(year)))
    ensures 1 <= m < 10000 && code == MemberCodeFor(year, m)
    ensures WellFormedCodes(codes + [code], year, m + 1)
    ensures code !in codes
    ensures WellFormedCodes(codes + [code], year, 10000)
    ensures forall i :: 0 <= i < |codes| && StartsWith(codes[i], MemberCodePrefix(year)) ==> StrLess(codes[i], code)
  {
    m := NextCodeFromTable(codes, year);
    CodesBelowAreSmaller(codes, year, m, code);
    AppendKeepsWellFormed(codes, year, m, code);
  }

  lemma Text9999()
    ensures NatToString(9999) == "9999"
  {
  }

  lemma Text10000()
    ensures NatToString(10000) == "10000"
  {
  }

  lemma CodeAfter9999(year: nat)
    requires year >= 10
    ensures GenerateMemberCode(year, Some(MemberCodeFor(year, 9999))) == MemberCodePrefix(year) + "10000"
  {
    NextAfter(year, 9999);
    Text10000();
  }

  lemma StrLess10000Before9999(prefix: string)
    ensures StrLess(prefix + "10000", prefix + "9999")
  {
    StrLessCommonPrefix(prefix, "10000", "9999");
  }

  lemma TopOf9999(year: nat, r: string)
    requires r == MemberCodePrefix(year) + "10000" || exists k: nat :: k <= 9999 && r == MemberCodeFor(year, k)
    requires !StrLess(r, MemberCodeFor(year, 9999))
    ensures r == MemberCodeFor(year, 9999)
  {
    if r != MemberCodeFor(year, 9999) {
      if r == MemberCodePrefix(year) + "10000" {
        Text9999();
        StrLess10000Before9999(MemberCodePrefix(year));
      } else {
        var k: nat :| k <= 9999 && r == MemberCodeFor(year, k);
        TopNumber(year, k, r);
      }
    }
  }

  lemma TopNumber(year: nat, k: nat, r: string)
    requires k <= 9999 && r == MemberCodeFor(year, k)
    requires !StrLess(r, MemberCodeFor(year, 9999))
    ensures k == 9999
  {
    if k < 9999 {
      MemberCodeOrder(year, k, 9999);
    }
  }

  /**
   * Past 9999 codes in a year the scheme breaks: once "…9999" and "…10000"
   * are both stored, the greatest code in code-point order is still "…9999",
   * so every later call returns "…10000" again, which the unique constraint
   * on member codes then rejects.
   */
  lemma TenThousandthCodeRepeats(codes: seq<string>, year: nat)
    requires year >= 10
    requires MemberCodeFor(year, 9999) in codes
    requires forall i :: 0 <= i < |codes| && StartsWith(codes[i], MemberCodePrefix(year)) ==>
      codes[i] == MemberCodePrefix(year) + "10000" ||
      exists k: nat :: k <= 9999 && codes[i] == MemberCodeFor(year, k)
    ensures GenerateMemberCode(year, LastMemberCode(codes, MemberCodePrefix(year))) == MemberCodePrefix(year) + "10000"
  {
    var last := LastMemberCode(codes, MemberCodePrefix(year));
    var j :| 0 <= j < |codes| && codes[j] == MemberCodeFor(year, 9999);
    assert StartsWith(codes[j], MemberCodePrefix(year));
    var i :| 0 <= i < |codes| && codes[i] == last.value;
    TopOf9999(year, last.value);
    CodeAfter9999(year);
  }

  // ---------------------------------------------------------------------
  // Transaction codes

  type Digit3 = r: nat | r < 1000

  /** The timestamp part: the last eight characters of the clock reading. */
  function Stamp(now: nat): string {
    SliceLast(NatToString(now), 8)
  }

  /** The random part: the draw padded to three digits. */
  function Tail(random: Digit3): string {
    PadStart(NatToString(random), 3, '0')
  }

  /** `generateTransactionCode()` for the clock reading `now` (ms) and the random draw `random`. */
  function GenerateTransactionCode(now: nat, random: Digit3): string {
    "TRX" + (Stamp(now) + Tail(random))
  }

  /**
   * "TRX", then the timestamp's last eight digits (its value modulo 10^8),
   * then the random draw in three digits; fourteen characters for any
   * timestamp of eight digits or more.
   */
  lemma TransactionCodeLayout(now: nat, random: Digit3)
    ensures GenerateTransactionCode(now, random) == "TRX" + (Stamp(now) + Tail(random))
    ensures StartsWith(GenerateTransactionCode(now, random), "TRX")
    ensures 1 <= |Stamp(now)| <= 8 && AllDigits(Stamp(now)) && DigitsValue(Stamp(now)) == now % Pow10(8)
    ensures |Tail(random)| == 3 && ParseInt(Tail(random)) == Num(random)
    ensures now >= Pow10(7) ==> |GenerateTransactionCode(now, random)| == 14
  {
    var code := GenerateTransactionCode(now, random);
    assert code[..3] == "TRX";
    NatToStringDigits(now);
    SliceLastValue(now, 8);
    assert Pow10(3) == 1000;
    NatToStringLength(random, 3);
    ParseIntOfPadded(random, 3);
    if now >= Pow10(7) {
      NatToStringLongEnough(now, 7);
    }
  }

  // ---------------------------------------------------------------------
  // Date presets

  const DayMs := 86400000

  /** How far back a preset reaches. */
  datatype Offset = DaysBack(days: nat) | MonthsBack(months: nat)

  /** The offset `getDateRange` applies for a range name; anything unrecognised reaches back 30 days. */
  function PresetOffset(range: string): (o: Offset)
    ensures o == MonthsBack(12) <==> range == "last12months"
    ensures o == DaysBack(7) <==> range == "last7days"
    ensures o == DaysBack(90) <==> range == "last90days"
    ensures o == DaysBack(30) <==> range !in {"last7days", "last90days", "last12months"}
  {
    match range
    case "last7days" => DaysBack(7)
    case "last30days" => DaysBack(30)
    case "last90days" => DaysBack(90)
    case "last12months" => MonthsBack(12)
    case _ => DaysBack(30)
  }

  /**
   * `getDateRange(range)` with instants in epoch milliseconds: `endDate` is
   * the clock reading, `startDate` steps back by whole days or, through the
   * calendar function `addMonths(instant, delta)`, by twelve months.
   * Daylight-saving shifts of `setDate` are not modelled.
   */
  method GetDateRange(range: string, now: int, addMonths: (int, int) -> int) returns (startDate: int, endDate: int)
    ensures endDate == now
    ensures PresetOffset(range).DaysBack? ==> startDate == now - PresetOffset(range).days * DayMs
    ensures PresetOffset(range).MonthsBack? ==> startDate == addMonths(now, -12)
  {
    endDate := now;
    startDate := now;
    match range
    case "last7days" =>
      startDate := startDate - 7 * DayMs;
    case "last30days" =>
      startDate := startDate - 30 * DayMs;
    case "last90days" =>
      startDate := startDate - 90 * DayMs;
    case "last12months" =>
      startDate := addMonths(startDate, -12);
    case _ =>
      startDate := startDate - 30 * DayMs;
  }

  /** An unrecognised range string behaves exactly like "last30days". */
  lemma UnknownRangeIsLast30Days(range: string)
    requires range !in {"last7days", "last30days", "last90days", "last12months"}
    ensures PresetOffset(range) == PresetOffset("last30days")
  {
  }
}
