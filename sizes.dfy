/**
 * Binary size units: the size-string parser `_parse_size_str` ("4 MiB" to a
 * byte count) and the suffix that `pprint_size` chooses for a byte count.
 */
module Sizes {
  import opened Wrappers
  import opened PyText

  /** 2 to the power `k`. */
  function Pow2(k: nat): (p: nat)
    ensures p >= 1
  {
    if k == 0 then 1 else 2 * Pow2(k - 1)
  }

  const KiB: nat := 0x400
  const MiB: nat := 0x10_0000
  const GiB: nat := 0x4000_0000
  const TiB: nat := 0x100_0000_0000
  const PiB: nat := 0x4_0000_0000_0000
  const EiB: nat := 0x1000_0000_0000_0000

  /** Each unit is 2^10 times the one below it, from one byte up to 2^60. */
  lemma UnitsArePowersOfTwo()
    ensures KiB == Pow2(10) && MiB == Pow2(20) && GiB == Pow2(30)
    ensures TiB == Pow2(40) && PiB == Pow2(50) && EiB == Pow2(60)
  {
  }

  /** The unit table of the size-string parser: unit token to bytes per unit. */
  const Units: map<string, nat> := map[
    "bytes" := 1,
    "byte" := 1,
    "KiB" := KiB,
    "MiB" := MiB,
    "GiB" := GiB,
    "TiB" := TiB,
    "PiB" := PiB,
    "EiB" := EiB
  ]

  /** `count` units of `unit`, in bytes. */
  function InBytes(count: nat, unit: string): nat
    requires unit in Units
  {
    count * Units[unit]
  }

  /** Why a size string was rejected (all of them a `ValueError` in Python). */
  datatype SizeError =
    | WrongTokenCount(count: nat)   // not exactly "<number> <unit>"
    | UnknownUnit(unit: string)     // unit token not in the table
    | NotANumeral(number: string)   // number token that is not a plain numeral

  /**
   * `_parse_size_str`: strip, split on whitespace into exactly a number and
   * a unit, look the unit up (checked before the number is read) and return
   * number times the unit's factor.
   */
  function ParseSizeStr(text: string): (r: Result<nat, SizeError>)
    ensures |Split(text)| != 2 ==> r == Failure(WrongTokenCount(|Split(text)|))
    ensures |Split(text)| == 2 && Split(text)[1] !in Units ==>
              r == Failure(UnknownUnit(Split(text)[1]))
    ensures |Split(text)| == 2 && Split(text)[1] in Units && !IsNumeral(Split(text)[0]) ==>
              r == Failure(NotANumeral(Split(text)[0]))
    ensures |Split(text)| == 2 && Split(text)[1] in Units && IsNumeral(Split(text)[0]) ==>
              r == Success(InBytes(NumeralValue(Split(text)[0]), Split(text)[1]))
  {
    StripKeepsTokens(text);
    var tokens := Split(Strip(text));
    if |tokens| != 2 then Failure(WrongTokenCount(|tokens|))
    else
      var number, unit := tokens[0], tokens[1];
      if unit !in Units then Failure(UnknownUnit(unit))
      else if !IsNumeral(number) then Failure(NotANumeral(number))
      else Success(InBytes(NumeralValue(number), unit))
  }

  /** Every unit name is a single token, so it survives `split()` intact. */
  lemma UnitNamesAreTokens()
    ensures forall u :: u in Units ==> IsToken(u)
  {
  }

  /** Text that splits into the numeral of `n` and a known unit parses to `n` such units. */
  lemma {:induction false} ParseSizeStrOfTokens(text: string, n: nat, unit: string)
    requires unit in Units && Split(text) == [ShowNat(n), unit]
    ensures ParseSizeStr(text) == Success(InBytes(n, unit))
  {
    NumeralRoundTrip(n);
  }

  /**
   * Parsing "<n> <unit>", with any whitespace around and at least one
   * whitespace character between, gives exactly n times the unit's factor.
   */
  lemma {:induction false} ParseSizeStrExact(lead: string, n: nat, gap: string, unit: string, trail: string)
    requires AllSpace(lead) && AllSpace(gap) && AllSpace(trail) && |gap| > 0
    requires unit in Units
    ensures ParseSizeStr(lead + ShowNat(n) + gap + unit + trail) == Success(InBytes(n, unit))
  {
    UnitNamesAreTokens();
    SplitTwoTokens(lead, ShowNat(n), gap, unit, trail);
    ParseSizeStrOfTokens(lead + ShowNat(n) + gap + unit + trail, n, unit);
  }

  /** An unknown unit is an error whatever the number token holds. */
  lemma {:induction false} ParseSizeStrUnknownUnit(lead: string, number: string, gap: string, unit: string, trail: string)
    requires AllSpace(lead) && AllSpace(gap) && AllSpace(trail) && |gap| > 0
    requires IsToken(number) && IsToken(unit) && unit !in Units
    ensures ParseSizeStr(lead + number + gap + unit + trail) == Failure(UnknownUnit(unit))
  {
    SplitTwoTokens(lead, number, gap, unit, trail);
  }

  /** A numeral, one space and a unit name: the shape of IOR's own size strings. */
  lemma {:induction false} ParseSizeStrSimple(text: string, n: nat, unit: string)
    requires unit in Units && text == ShowNat(n) + " " + unit
    ensures ParseSizeStr(text) == Success(InBytes(n, unit))
  {
    var num := ShowNat(n);
    assert text == [] + num + [' '] + unit + [];
    UnitNamesAreTokens();
    SplitTwoTokens([], num, [' '], unit, []);
    ParseSizeStrOfTokens(text, n, unit);
  }

  /** The example in the parser's docstring: "4 MiB" is 4 * 2^20 bytes. */
  lemma {:induction false} ParseSizeStrFourMiB(text: string)
    requires text == "4 MiB"
    ensures ParseSizeStr(text) == Success(4 * MiB)
  {
    ParseSizeStrSimple(text, 4, "MiB");
  }

  /** "1 bytes" is one byte. */
  lemma {:induction false} ParseSizeStrOneByte(text: string)
    requires text == "1 bytes"
    ensures ParseSizeStr(text) == Success(1)
  {
    ParseSizeStrSimple(text, 1, "bytes");
  }

  /** "byte" is read like "bytes", and whitespace around the text is ignored. */
  lemma {:induction false} ParseSizeStrPadded(text: string)
    requires text == " 2 byte\n"
    ensures ParseSizeStr(text) == Success(2)
  {
    var num, unit := ShowNat(2), "byte";
    assert InBytes(2, unit) == 2;
    assert text == [' '] + num + [' '] + unit + ['\n'];
    UnitNamesAreTokens();
    SplitTwoTokens([' '], num, [' '], unit, ['\n']);
    ParseSizeStrOfTokens(text, 2, unit);
  }

  /** "4 XiB" names no known unit and fails. */
  lemma {:induction false} ParseSizeStrUnknownExample(text: string)
    requires text == "4 XiB"
    ensures ParseSizeStr(text) == Failure(UnknownUnit("XiB"))
  {
    var number, unit := "4", "XiB";
    assert IsToken(number) && IsToken(unit) && unit !in Units;
    assert text == [] + number + [' '] + unit + [];
    ParseSizeStrUnknownUnit([], number, [' '], unit, []);
  }

  /** "4MiB", with no whitespace between number and unit, is one token and fails. */
  lemma {:induction false} ParseSizeStrOneToken(text: string)
    requires text == "4MiB"
    ensures ParseSizeStr(text) == Failure(WrongTokenCount(1))
  {
    SplitToken("4MiB", "");
    assert "4MiB" + "" == "4MiB";
    SplitAllSpace("");
  }

  /** `pprint_size`'s suffix table, largest factor first. */
  const SizeSuffixes: seq<(string, nat)> := [
    ("EiB", EiB),
    ("PiB", PiB),
    ("TiB", TiB),
    ("GiB", GiB),
    ("MiB", MiB),
    ("KiB", KiB),
    ("bytes", 1)
  ]

  /**
   * The first-match search of `pprint_size`: the index of the first entry
   * whose factor is at most `size`, or `|table|` when there is none.
   */
  function FirstAtMost(table: seq<(string, nat)>, size: int): (i: nat)
    ensures i <= |table|
    ensures forall j :: 0 <= j < i ==> table[j].1 > size
    ensures i < |table| ==> table[i].1 <= size
  {
    if table == [] then 0
    else if size >= table[0].1 then 0
    else 1 + FirstAtMost(table[1..], size)
  }

  /** What `pprint_size` prints, before the two-decimal rendering. */
  datatype SizeText =
    | ZeroBytes                             // the literal "0 bytes"
    | Scaled(quotient: real, suffix: string) // "{quotient:.2f} {suffix}"

  /** The suffix table steps down by a factor of 2^10 and ends at one byte. */
  lemma SizeSuffixesStep()
    ensures forall j :: 1 <= j < |SizeSuffixes| ==> SizeSuffixes[j - 1].1 == 1024 * SizeSuffixes[j].1
    ensures SizeSuffixes[|SizeSuffixes| - 1].1 == 1
  {
  }

  /** Every suffix `pprint_size` can print is a unit the parser reads back with the same factor. */
  lemma SizeSuffixesAgreeWithUnits()
    ensures forall j :: 0 <= j < |SizeSuffixes| ==>
              SizeSuffixes[j].0 in Units && Units[SizeSuffixes[j].0] == SizeSuffixes[j].1
  {
  }

  /**
   * `pprint_size`: below one byte it prints "0 bytes"; otherwise it divides
   * by the chosen unit, the quotient is at least 1 and, below EiB, under 1024.
   */
  function PprintSize(size: int): (r: SizeText)
    ensures r == ZeroBytes <==> size < 1
    ensures r.Scaled? ==>
              r.suffix in Units && r.quotient * Units[r.suffix] as real == size as real &&
              1.0 <= r.quotient
    ensures r.Scaled? ==> (r.suffix, Units[r.suffix]) in SizeSuffixes
    ensures r.Scaled? && r.suffix != "EiB" ==> r.quotient < 1024.0
  {
    SizeSuffixesStep();
    SizeSuffixesAgreeWithUnits();
    var i := FirstAtMost(SizeSuffixes, size);
    if i == |SizeSuffixes| then ZeroBytes
    else
      var (suffix, factor) := SizeSuffixes[i];
      QuotientAtLeastOne(size as real, factor as real);
      assert i > 0 ==> SizeSuffixes[i - 1].1 == 1024 * factor;
      QuotientBelow1024(size as real, factor as real);
      Scaled(size as real / factor as real, suffix)
  }

  /** A size at least its unit's factor is at least one unit. */
  lemma {:induction false} QuotientAtLeastOne(x: real, y: real)
    requires 0.0 < y <= x
    ensures (x / y) * y == x && 1.0 <= x / y
  {
  }

  /** A size below 1024 of its unit's factor is under 1024 units. */
  lemma {:induction false} QuotientBelow1024(x: real, y: real)
    requires 0.0 < y
    ensures x < 1024.0 * y ==> x / y < 1024.0
  {
  }

  /** The unit `pprint_size` picks is the largest one that does not exceed the size. */
  lemma {:induction false} PprintSizePicksLargestUnit(size: int)
    ensures PprintSize(size).Scaled? ==>
              forall j :: 0 <= j < |SizeSuffixes| && SizeSuffixes[j].1 <= size ==>
                SizeSuffixes[j].1 <= Units[PprintSize(size).suffix]
  {
    SizeSuffixesStep();
    SizeSuffixesAgreeWithUnits();
    var i := FirstAtMost(SizeSuffixes, size);
    if i < |SizeSuffixes| {
      forall j | 0 <= j < |SizeSuffixes| && SizeSuffixes[j].1 <= size
        ensures SizeSuffixes[j].1 <= SizeSuffixes[i].1
      {
        assert i <= j;
      }
    }
  }

  /** Boundary cases: 0 is "0 bytes", 1023 is still bytes, 1024 is one KiB, and 4 * 2^20 is 4 MiB. */
  lemma PprintSizeBoundaries()
    ensures PprintSize(0) == ZeroBytes
    ensures PprintSize(1023) == Scaled(1023.0, "bytes")
    ensures PprintSize(1024) == Scaled(1.0, "KiB")
    ensures PprintSize(4 * MiB) == Scaled(4.0, "MiB")
  {
  }
}
