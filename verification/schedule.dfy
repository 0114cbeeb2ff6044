/** The round schedule of the Map-based charts: the metadata's round ids,
    walked in ascending numeric order, and the file each round is fetched
    from, `spieltage/<String(id).padStart(2, '0')>.json`, whose name reads
    back as the id. */
module Schedule {
  import opened Seqs
  import opened StableSort
  import opened Rounds

  /** The width the round id is padded to. */
  const IdWidth: nat := 2

  /** The padding character. */
  const Zero: char := '0'

  /** `Object.keys(meta.spieltage).map(Number).sort((a, b) => a - b)`, with
      the keys already read as numbers. */
  function RoundIds(ids: seq<nat>): seq<int> {
    SortNumbers(ids)
  }

  /** The ids are walked in ascending order; distinct ids strictly so, and
      then the rounds built from them, one per id in walk order, satisfy
      `AscendingIds`. */
  lemma RoundIdsAscending(ids: seq<nat>, rounds: seq<Round>)
    requires NoDups(ids)
    requires |rounds| == |RoundIds(ids)|
    requires forall k :: 0 <= k < |rounds| ==> rounds[k].id == RoundIds(ids)[k]
    ensures forall x :: x in RoundIds(ids) <==> x in ids
    ensures AscendingIds(rounds)
  {
    SortNumbersStrict(ids);
    forall x
      ensures x in RoundIds(ids) <==> x in ids
    {
      assert x in RoundIds(ids) <==> x in multiset(RoundIds(ids));
      assert x in ids <==> x in multiset(ids);
    }
  }

  /** A decimal digit character. */
  predicate IsDigit(c: char) {
    '0' <= c <= '9'
  }

  /** Every character is a decimal digit. */
  predicate AllDigits(s: string) {
    forall k :: 0 <= k < |s| ==> IsDigit(s[k])
  }

  /** The character of the digit `d`. */
  function DigitChar(d: int): char
    requires 0 <= d < 10
  {
    ('0' as int + d) as char
  }

  /** The value of a digit character. */
  function DigitValue(c: char): int
    requires IsDigit(c)
  {
    c as int - '0' as int
  }

  /** `String(n)` for a non-negative integer id: its decimal digits, as
      JavaScript prints every integer Number below 2^53. */
  function Decimal(n: nat): string
    decreases n
  {
    if n < 10 then [DigitChar(n)] else Decimal(n / 10) + [DigitChar(n % 10)]
  }

  /** `Number(s)` for a string of decimal digits; the empty string reads as
      0. */
  function ParseDecimal(s: string): nat
    requires AllDigits(s)
  {
    if |s| == 0 then 0 else ParseDecimal(s[..|s| - 1]) * 10 + DigitValue(s[|s| - 1])
  }

  /** `k` copies of `c`. */
  function Repeat(c: char, k: nat): string {
    seq(k, _ => c)
  }

  /** `s.padStart(width, c)` for a one-character pad. */
  function PadStart(s: string, width: nat, c: char): string {
    if |s| >= width then s else Repeat(c, width - |s|) + s
  }

  /** `String(id).padStart(2, '0')`. */
  function RoundFile(id: nat): string {
    PadStart(Decimal(id), IdWidth, Zero)
  }

  /** Padding leaves `s` at the end, fills only the front with `c`, and
      reaches `width` characters unless `s` is longer already. */
  lemma PadStartSpec(s: string, width: nat, c: char)
    ensures |PadStart(s, width, c)| == if |s| >= width then |s| else width
    ensures PadStart(s, width, c)[|PadStart(s, width, c)| - |s|..] == s
    ensures forall k :: 0 <= k < |PadStart(s, width, c)| - |s| ==> PadStart(s, width, c)[k] == c
  {
  }

  /** `String(n)` is a non-empty digit string without a leading zero (other
      than "0" itself), one character long exactly for 0..9. */
  lemma {:induction false} DecimalShape(n: nat)
    ensures |Decimal(n)| > 0 && AllDigits(Decimal(n))
    ensures |Decimal(n)| == 1 <==> n < 10
    ensures n >= 10 ==> Decimal(n)[0] != '0'
    decreases n
  {
    if n >= 10 {
      DecimalShape(n / 10);
      assert Decimal(n)[0] == Decimal(n / 10)[0];
    }
  }

  /** `Number(String(n)) == n`. */
  lemma {:induction false} DecimalRoundTrip(n: nat)
    ensures AllDigits(Decimal(n))
    ensures ParseDecimal(Decimal(n)) == n
    decreases n
  {
    DecimalShape(n);
    if n >= 10 {
      var front := Decimal(n / 10);
      DecimalShape(n / 10);
      DecimalRoundTrip(n / 10);
      assert Decimal(n)[..|Decimal(n)| - 1] == front;
      assert DigitValue(Decimal(n)[|Decimal(n)| - 1]) == n % 10;
    }
  }

  /** Leading zeros do not change the number a digit string reads as. */
  lemma {:induction false} LeadingZeros(k: nat, s: string)
    requires AllDigits(s)
    ensures AllDigits(Repeat(Zero, k) + s)
    ensures ParseDecimal(Repeat(Zero, k) + s) == ParseDecimal(s)
    decreases |s|, k
  {
    var z := Repeat(Zero, k);
    if |s| == 0 {
      assert z + s == z;
      if k != 0 {
        assert z[..k - 1] == Repeat(Zero, k - 1);
        LeadingZeros(k - 1, s);
        assert Repeat(Zero, k - 1) + s == Repeat(Zero, k - 1);
      }
    } else {
      var front := s[..|s| - 1];
      LeadingZeros(k, front);
      assert (z + s)[..|z + s| - 1] == z + front;
      assert (z + s)[|z + s| - 1] == s[|s| - 1];
    }
  }

  /** The round's file name is at least two digits, the decimal id with one
      leading zero for ids below 10, and it reads back as the id. */
  lemma RoundFileSpec(id: nat)
    ensures AllDigits(RoundFile(id))
    ensures |RoundFile(id)| >= IdWidth
    ensures id < 10 ==> RoundFile(id) == [Zero, DigitChar(id)]
    ensures id >= 10 ==> RoundFile(id) == Decimal(id)
    ensures ParseDecimal(RoundFile(id)) == id
  {
    DecimalShape(id);
    DecimalRoundTrip(id);
    if id < 10 {
      LeadingZeros(1, Decimal(id));
      assert RoundFile(id) == Repeat(Zero, 1) + Decimal(id);
    }
  }

  /** Different rounds are fetched from different files. */
  lemma RoundFileInjective(a: nat, b: nat)
    requires RoundFile(a) == RoundFile(b)
    ensures a == b
  {
    RoundFileSpec(a);
    RoundFileSpec(b);
  }
}
