/**
  Checkpoint IDs: a clock reading forced to increase, printed with 20 digits and a suffix,
  so that the order of the strings is the order in which they were issued.
*/
module MonotonicId {
  import opened Text

  const MAX_INT64: int := 0x7FFF_FFFF_FFFF_FFFF
  const MIN_INT64: int := -0x8000_0000_0000_0000

  /** int64 addition of one, which wraps around. */
  function Increment(n: int): int
  {
    if n == MAX_INT64 then MIN_INT64 else n + 1
  }

  predicate IsInt64(n: int)
  {
    MIN_INT64 <= n <= MAX_INT64
  }

  function Zeros(n: nat): string
  {
    seq(n, _ => '0')
  }

  /** fmt.Sprintf("%020d", n): padded with zeros after the sign, to a width of 20. */
  function Padded(n: int): string
  {
    if n >= 0 then Pad(Decimal(n), 20) else "-" + Pad(Decimal(-n), 19)
  }

  function Pad(s: string, width: nat): string
  {
    if |s| >= width then s else Zeros(width - |s|) + s
  }

  function Format(ns: int, suffix: string): string
  {
    Padded(ns) + "-" + suffix
  }

  /** The nanoseconds recorded for a clock reading. */
  function Advance(last: int, now: int): int
  {
    if now <= last then Increment(last) else now
  }

  class Generator {
    var lastNS: int
    const suffix: string

    constructor (suffix: string)
      ensures lastNS == 0 && this.suffix == suffix
    {
      lastNS, this.suffix := 0, suffix;
    }

    method NewID(now: int) returns (id: string)
      requires IsInt64(now) && IsInt64(lastNS)
      modifies this`lastNS
      ensures IsInt64(lastNS) && lastNS == Advance(old(lastNS), now) && id == Format(lastNS, suffix)
      ensures old(lastNS) < MAX_INT64 ==> lastNS > old(lastNS)
      ensures 0 <= old(lastNS) < MAX_INT64 ==> Less(Format(old(lastNS), suffix), id)
    {
      var nanoseconds := now;
      if nanoseconds <= lastNS {
        nanoseconds := Increment(lastNS);
      }
      if 0 <= lastNS < MAX_INT64 {
        FormatIncreases(lastNS, nanoseconds, suffix);
      }
      lastNS := nanoseconds;
      id := Format(nanoseconds, suffix);
    }
  }

  // ----- Decimal strings of one width are ordered like their numbers -----

  function Power(d: nat): nat
  {
    if d == 0 then 1 else 10 * Power(d - 1)
  }

  lemma OneDigit(n: nat)
    requires n < 10
    ensures Decimal(n) == [DIGITS[n]] && n / 10 == 0 && n % 10 == n
  {
  }

  lemma {:induction false} PadDigit(n: nat, width: nat)
    requires width > 1 && n < Power(width)
    ensures Pad(Decimal(n), width) == Pad(Decimal(n / 10), width - 1) + [DIGITS[n % 10]]
  {
    if n < 10 {
      OneDigit(n);
      OneDigit(0);
      hide Decimal, Power;
      assert Zeros(width - 1) == Zeros(width - 2) + ['0'];
      assert Pad([DIGITS[n]], width) == Zeros(width - 1) + [DIGITS[n]];
      assert Pad(['0'], width - 1) == Zeros(width - 2) + ['0'];
    } else {
      assert Decimal(n) == Decimal(n / 10) + [DIGITS[n % 10]];
    }
  }

  lemma {:induction false} DecimalLength(n: nat, width: nat)
    requires width > 0 && n < Power(width)
    ensures |Decimal(n)| <= width
  {
    if n >= 10 {
      assert width > 1;
      DecimalLength(n / 10, width - 1);
    }
  }

  lemma {:induction false} PadOrder(m: nat, n: nat, width: nat)
    requires width > 0 && m < n < Power(width)
    ensures |Pad(Decimal(m), width)| == |Pad(Decimal(n), width)| == width
    ensures Less(Pad(Decimal(m), width), Pad(Decimal(n), width))
  {
    hide Pad, Decimal, Less;
    PadWidth(m, width);
    PadWidth(n, width);
    if width == 1 {
      hide Power;
      OneWide(m, n);
    } else {
      PadDigit(m, width);
      PadDigit(n, width);
      var a, b := Pad(Decimal(m / 10), width - 1), Pad(Decimal(n / 10), width - 1);
      if m / 10 == n / 10 {
        DigitOrder(m % 10, n % 10);
        LessAfterPrefix(a, [DIGITS[m % 10]], [DIGITS[n % 10]]);
      } else {
        PadOrder(m / 10, n / 10, width - 1);
        LessBeforeSuffix(a, b, [DIGITS[m % 10]], [DIGITS[n % 10]]);
      }
    }
  }

  lemma PadWidth(n: nat, width: nat)
    requires width > 0 && n < Power(width)
    ensures |Pad(Decimal(n), width)| == width
  {
    hide Decimal, Power;
    DecimalLength(n, width);
  }

  lemma OneWide(m: nat, n: nat)
    requires m < n < Power(1)
    ensures Less(Pad(Decimal(m), 1), Pad(Decimal(n), 1))
  {
    hide Decimal, Less;
    assert Power(1) == 10 * Power(0);
    OneDigit(m);
    OneDigit(n);
    DigitOrder(m, n);
    assert Zeros(0) + [DIGITS[m]] == [DIGITS[m]] && Zeros(0) + [DIGITS[n]] == [DIGITS[n]];
  }

  lemma DigitOrder(i: nat, j: nat)
    requires i < j < 10
    ensures DIGITS[i] < DIGITS[j] && Less([DIGITS[i]], [DIGITS[j]])
  {
  }

  lemma MaxFits()
    ensures MAX_INT64 < Power(20)
  {
    assert Power(4) == 10000;
    assert Power(8) == 10000 * Power(4);
    assert Power(12) == 10000 * Power(8);
    assert Power(16) == 10000 * Power(12);
    assert Power(20) == 10000 * Power(16);
  }

  lemma FormatIncreases(m: int, n: int, suffix: string)
    requires 0 <= m < n <= MAX_INT64
    ensures Less(Format(m, suffix), Format(n, suffix))
  {
    hide Pad, Power;
    MaxFits();
    PadOrder(m, n, 20);
    LessBeforeSuffix(Padded(m), Padded(n), "-" + suffix, "-" + suffix);
    assert Padded(m) + ("-" + suffix) == Format(m, suffix) && Padded(n) + ("-" + suffix) == Format(n, suffix);
  }

  // ----- Whole sequences of clock readings -----

  /** The value recorded after the first n readings of a generator's life. */
  function Recorded(readings: seq<int>, n: nat): int
    requires n <= |readings|
  {
    if n == 0 then 0 else Advance(Recorded(readings, n - 1), readings[n - 1])
  }

  function Issued(readings: seq<int>, suffix: string, i: nat): string
    requires i < |readings|
  {
    Format(Recorded(readings, i + 1), suffix)
  }

  /** No increment has wrapped around yet: something that can be told from the readings. */
  ghost predicate NoOverflow(readings: seq<int>, n: nat)
    requires n <= |readings|
  {
    forall i :: 0 <= i < n ==> Recorded(readings, i) < MAX_INT64
  }

  lemma {:induction false} RecordedIncreases(readings: seq<int>, m: nat, n: nat)
    requires m <= n <= |readings| && NoOverflow(readings, n) && forall i :: 0 <= i < |readings| ==> IsInt64(readings[i])
    ensures 0 <= Recorded(readings, m) <= Recorded(readings, n) <= MAX_INT64
    ensures m < n ==> Recorded(readings, m) < Recorded(readings, n)
  {
    if n > 0 {
      if m < n {
        RecordedIncreases(readings, m, n - 1);
      } else {
        RecordedIncreases(readings, m - 1, n - 1);
      }
      assert Recorded(readings, n - 1) < MAX_INT64;
    }
  }

  /**
    For every sequence of clock readings, standing still, running backwards or before 1970, the issued IDs
    increase in string order, so the last issued is the greatest, as long as no reading was followed past the
    end of int64.
  */
  lemma IdsIncrease(readings: seq<int>, suffix: string, i: nat, j: nat)
    requires i < j < |readings| && NoOverflow(readings, j + 1) && forall k :: 0 <= k < |readings| ==> IsInt64(readings[k])
    ensures Less(Issued(readings, suffix, i), Issued(readings, suffix, j))
  {
    RecordedIncreases(readings, i + 1, j + 1);
    RecordedIncreases(readings, 0, i + 1);
    FormatIncreases(Recorded(readings, i + 1), Recorded(readings, j + 1), suffix);
  }

  lemma PaddedHead(n: nat, suffix: string)
    ensures Format(n, suffix)[0] in DIGITS
  {
    var d := Decimal(n);
    assert d[0] in DIGITS && Padded(n)[0] in DIGITS;
  }

  /** A new ID is greater than the last one exactly when the last one was not the greatest int64. */
  lemma IncreasesExactly(last: int, now: int, suffix: string)
    requires 0 <= last <= MAX_INT64 && IsInt64(now)
    ensures Less(Format(last, suffix), Format(Advance(last, now), suffix)) <==> last < MAX_INT64
  {
    hide Padded, Decimal;
    if last < MAX_INT64 {
      FormatIncreases(last, Advance(last, now), suffix);
    } else {
      MinHead(suffix);
      PaddedHead(last, suffix);
    }
  }

  lemma MinHead(suffix: string)
    ensures Format(MIN_INT64, suffix) != "" && Format(MIN_INT64, suffix)[0] == '-'
  {
    hide Decimal, Pad;
  }
}
