/**
 * `MusicPlayer.format_time`: seconds shown as minutes and seconds, each printed
 * with Python's `{:02d}` (decimal, padded with '0' to at least two digits).
 */
module TimeFormat {
  import opened Wrappers

  predicate IsDigit(c: char) { '0' <= c <= '9' }

  predicate IsDigits(t: string) { forall i :: 0 <= i < |t| ==> IsDigit(t[i]) }

  function DigitChar(d: nat): (c: char)
    requires d < 10
    ensures IsDigit(c) && c as int - '0' as int == d
  {
    ('0' as int + d) as char
  }

  function DigitValue(c: char): (d: nat)
    requires IsDigit(c)
    ensures d < 10 && DigitChar(d) == c
  {
    c as int - '0' as int
  }

  /** Python's `str(n)` for a natural number: its shortest decimal spelling. */
  function Decimal(n: nat): (t: string)
    ensures |t| >= 1
    ensures (|t| == 1) == (n < 10)
    ensures n > 0 ==> t[0] != '0'
  {
    if n < 10 then [DigitChar(n)] else Decimal(n / 10) + [DigitChar(n % 10)]
  }

  lemma {:induction false} DecimalDigits(n: nat)
    ensures IsDigits(Decimal(n))
  {
    if n >= 10 {
      DecimalDigits(n / 10);
    }
  }

  /** The number a string of decimal digits spells. */
  function Value(t: string): nat
    requires IsDigits(t)
  {
    if |t| == 0 then 0 else Value(t[..|t| - 1]) * 10 + DigitValue(t[|t| - 1])
  }

  /** `f"{n:02d}"`. */
  function Pad2(n: nat): (t: string)
    ensures |t| >= 2
    ensures (|t| == 2) == (n < 100)
  {
    DecimalLength(n);
    if n < 10 then "0" + Decimal(n) else Decimal(n)
  }

  lemma {:induction false} DecimalLength(n: nat)
    ensures (|Decimal(n)| <= 2) == (n < 100)
  {
    if n >= 10 {
      DecimalLength(n / 10);
    }
  }

  /** `f"{n:02d}"` is made of digits only. */
  lemma Pad2IsDigits(n: nat)
    ensures IsDigits(Pad2(n))
  {
    DecimalDigits(n);
  }

  /** `format_time` on a whole number of seconds. */
  function FormatTime(s: nat): (t: string)
    ensures |t| >= 5 && t[|t| - 3] == ':'
    ensures (|t| == 5) == (s < 6000)
  {
    Pad2(s / 60) + ":" + Pad2(s % 60)
  }

  /**
   * `format_time` on a non-negative float, step by step as the source does it:
   * `int(seconds // 60)` and `int(seconds % 60)`, with Python's floored `//` and `%`.
   * It shows the same text as the whole-second definition on the floor of x.
   */
  function FormatSeconds(x: real): (t: string)
    requires x >= 0.0
    ensures t == FormatTime(x.Floor)
  {
    var minutes := (x / 60.0).Floor;
    var seconds := (x - 60.0 * minutes as real).Floor;
    var n := x.Floor;
    assert n == n / 60 * 60 + n % 60;
    assert minutes == n / 60 by {
      assert (n / 60) as real <= x / 60.0;
      assert x / 60.0 < (n / 60) as real + 1.0;
    }
    assert seconds == n % 60 by {
      assert (n % 60) as real <= x - 60.0 * minutes as real;
      assert x - 60.0 * minutes as real < (n % 60) as real + 1.0;
    }
    Pad2(minutes) + ":" + Pad2(seconds)
  }

  /** Reads "M..M:SS" back into its minutes and seconds fields. */
  function ParseClock(t: string): Option<(nat, nat)>
  {
    if |t| >= 4 && t[|t| - 3] == ':' && IsDigits(t[..|t| - 3]) && IsDigits(t[|t| - 2..])
    then Some((Value(t[..|t| - 3]), Value(t[|t| - 2..])))
    else None
  }

  lemma {:induction false} DecimalValue(n: nat)
    requires IsDigits(Decimal(n))
    ensures Value(Decimal(n)) == n
  {
    var t := Decimal(n);
    if n >= 10 {
      assert t[..|t| - 1] == Decimal(n / 10);
      DecimalDigits(n / 10);
      DecimalValue(n / 10);
    } else {
      assert t[..|t| - 1] == [];
    }
  }

  lemma {:induction false} LeadingZeroValue(t: string)
    requires IsDigits(t)
    ensures IsDigits("0" + t) && Value("0" + t) == Value(t)
  {
    var z := "0" + t;
    if |t| == 0 {
      assert z[..|z| - 1] == [];
    } else {
      assert z[..|z| - 1] == "0" + t[..|t| - 1];
      LeadingZeroValue(t[..|t| - 1]);
    }
  }

  lemma Pad2Value(n: nat)
    requires IsDigits(Pad2(n))
    ensures Value(Pad2(n)) == n
  {
    DecimalDigits(n);
    DecimalValue(n);
    if n < 10 {
      LeadingZeroValue(Decimal(n));
    }
  }

  /**
   * The seconds field of `format_time` is below 60 and the two fields add back up to
   * the input: reading the text back gives minutes * 60 + seconds == s.
   */
  lemma FormatTimeRoundTrip(s: nat)
    ensures ParseClock(FormatTime(s)).Some?
    ensures var (m, sec) := ParseClock(FormatTime(s)).value; sec < 60 && m * 60 + sec == s
  {
    var t := FormatTime(s);
    assert t[..|t| - 3] == Pad2(s / 60);
    assert t[|t| - 2..] == Pad2(s % 60);
    Pad2IsDigits(s / 60);
    Pad2IsDigits(s % 60);
    Pad2Value(s / 60);
    Pad2Value(s % 60);
  }

  /** For a whole number of seconds the shape is exactly "MM:SS" below 100 minutes. */
  lemma FormatTimeShape(s: nat)
    requires s < 6000
    ensures |FormatTime(s)| == 5
    ensures FormatTime(s) == [DigitChar(s / 600), DigitChar(s / 60 % 10), ':', DigitChar(s % 60 / 10), DigitChar(s % 10)]
  {
    Pad2Digits(s / 60);
    Pad2Digits(s % 60);
  }

  lemma Pad2Digits(n: nat)
    requires n < 100
    ensures Pad2(n) == [DigitChar(n / 10), DigitChar(n % 10)]
  {
    if n < 10 {
      assert Decimal(n) == [DigitChar(n)];
    } else {
      assert Decimal(n / 10) == [DigitChar(n / 10)];
    }
  }

  lemma FormatTimeExamples()
    ensures FormatTime(125) == "02:05"
    ensures FormatTime(59) == "00:59"
    ensures FormatTime(3600) == "60:00"
  {
    FormatTimeShape(125);
    FormatTimeShape(59);
    FormatTimeShape(3600);
  }
}
