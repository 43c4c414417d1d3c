/**
 * The `HH:MM:SS` rendering of a number of seconds (`fmt` in both versions
 * of the timer), together with a reader of that rendering that serves as
 * its inverse.
 */
module Clock {
  import opened Wrappers

  predicate IsDigit(c: char) {
    '0' <= c <= '9'
  }

  predicate AllDigits(t: string) {
    forall i :: 0 <= i < |t| ==> IsDigit(t[i])
  }

  function DigitChar(d: nat): (c: char)
    requires d < 10
    ensures IsDigit(c)
  {
    ('0' as int + d) as char
  }

  function DigitValue(c: char): (d: nat)
    requires IsDigit(c)
    ensures d < 10
  {
    c as int - '0' as int
  }

  /** Decimal notation of `n` without leading zeros (Python's `str(n)`). */
  function Decimal(n: nat): (r: string)
    ensures 1 <= |r|
    ensures AllDigits(r)
    ensures n < 10 <==> |r| == 1
    ensures n >= 1 ==> r[0] != '0'
  {
    if n < 10 then [DigitChar(n)] else Decimal(n / 10) + [DigitChar(n % 10)]
  }

  /** The number a string of decimal digits denotes. */
  function Value(t: string): nat
    requires AllDigits(t)
  {
    if |t| == 0 then 0 else 10 * Value(t[..|t| - 1]) + DigitValue(t[|t| - 1])
  }

  lemma {:induction false} ValueOfDecimal(n: nat)
    ensures Value(Decimal(n)) == n
  {
    if n >= 10 {
      var d := Decimal(n);
      assert d[..|d| - 1] == Decimal(n / 10);
      ValueOfDecimal(n / 10);
    }
  }

  lemma {:induction false} LeadingZero(t: string)
    requires AllDigits(t)
    ensures AllDigits("0" + t)
    ensures Value("0" + t) == Value(t)
  {
    if |t| > 0 {
      var z := "0" + t;
      assert z[..|z| - 1] == "0" + t[..|t| - 1];
      LeadingZero(t[..|t| - 1]);
    }
  }

  /** A field printed with the `02d` format: at least two digits, zero-padded. */
  function Pad2(n: nat): (r: string)
    ensures AllDigits(r)
    ensures |r| >= 2
    ensures n < 100 <==> |r| == 2
    ensures n < 10 ==> r[0] == '0'
    ensures n >= 10 ==> r[0] != '0'
    ensures Value(r) == n
  {
    ValueOfDecimal(n);
    var d := Decimal(n);
    if |d| < 2 then LeadingZero(d); "0" + d else d
  }

  /** `fmt`: hours, minutes and seconds of a non-negative count; negatives read as zero. */
  function Fmt(seconds: int): (r: string)
    ensures seconds < 0 ==> r == "00:00:00"
    ensures |r| >= 8 && r[|r| - 3] == ':' && r[|r| - 6] == ':'
    ensures 0 <= seconds < 360000 ==> |r| == 8
    ensures seconds < 36000 ==> r[0] == '0'
    ensures seconds >= 36000 ==> r[0] != '0'
  {
    var total := if seconds < 0 then 0 else seconds;
    var h := total / 3600;
    var rest := total % 3600;
    Pad2(h) + ":" + Pad2(rest / 60) + ":" + Pad2(rest % 60)
  }

  /**
   * Reads `H..H:MM:SS` back into seconds. The hour field may have any number
   * of digits; minutes and seconds must each be two digits below 60.
   */
  function ParseClock(t: string): Option<nat>
  {
    if |t| < 8 || t[|t| - 3] != ':' || t[|t| - 6] != ':' then None
    else
      var hh := t[..|t| - 6];
      var mm := t[|t| - 5..|t| - 3];
      var ss := t[|t| - 2..];
      if AllDigits(hh) && AllDigits(mm) && AllDigits(ss) && Value(mm) < 60 && Value(ss) < 60
      then Some(Value(hh) * 3600 + Value(mm) * 60 + Value(ss))
      else None
  }

  /** The three fields of `a:b:c` sit where the reader looks for them, when `b` and `c` have two characters. */
  lemma Fields(t: string, a: string, b: string, c: string)
    requires |b| == 2 && |c| == 2 && t == a + ":" + b + ":" + c
    ensures |t| == |a| + 6 && t[|t| - 3] == ':' && t[|t| - 6] == ':'
    ensures t[..|t| - 6] == a && t[|t| - 5..|t| - 3] == b && t[|t| - 2..] == c
  {
  }

  /**
   * The rendering loses nothing but the sign: minutes and seconds come out
   * below 60 and the three fields recombine to the clamped count.
   */
  lemma FmtRoundTrip(seconds: int)
    ensures ParseClock(Fmt(seconds)) == Some(if seconds < 0 then 0 else seconds)
  {
    var total := if seconds < 0 then 0 else seconds;
    var h := total / 3600;
    var rest := total % 3600;
    var a, b, c := Pad2(h), Pad2(rest / 60), Pad2(rest % 60);
    Fields(Fmt(seconds), a, b, c);
    assert total == h * 3600 + (rest / 60) * 60 + rest % 60;
  }
}
