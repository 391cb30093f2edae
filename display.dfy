/**
 * The digital readout of the timer: a non-negative number of seconds rendered as
 * `HH:MM:SS`, each part the decimal form of the number (as JavaScript's
 * `Number.prototype.toString` gives it) padded on the left with '0' to at least two
 * characters (as `padStart(2, '0')` does, which never truncates).
 *
 * `ParseClock` is an independent reading of such a text back into seconds; the
 * round trip `ParseClock(Format(n)) == Some(n)` shows that no readout loses information.
 */
module Display {
  import opened Options

  predicate IsDigit(c: char) {
    '0' <= c <= '9'
  }

  predicate AllDigits(s: string) {
    forall i :: 0 <= i < |s| ==> IsDigit(s[i])
  }

  function DigitChar(d: nat): (c: char)
    requires d < 10
    ensures IsDigit(c) && DigitValue(c) == d
  {
    ('0' as int + d) as char
  }

  function DigitValue(c: char): nat
    requires IsDigit(c)
  {
    c as int - '0' as int
  }

  /** The decimal digits of `n`, most significant first, without leading zeros. */
  function DecimalString(n: nat): string
    decreases n
  {
    if n < 10 then [DigitChar(n)] else DecimalString(n / 10) + [DigitChar(n % 10)]
  }

  /** `s.padStart(2, '0')`: left-pad with '0' up to length 2, never truncate. */
  function PadStart2(s: string): string
    decreases 2 - |s|
  {
    if |s| >= 2 then s else PadStart2("0" + s)
  }

  /** The two-or-more character field that `updateDisplay` builds for a part. */
  function Field(k: nat): string {
    PadStart2(DecimalString(k))
  }

  /** The readout text of `updateDisplay(n)` for a non-negative `n`. */
  function Format(n: nat): string {
    Field(n / 3600) + ":" + Field((n % 3600) / 60) + ":" + Field(n % 60)
  }

  /** The value of a string of decimal digits (the empty string reads as 0). */
  function ParseDecimal(s: string): nat
    requires AllDigits(s)
    decreases |s|
  {
    if s == [] then 0 else 10 * ParseDecimal(s[..|s| - 1]) + DigitValue(s[|s| - 1])
  }

  /**
   * Reads `H:MM:SS` back into seconds: hours any run of digits, minutes and seconds
   * exactly two digits each and below 60; anything else is `None`.
   */
  function ParseClock(s: string): Option<nat> {
    var n := |s|;
    if n < 8 || s[n - 6] != ':' || s[n - 3] != ':' then None
    else ParseFields(s[..n - 6], s[n - 5..n - 3], s[n - 2..])
  }

  function ParseFields(hh: string, mm: string, ss: string): Option<nat> {
    if !(AllDigits(hh) && AllDigits(mm) && AllDigits(ss)) then None
    else
      var m, sec := ParseDecimal(mm), ParseDecimal(ss);
      if m >= 60 || sec >= 60 then None else Some(ParseDecimal(hh) * 3600 + m * 60 + sec)
  }

  // ---------------------------------------------------------------------------
  // Decimal digits

  lemma {:induction false} DecimalStringRoundTrip(n: nat)
    ensures AllDigits(DecimalString(n)) && |DecimalString(n)| >= 1
    ensures ParseDecimal(DecimalString(n)) == n
    decreases n
  {
    var s := DecimalString(n);
    if n < 10 {
      assert s[..|s| - 1] == [];
    } else {
      DecimalStringRoundTrip(n / 10);
      assert s[..|s| - 1] == DecimalString(n / 10);
    }
  }

  /**
   * The number of digits: one exactly below 10, three exactly from 100 to 999, and
   * three or more exactly from 100 on.
   */
  lemma {:induction false} DecimalStringLength(n: nat)
    ensures |DecimalString(n)| == 1 <==> n < 10
    ensures |DecimalString(n)| == 3 <==> 100 <= n < 1000
    ensures |DecimalString(n)| >= 3 <==> n >= 100
    decreases n
  {
    if n >= 10 {
      DecimalStringLength(n / 10);
    }
  }

  /** A number of two or more digits does not start with '0'. */
  lemma {:induction false} NoLeadingZero(n: nat)
    requires n >= 10
    ensures DecimalString(n)[0] != '0'
    decreases n
  {
    if n / 10 >= 10 {
      NoLeadingZero(n / 10);
    }
  }

  lemma {:induction false} LeadingZero(s: string)
    requires AllDigits(s)
    ensures AllDigits("0" + s) && ParseDecimal("0" + s) == ParseDecimal(s)
    decreases |s|
  {
    var z := "0" + s;
    assert AllDigits(z) by {
      forall i | 0 <= i < |z| ensures IsDigit(z[i]) {
        if i > 0 { assert z[i] == s[i - 1]; }
      }
    }
    if s == [] {
      assert z[..|z| - 1] == [];
    } else {
      assert z[..|z| - 1] == "0" + s[..|s| - 1];
      LeadingZero(s[..|s| - 1]);
    }
  }

  /** Padding keeps the digits and their value and gives at least two characters. */
  lemma {:induction false} PadStart2Keeps(s: string)
    requires AllDigits(s)
    ensures AllDigits(PadStart2(s)) && ParseDecimal(PadStart2(s)) == ParseDecimal(s)
    ensures |PadStart2(s)| == if |s| >= 2 then |s| else 2
    ensures |s| >= 2 ==> PadStart2(s) == s
    decreases 2 - |s|
  {
    if |s| < 2 {
      LeadingZero(s);
      PadStart2Keeps("0" + s);
    }
  }

  /**
   * A field holds the decimal digits of its part: exactly two characters below 100,
   * and the unpadded digits (three or more) from 100 on.
   */
  lemma FieldShape(k: nat)
    ensures AllDigits(Field(k)) && ParseDecimal(Field(k)) == k
    ensures |Field(k)| >= 2
    ensures |Field(k)| == 2 <==> k < 100
    ensures |Field(k)| == 3 <==> 100 <= k < 1000
    ensures k >= 100 ==> Field(k) == DecimalString(k)
  {
    DecimalStringRoundTrip(k);
    DecimalStringLength(k);
    PadStart2Keeps(DecimalString(k));
  }

  // ---------------------------------------------------------------------------
  // The readout

  lemma SplitSeconds(n: nat)
    ensures 0 <= (n % 3600) / 60 < 60 && 0 <= n % 60 < 60
    ensures (n / 3600) * 3600 + ((n % 3600) / 60) * 60 + n % 60 == n
  {
    var q, r := n / 3600, n % 3600;
    var a, b := r / 60, r % 60;
    assert r == 60 * a + b && 0 <= b < 60;
    assert n == 60 * (60 * q + a) + b;
  }

  /**
   * The shape of the readout: hours, minutes and seconds fields separated by ':',
   * minutes and seconds always exactly two digits, the hours at least two and three
   * or more exactly when there are 100 hours or more.
   */
  lemma FormatShape(n: nat)
    ensures |Format(n)| == |Field(n / 3600)| + 6
    ensures Format(n)[|Format(n)| - 6] == ':' && Format(n)[|Format(n)| - 3] == ':'
    ensures |Field((n % 3600) / 60)| == 2 && |Field(n % 60)| == 2
    ensures |Format(n)| >= 8
    ensures |Format(n)| == 8 <==> n < 360000
  {
    SplitSeconds(n);
    FieldShape(n / 3600);
    FieldShape((n % 3600) / 60);
    FieldShape(n % 60);
  }

  /** `ParseClock` finds the three fields of `hh:mm:ss` where they were put. */
  lemma ClockSlices(hh: string, mm: string, ss: string)
    requires |hh| >= 2 && |mm| == 2 && |ss| == 2
    ensures ParseClock(hh + ":" + mm + ":" + ss) == ParseFields(hh, mm, ss)
  {
    var s := hh + ":" + mm + ":" + ss;
    var n := |s|;
    assert s[..n - 6] == hh;
    assert s[n - 5..n - 3] == mm;
    assert s[n - 2..] == ss;
  }

  lemma FieldsBelowSixty(hh: string, mm: string, ss: string)
    requires AllDigits(hh) && AllDigits(mm) && AllDigits(ss)
    requires ParseDecimal(mm) < 60 && ParseDecimal(ss) < 60
    ensures ParseFields(hh, mm, ss) ==
            Some(ParseDecimal(hh) * 3600 + ParseDecimal(mm) * 60 + ParseDecimal(ss))
  {
  }

  /** A text `hh:mm:ss` with digit fields, `mm` and `ss` two digits below 60, reads as its seconds. */
  lemma ParseClockOf(hh: string, mm: string, ss: string)
    requires AllDigits(hh) && AllDigits(mm) && AllDigits(ss)
    requires |hh| >= 2 && |mm| == 2 && |ss| == 2
    requires ParseDecimal(mm) < 60 && ParseDecimal(ss) < 60
    ensures ParseClock(hh + ":" + mm + ":" + ss) ==
            Some(ParseDecimal(hh) * 3600 + ParseDecimal(mm) * 60 + ParseDecimal(ss))
  {
    FieldsBelowSixty(hh, mm, ss);
    ClockSlices(hh, mm, ss);
  }

  /** Reading a readout gives back the seconds it was made from. */
  lemma ParseFormatRoundTrip(n: nat)
    ensures ParseClock(Format(n)) == Some(n)
  {
    SplitSeconds(n);
    FieldShape(n / 3600);
    FieldShape((n % 3600) / 60);
    FieldShape(n % 60);
    ParseClockOf(Field(n / 3600), Field((n % 3600) / 60), Field(n % 60));
  }

  /** Different second counts never share a readout. */
  lemma FormatInjective(a: nat, b: nat)
    requires Format(a) == Format(b)
    ensures a == b
  {
    ParseFormatRoundTrip(a);
    ParseFormatRoundTrip(b);
  }

  /**
   * The readout of `h*3600 + m*60 + s` shows exactly `h`, `m` and `s` when the
   * minutes and seconds are below 60.
   */
  lemma FormatFields(h: nat, m: nat, s: nat)
    requires m < 60 && s < 60
    ensures Format(h * 3600 + m * 60 + s) == Field(h) + ":" + Field(m) + ":" + Field(s)
  {
    var n := h * 3600 + m * 60 + s;
    var r := m * 60 + s;
    assert 0 <= r < 3600;
    assert n / 3600 == h && n % 3600 == r;
    assert r / 60 == m && r % 60 == s;
    assert n % 60 == s by {
      assert n == 60 * (60 * h + m) + s;
    }
  }

  lemma FieldExamples()
    ensures Field(0) == "00" && Field(1) == "01" && Field(59) == "59" && Field(100) == "100"
  {
  }

  /** The readouts 01:01:01, 00:00:59, 00:00:00 and 100:00:00. */
  lemma FormatExamples()
    ensures Format(3661) == "01:01:01"
    ensures Format(59) == "00:00:59"
    ensures Format(0) == "00:00:00"
    ensures Format(360000) == "100:00:00"
  {
    FieldExamples();
    FormatFields(1, 1, 1);
    FormatFields(0, 0, 59);
    FormatFields(0, 0, 0);
    FormatFields(100, 0, 0);
  }
}
