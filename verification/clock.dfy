/** "H:MM" clock text of a whole number of minutes, as the countdown shows it, and reading it back. */
module Clock {
  import opened Wrappers
  import opened Decimal

  /** Hours and minutes text joined by a colon. */
  function Join(hours: string, minutes: string): string {
    hours + ":" + minutes
  }

  /** "H:MM" text of a whole number of minutes: `String(h)` and `String(m).padStart(2, "0")`. */
  function ClockText(total: nat): string {
    Join(IntToString(total / 60), PadStart(IntToString(total % 60), 2, '0'))
  }

  /** Reads "H:MM" text back as a number of minutes. */
  function ParseHHMM(s: string): Option<int> {
    if |s| >= 4 && s[|s| - 3] == ':' && AllDigits(s[..|s| - 3]) && AllDigits(s[|s| - 2..])
    then Some(ParseDigits(s[..|s| - 3]) * 60 + ParseDigits(s[|s| - 2..]))
    else None
  }

  /** Hour digits, a colon and two minute digits read back as hours * 60 + minutes. */
  lemma ParseHHMMJoin(hs: string, ms: string, h: int, m: int)
    requires |hs| >= 1 && AllDigits(hs) && ParseDigits(hs) == h
    requires |ms| == 2 && AllDigits(ms) && ParseDigits(ms) == m
    ensures var s := Join(hs, ms);
      && s[|s| - 3] == ':' && s[|s| - 2..] == ms
      && ParseHHMM(s) == Some(h * 60 + m)
  {
    var s := Join(hs, ms);
    assert s[..|s| - 3] == hs;
    assert s[|s| - 2..] == ms;
  }

  /** Padding a number of at most two digits with '0' gives two digits of the same value. */
  lemma PadZeroValue(m: nat)
    requires m < 100
    ensures var p := PadStart(IntToString(m), 2, '0');
      |p| == 2 && AllDigits(p) && ParseDigits(p) == m
  {
    var x, y := if m < 10 then '0' else DigitChar(m / 10), DigitChar(m % 10);
    if m < 10 {
      PadOneDigit(m);
    } else {
      PadTwoDigits(m);
    }
    assert PadStart(IntToString(m), 2, '0') == [x, y];
  }

  /** A single digit gains a leading '0'. */
  lemma PadOneDigit(m: nat)
    requires m < 10
    ensures PadStart(IntToString(m), 2, '0') == ['0', DigitChar(m)]
    ensures ParseDigits(['0', DigitChar(m)]) == m
  {
    var d := DigitChar(m);
    assert IntToString(m) == [d];
    assert PadStart([d], 2, '0') == Repeat('0', 1) + [d];
    assert Repeat('0', 1) + [d] == ['0', d];
    ParseTwoDigits('0', d);
  }

  /** Two digits are left as they are. */
  lemma PadTwoDigits(m: nat)
    requires 10 <= m < 100
    ensures PadStart(IntToString(m), 2, '0') == [DigitChar(m / 10), DigitChar(m % 10)]
    ensures ParseDigits([DigitChar(m / 10), DigitChar(m % 10)]) == m
  {
    var a, b := DigitChar(m / 10), DigitChar(m % 10);
    assert NatToString(m / 10) == [a];
    assert IntToString(m) == [a] + [b];
    assert [a] + [b] == [a, b];
    ParseTwoDigits(a, b);
  }

  /** Two digits read as tens and units. */
  lemma ParseTwoDigits(a: char, b: char)
    requires IsDigit(a) && IsDigit(b)
    ensures ParseDigits([a, b]) == 10 * DigitValue(a) + DigitValue(b)
  {
    assert [a, b][..1] == [a];
    assert [a][..0] == [];
    assert ParseDigits([a]) == DigitValue(a);
  }

  /** The clock text of `total` minutes reads back as `total`; its last two characters are the minutes. */
  lemma ClockTextRoundTrip(total: nat)
    ensures var s := ClockText(total);
      && ParseHHMM(s) == Some(total)
      && s[|s| - 3] == ':'
      && ParseDigits(s[|s| - 2..]) == total % 60
  {
    var h, m := total / 60, total % 60;
    var hs := IntToString(h);
    var ms := PadStart(IntToString(m), 2, '0');
    assert ClockText(total) == Join(hs, ms);
    PadZeroValue(m);
    ParseNatToString(h);
    ParseHHMMJoin(hs, ms, h, m);
  }
}
