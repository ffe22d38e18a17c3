/**
 * The countdown text and the session label shown by the timer display
 * (src/components/TimerDisplay.tsx).
 */
module TimerDisplay {

  /** The three session values the display's label table is keyed by (src/types/timer.ts). */
  datatype SessionKind = Work | ShortBreak | LongBreak

  predicate IsDigit(c: char) {
    '0' <= c <= '9'
  }

  predicate AllDigits(s: string) {
    forall i :: 0 <= i < |s| ==> IsDigit(s[i])
  }

  function DigitChar(d: nat): (c: char)
    requires d < 10
    ensures IsDigit(c)
  {
    (48 + d) as char
  }

  function DigitValue(c: char): nat
    requires IsDigit(c)
  {
    (c as int) - 48
  }

  /** `String(n)` for a non-negative integer: its decimal digits, most significant first. */
  function NatToString(n: nat): (s: string)
    ensures 1 <= |s| && AllDigits(s)
    ensures n < 10 <==> |s| == 1
    ensures n < 100 ==> |s| <= 2
    ensures |s| > 1 ==> s[0] != '0'
  {
    if n < 10 then [DigitChar(n)] else NatToString(n / 10) + [DigitChar(n % 10)]
  }

  /** `String(n)` for any integer: a minus sign before the digits of a negative value. */
  function NumberToString(n: int): (r: string)
    ensures 1 <= |r| && (r[0] == '-' <==> n < 0)
    ensures n >= 0 ==> AllDigits(r)
  {
    if n < 0 then "-" + NatToString(-n) else NatToString(n)
  }

  /** `s.padStart(2, "0")`: leading zeros up to length two, never truncating. */
  function PadStart2(s: string): (r: string)
    ensures |r| == if |s| < 2 then 2 else |s|
    ensures r[|r| - |s|..] == s
    ensures forall i :: 0 <= i < |r| - |s| ==> r[i] == '0'
  {
    if |s| == 0 then "00" else if |s| == 1 then "0" + s else s
  }

  /**
   * JavaScript's `t % 60` on an integer: the remainder takes the sign of the
   * dividend, so t is a whole number of minutes away from it.
   */
  function JsRemainder60(t: int): (r: int)
    ensures t >= 0 ==> 0 <= r < 60
    ensures t < 0 ==> -60 < r <= 0
    ensures (t - r) % 60 == 0
  {
    if t >= 0 then t % 60 else -((-t) % 60)
  }

  /** One field of the text: `String(n).padStart(2, "0")`; at least two characters, exactly two below 100. */
  function Field(n: int): (p: string)
    ensures |p| >= 2
    ensures 0 <= n < 100 ==> |p| == 2
  {
    PadStart2(NumberToString(n))
  }

  /**
   * `formatTime`: whole minutes (`Math.floor(t / 60)`, a floor, which Dafny's
   * `/` by a positive divisor is) and the JavaScript remainder, each padded
   * to two digits, joined by a colon.
   */
  function FormatTime(totalSeconds: int): (r: string)
    ensures totalSeconds >= 0 ==> |r| >= 5 && r[|r| - 3] == ':'
    ensures 0 <= totalSeconds < 6000 ==> |r| == 5
  {
    Field(totalSeconds / 60) + ":" + Field(JsRemainder60(totalSeconds))
  }

  /** The numeric value of a string of decimal digits. */
  function DigitsValue(s: string): nat
    requires AllDigits(s)
  {
    if s == [] then 0 else 10 * DigitsValue(s[..|s| - 1]) + DigitValue(s[|s| - 1])
  }

  lemma {:induction false} DigitsValueOfNat(n: nat)
    ensures DigitsValue(NatToString(n)) == n
  {
    var s := NatToString(n);
    if n >= 10 {
      DigitsValueOfNat(n / 10);
      assert s[..|s| - 1] == NatToString(n / 10);
    }
  }

  /** Leading zeros do not change a digit string's value. */
  lemma {:induction false} DigitsValueLeadingZeros(z: string, s: string)
    requires forall i :: 0 <= i < |z| ==> z[i] == '0'
    requires AllDigits(s)
    ensures AllDigits(z + s) && DigitsValue(z + s) == DigitsValue(s)
  {
    if s == [] {
      assert z + s == z;
      if z != [] {
        assert z[..|z| - 1] + [] == z[..|z| - 1];
        DigitsValueLeadingZeros(z[..|z| - 1], []);
      }
    } else {
      assert (z + s)[..|z + s| - 1] == z + s[..|s| - 1];
      DigitsValueLeadingZeros(z, s[..|s| - 1]);
    }
  }

  /** The field of a non-negative value is all digits and reads back as that value. */
  lemma PaddedFieldValue(n: nat)
    ensures AllDigits(Field(n))
    ensures DigitsValue(Field(n)) == n
  {
    var s := NatToString(n);
    var p := PadStart2(s);
    assert p == p[..|p| - |s|] + s;
    DigitsValueLeadingZeros(p[..|p| - |s|], s);
    DigitsValueOfNat(n);
  }

  /**
   * Reading `r` back as "minutes:seconds" gives `t`: the last three
   * characters are a colon and a seconds field, both fields are digits, the
   * seconds are below 60 and 60 * minutes + seconds == t.
   */
  predicate ReadsBackAs(r: string, t: int) {
    var k := |r| - 3;
    && k >= 2 && r[k] == ':'
    && AllDigits(r[..k]) && AllDigits(r[k + 1..])
    && DigitsValue(r[k + 1..]) < 60
    && 60 * DigitsValue(r[..k]) + DigitsValue(r[k + 1..]) == t
  }

  /** Two fields joined by a colon split back into those fields at the third character from the end. */
  lemma SplitAtColon(mm: string, ss: string)
    requires |ss| == 2
    ensures var r := mm + ":" + ss;
      |r| - 3 == |mm| && r[|mm|] == ':' && r[..|mm|] == mm && r[|mm| + 1..] == ss
  {
    var r := mm + ":" + ss;
    assert r[..|mm|] == mm;
    assert r[|mm| + 1..] == ss;
  }

  /** Two digit fields joined by a colon, the second two digits below 60, read back as 60 * first + second. */
  lemma ReadsBackFields(mm: string, ss: string)
    requires AllDigits(mm) && |mm| >= 2 && AllDigits(ss) && |ss| == 2 && DigitsValue(ss) < 60
    ensures ReadsBackAs(mm + ":" + ss, 60 * DigitsValue(mm) + DigitsValue(ss))
  {
    SplitAtColon(mm, ss);
    var r := mm + ":" + ss;
    assert r[..|r| - 3] == mm && r[|r| - 3 + 1..] == ss;
  }

  /** For a non-negative count the text reads back as that count. */
  lemma FormatTimeRoundTrip(t: nat)
    ensures ReadsBackAs(FormatTime(t), t)
  {
    var mm, ss := Field(t / 60), Field(t % 60);
    PaddedFieldValue(t / 60);
    PaddedFieldValue(t % 60);
    assert FormatTime(t) == mm + ":" + ss;
    ReadsBackFields(mm, ss);
  }

  /** Below 100 minutes the text is exactly "dd:dd". */
  lemma FormatTimeShape(t: int)
    requires 0 <= t < 6000
    ensures var r := FormatTime(t);
      |r| == 5 && r[2] == ':' && IsDigit(r[0]) && IsDigit(r[1]) && IsDigit(r[3]) && IsDigit(r[4])
  {
    var mm, ss := Field(t / 60), Field(t % 60);
    PaddedFieldValue(t / 60);
    PaddedFieldValue(t % 60);
    var r := FormatTime(t);
    assert r == mm + ":" + ss;
    assert r[0] == mm[0] && r[1] == mm[1] && r[3] == ss[0] && r[4] == ss[1];
  }

  /** The time text: "00:00" once the run is complete, whatever the count says. */
  function TimeText(remainingSeconds: int, isComplete: bool): (r: string)
    ensures isComplete ==> r == FormatTime(0)
    ensures !isComplete ==> r == FormatTime(remainingSeconds)
  {
    if isComplete then "00:00" else FormatTime(remainingSeconds)
  }

  /** The session label: "Complete" once the run is complete, else the session's name. */
  function SessionLabel(session: SessionKind, isComplete: bool): (r: string)
    ensures isComplete <==> r == "Complete"
  {
    if isComplete then "Complete"
    else match session
      case Work => "Work"
      case ShortBreak => "Short Break"
      case LongBreak => "Long Break"
  }
}
