/** The `MM:SS` timer text of the interview screen
    (src/screens/MockInterview/index.tsx, `formatTime`). */
module TimeFormat {
  import opened Wrappers
  import opened JsValues

  /** `x.toString().padStart(2, '0')`. */
  function Pad2(s: string): string {
    PadStart(s, 2, '0')
  }

  /** `formatTime`: whole minutes and the remaining seconds, each padded to
      two characters. `Math.floor(seconds / 60)` is Dafny's `/`, which floors
      for a positive divisor; `seconds % 60` is JavaScript's truncating
      remainder. */
  function FormatTime(seconds: int): (r: string)
    ensures seconds < 0 ==> |r| >= 2 && r[0] == '-'
    ensures seconds >= 0 ==> |r| >= 5 && r[|r| - 3] == ':' && AllDigits(r[|r| - 2..])
  {
    Pad2(IntToString(seconds / 60)) + ":" + Pad2(IntToString(JsRem(seconds, 60)))
  }

  /** Reads an `MM:SS` text back into seconds: at least two minute digits, a
      colon, and two second digits below 60. */
  function ParseTime(t: string): (r: Option<nat>)
    ensures r.Some? ==> |t| >= 5 && t[|t| - 3] == ':' && AllDigits(t[..|t| - 3])
  {
    if |t| >= 5 && t[|t| - 3] == ':' && AllDigits(t[..|t| - 3]) && AllDigits(t[|t| - 2..])
       && DigitsValue(t[|t| - 2..]) < 60
    then Some(DigitsValue(t[..|t| - 3]) * 60 + DigitsValue(t[|t| - 2..]))
    else None
  }

  /** A padded text denotes the same number as the unpadded one. */
  lemma Pad2Value(n: nat)
    ensures AllDigits(Pad2(NatToString(n)))
    ensures DigitsValue(Pad2(NatToString(n))) == n
    ensures |Pad2(NatToString(n))| == (if n < 100 then 2 else |NatToString(n)|)
  {
    var s := NatToString(n);
    var p := Pad2(s);
    NatToStringValue(n);
    assert p == Repeat('0', |p| - |s|) + s;
    LeadingZerosValue(|p| - |s|, s);
  }

  /** For every non-negative timer value, the text reads back as that value,
      and it is exactly five characters long when the time is under 100
      minutes. */
  lemma {:induction false} FormatTimeRoundTrip(seconds: nat)
    ensures ParseTime(FormatTime(seconds)) == Some(seconds)
    ensures |FormatTime(seconds)| == 5 <==> seconds < 6000
  {
    var m, s := seconds / 60, seconds % 60;
    var mm, ss := Pad2(NatToString(m)), Pad2(NatToString(s));
    Pad2Value(m);
    Pad2Value(s);
    var t := FormatTime(seconds);
    assert t == mm + ":" + ss;
    assert t[..|t| - 3] == mm;
    assert t[|t| - 2..] == ss;
  }

  /** The `MM:SS` shape for times under 100 minutes: two minute digits, a
      colon, two second digits below 60, and MM * 60 + SS is the input. */
  lemma FormatTimeShape(seconds: int)
    requires 0 <= seconds < 6000
    ensures var r := FormatTime(seconds);
      && |r| == 5 && r[2] == ':' && AllDigits(r[..2]) && AllDigits(r[3..])
      && DigitsValue(r[3..]) < 60
      && DigitsValue(r[..2]) * 60 + DigitsValue(r[3..]) == seconds
  {
    FormatTimeRoundTrip(seconds);
  }
}
