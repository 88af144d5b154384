/**
  The full-screen intrusion alarm of app/alarm/page.tsx: the alert-duration
  counter, its mm:ss display, and the emergency-call flag. The one-second
  interval and the ten-second timeout are modelled as events the screen
  receives.
*/
module Alarm {
  import opened JsString
  import opened Optional

  const DashboardPath: string := "/dashboard"

  /** `Math.floor(t / 60).toString().padStart(2, "0")` */
  function MinutesField(t: nat): string {
    PadStart(NatToString(t / 60), 2, '0')
  }

  /** `(t % 60).toString().padStart(2, "0")` */
  function SecondsField(t: nat): string {
    PadStart(NatToString(t % 60), 2, '0')
  }

  /** The alert-duration text. */
  function Display(t: nat): string {
    MinutesField(t) + ":" + SecondsField(t)
  }

  /** Reads a duration text back: the two characters after the last-but-two position are the seconds, the rest before the colon the minutes. */
  function ReadDisplay(d: string): Option<int> {
    if |d| >= 3 && d[|d| - 3] == ':' then Some(FieldsValue(d[..|d| - 3], d[|d| - 2..]))
    else None
  }

  /** The seconds denoted by a minutes field and a seconds field. */
  function FieldsValue(minutes: string, seconds: string): int {
    ParseDigits(minutes) * 60 + ParseDigits(seconds)
  }

  /** The seconds field is always two digits, 00 to 59, and denotes `t % 60`. */
  lemma SecondsFieldShape(t: nat)
    ensures |SecondsField(t)| == 2 && AllDigits(SecondsField(t))
    ensures ParseDigits(SecondsField(t)) == t % 60 < 60
  {
    PadStartZerosValue(NatToString(t % 60), 2);
  }

  /** The minutes field is `t / 60` padded to at least two digits and never truncated. */
  lemma MinutesFieldShape(t: nat)
    ensures var digits := NatToString(t / 60);
      && |MinutesField(t)| == (if |digits| >= 2 then |digits| else 2)
      && MinutesField(t)[|MinutesField(t)| - |digits|..] == digits
      && AllDigits(MinutesField(t))
      && ParseDigits(MinutesField(t)) == t / 60
  {
    PadStartZerosValue(NatToString(t / 60), 2);
  }

  /** A minutes text, a colon and a two-character seconds text read back as 60 * minutes + seconds. */
  lemma ReadDisplayOf(m: string, sec: string)
    requires |sec| == 2
    ensures ReadDisplay(m + ":" + sec) == Some(FieldsValue(m, sec))
  {
    SplitDisplay(m, sec);
  }

  lemma SplitDisplay(m: string, sec: string)
    requires |sec| == 2
    ensures var d := m + ":" + sec;
      && |d| == |m| + 3 && d[|d| - 3] == ':' && d[..|d| - 3] == m && d[|d| - 2..] == sec
  {
    var d := m + ":" + sec;
    assert d[..|d| - 3] == m;
    assert d[|d| - 2..] == sec;
  }

  /** Reading the display back gives the elapsed seconds: 60 * minutes + seconds == t. */
  lemma DisplayRoundTrip(t: nat)
    ensures ReadDisplay(Display(t)) == Some(t)
  {
    var q, r := t / 60, t % 60;
    assert q * 60 + r == t;
    var m, sec := MinutesField(t), SecondsField(t);
    FieldValues(t);
    ReadDisplayOf(m, sec);
    assert Display(t) == m + ":" + sec;
  }

  /** The two fields denote `t / 60` and `t % 60`, and the seconds field has two characters. */
  lemma FieldValues(t: nat)
    ensures |SecondsField(t)| == 2
    ensures FieldsValue(MinutesField(t), SecondsField(t)) == (t / 60) * 60 + t % 60
  {
    SecondsFieldShape(t);
    MinutesFieldShape(t);
  }

  /** The bottom warning. */
  function WarningText(isCallActive: bool): string {
    if isCallActive then "Emergency services contacted"
    else "Emergency services will be contacted in 10 seconds"
  }

  /** The label of the emergency-call button. */
  function CallButtonLabel(isCallActive: bool): string {
    if isCallActive then "Calling Emergency..." else "Call Emergency Services"
  }

  /** The warning and the button label change exactly when the call flag does. */
  lemma CallTextsDistinct(a: bool, b: bool)
    ensures WarningText(a) == WarningText(b) <==> a == b
    ensures CallButtonLabel(a) == CallButtonLabel(b) <==> a == b
  {
  }

  class AlarmScreen {
    /** Seconds since the screen opened. */
    var timeElapsed: nat
    /** Whether the emergency call has started; it never stops. */
    var isCallActive: bool

    constructor ()
      ensures timeElapsed == 0 && !isCallActive
    {
      timeElapsed := 0;
      isCallActive := false;
    }

    /** The one-second interval. */
    method Tick()
      modifies this
      ensures timeElapsed == old(timeElapsed) + 1
      ensures isCallActive == old(isCallActive)
    {
      timeElapsed := timeElapsed + 1;
    }

    /** The ten-second timeout that starts the call on its own. */
    method CallTimeout()
      modifies this
      ensures isCallActive
      ensures timeElapsed == old(timeElapsed)
    {
      isCallActive := true;
    }

    /** The emergency-call button; the alert it schedules two seconds later is not modelled. */
    method EmergencyCall()
      modifies this
      ensures isCallActive
      ensures timeElapsed == old(timeElapsed)
    {
      isCallActive := true;
    }

    /** The dismiss button: always back to the dashboard, nothing else changes. */
    method DismissAlarm() returns (target: string)
      ensures target == DashboardPath
    {
      target := DashboardPath;
    }

    /** The text the screen shows: the timer and the warning. */
    function Texts(): (r: (string, string))
      reads this
      ensures ReadDisplay(r.0) == Some(timeElapsed as int)
      ensures r.1 == WarningText(isCallActive)
    {
      DisplayRoundTrip(timeElapsed);
      (Display(timeElapsed), WarningText(isCallActive))
    }
  }

  /** A screen open for 75 seconds shows "01:15". */
  lemma DisplayExample()
    ensures Display(75) == "01:15"
  {
    var m, sec := NatToString(1), NatToString(15);
    assert m == [DigitChar(1)] == "1";
    assert NatToString(5) == "5";
    assert sec == NatToString(1) + [DigitChar(5)] == "15";
    assert MinutesField(75) == Repeat('0', 1) + "1" == "01";
    assert SecondsField(75) == "15";
  }

  /** A screen left open for 75 seconds: the timeout has started the call and the timer reads 01:15. */
  method SeventyFiveSeconds() returns (s: AlarmScreen)
    ensures s.timeElapsed == 75 && s.isCallActive
    ensures s.Texts() == ("01:15", "Emergency services contacted")
  {
    s := new AlarmScreen();
    var i := 0;
    while i < 75
      invariant 0 <= i <= 75 && s.timeElapsed == i
      invariant s.isCallActive <==> i >= 10
    {
      s.Tick();
      i := i + 1;
      if i == 10 {
        s.CallTimeout();
      }
    }
    DisplayExample();
  }
}
