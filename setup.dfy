/**
  The three-step device-setup wizard of app/setup/page.tsx: scan the device's
  QR code, connect it to Wi-Fi, test the feed. The three- and four-second
  timers of the scan and connect buttons are modelled as completion events.
*/
module Setup {

  datatype StepInfo = StepInfo(id: int, title: string, description: string)

  const Steps: seq<StepInfo> := [
    StepInfo(1, "Scan Device QR Code", "Point your camera at the device QR code"),
    StepInfo(2, "Connect to Wi-Fi", "Enter your network credentials"),
    StepInfo(3, "Test Camera Feed", "Verify camera is working properly")
  ]

  const DashboardPath: string := "/dashboard"

  predicate ValidStep(s: int) {
    1 <= s <= |Steps|
  }

  /** `nextStep`: advance unless already at the last step. */
  function NextStep(s: int): int {
    if s < |Steps| then s + 1 else s
  }

  /** `prevStep`: go back unless already at the first step. */
  function PrevStep(s: int): int {
    if s > 1 then s - 1 else s
  }

  /** Both moves keep the step in 1..3, change it by at most one, and are no-ops at the ends. */
  lemma StepMovesStayInRange(s: int)
    requires ValidStep(s)
    ensures ValidStep(NextStep(s)) && ValidStep(PrevStep(s))
    ensures NextStep(s) == s <==> s == 3
    ensures PrevStep(s) == s <==> s == 1
    ensures s <= NextStep(s) <= s + 1 && s - 1 <= PrevStep(s) <= s
  {
  }

  /** Back undoes Skip below the last step, and Skip undoes Back above the first. */
  lemma StepRoundTrips(s: int)
    ensures 1 <= s <= 2 ==> PrevStep(NextStep(s)) == s
    ensures 2 <= s <= 3 ==> NextStep(PrevStep(s)) == s
  {
  }

  /** The `disabled` expression of the Connect button. */
  predicate ConnectDisabled(isConnecting: bool, wifiName: string, wifiPassword: string) {
    isConnecting || wifiName == "" || wifiPassword == ""
  }

  /** How one progress marker is drawn. */
  datatype Marker = Marker(highlighted: bool, checked: bool)

  /** The three progress markers for the current step. */
  function Progress(current: int): (m: seq<Marker>)
    ensures |m| == |Steps|
  {
    seq(|Steps|, i requires 0 <= i < |Steps| => Marker(current >= Steps[i].id, current > Steps[i].id))
  }

  function CountHighlighted(m: seq<Marker>): nat {
    if m == [] then 0 else (if m[0].highlighted then 1 else 0) + CountHighlighted(m[1..])
  }

  function CountChecked(m: seq<Marker>): nat {
    if m == [] then 0 else (if m[0].checked then 1 else 0) + CountChecked(m[1..])
  }

  /** At step s, markers 1..s are highlighted and 1..s-1 carry a check: a checked marker is highlighted. */
  lemma ProgressCounts(s: int)
    requires ValidStep(s)
    ensures CountHighlighted(Progress(s)) == s
    ensures CountChecked(Progress(s)) == s - 1
    ensures forall i :: 0 <= i < |Steps| && Progress(s)[i].checked ==> Progress(s)[i].highlighted
  {
    var m := Progress(s);
    assert m == [Marker(s >= 1, s > 1), Marker(s >= 2, s > 2), Marker(s >= 3, s > 3)];
    assert m[1..] == [m[1], m[2]] && m[1..][1..] == [m[2]] && m[1..][1..][1..] == [];
    assert CountHighlighted(m[1..][1..]) == (if s >= 3 then 1 else 0);
    assert CountHighlighted(m[1..]) == (if s >= 2 then 1 else 0) + (if s >= 3 then 1 else 0);
    assert CountChecked(m[1..][1..]) == 0;
    assert CountChecked(m[1..]) == (if s > 2 then 1 else 0);
  }

  /** Back and Skip are rendered only before the last step. */
  predicate NavigationShown(current: int) {
    current < 3
  }

  /** Back is disabled on the first step. */
  predicate BackDisabled(current: int) {
    current == 1
  }

  /** Back and Skip are shown exactly while Skip would move, and Back is disabled exactly where it would not move. */
  lemma ButtonsMatchMoves(s: int)
    requires ValidStep(s)
    ensures NavigationShown(s) <==> NextStep(s) != s
    ensures BackDisabled(s) <==> PrevStep(s) == s
  {
  }

  /** The title shown above the step content: `steps[currentStep - 1]`. */
  function CurrentTitle(current: int): (t: string)
    requires ValidStep(current)
    ensures t == Steps[current - 1].title && Steps[current - 1].id == current
  {
    Steps[current - 1].title
  }

  /**
    The step a completion timer sets, as written: the callback calls the
    `nextStep` of the render in which the button was clicked, which reads the
    step of that render, `captured`, not the current one.
  */
  function CompletionAsWritten(captured: int, current: int): int {
    if captured < |Steps| then captured + 1 else current
  }

  /** Scan at step 1, Skip twice to step 3: the scan's completion sends the wizard back to step 2. */
  lemma CompletionAsWrittenMovesBack()
    ensures CompletionAsWritten(1, 3) == 2 < 3
  {
  }

  /**
    Connect started at step 2, then Back to step 1: the completion jumps two
    steps ahead, to step 3, both as written and under the corrected rule.
  */
  lemma CompletionJumpsAfterBack()
    ensures CompletionAsWritten(2, 1) == 3 == 1 + 2
    ensures Completion(2, 1) == 3
  {
  }

  /** The step a completion sets in this model: past the completed step, but never back. */
  function Completion(captured: int, current: int): (r: int)
    requires ValidStep(captured) && ValidStep(current)
    ensures ValidStep(r)
    ensures r >= current && r >= NextStep(captured)
    ensures r == current || r == NextStep(captured)
    ensures r > current ==> r == NextStep(captured) <= captured + 1
    ensures captured == current ==> r == NextStep(current) && r == CompletionAsWritten(captured, current)
  {
    if NextStep(captured) > current then NextStep(captured) else current
  }

  class SetupWizard {
    var currentStep: int
    var wifiName: string
    var wifiPassword: string
    var isScanning: bool
    var isConnecting: bool
    /** The step at which the pending scan and connect timers were started. */
    var scanStartedAt: int
    var connectStartedAt: int

    ghost predicate Valid()
      reads this
    {
      && ValidStep(currentStep)
      && (isScanning ==> ValidStep(scanStartedAt))
      && (isConnecting ==> ValidStep(connectStartedAt))
    }

    constructor ()
      ensures Valid()
      ensures currentStep == 1 && wifiName == "" && wifiPassword == ""
      ensures !isScanning && !isConnecting
    {
      currentStep := 1;
      wifiName, wifiPassword := "", "";
      isScanning, isConnecting := false, false;
      scanStartedAt, connectStartedAt := 1, 1;
    }

    /** The Skip Step button. */
    method Next()
      requires Valid()
      modifies this`currentStep
      ensures Valid() && currentStep == NextStep(old(currentStep))
    {
      if currentStep < |Steps| {
        currentStep := currentStep + 1;
      }
    }

    /** The Back button. */
    method Prev()
      requires Valid()
      modifies this`currentStep
      ensures Valid() && currentStep == PrevStep(old(currentStep))
    {
      if currentStep > 1 {
        currentStep := currentStep - 1;
      }
    }

    method SetWifiName(v: string)
      requires Valid()
      modifies this`wifiName
      ensures Valid() && wifiName == v
    {
      wifiName := v;
    }

    method SetWifiPassword(v: string)
      requires Valid()
      modifies this`wifiPassword
      ensures Valid() && wifiPassword == v
    {
      wifiPassword := v;
    }

    /** `handleScan`: the scan button exists on step 1 only and is disabled while scanning. */
    method HandleScan()
      requires Valid() && currentStep == 1 && !isScanning
      modifies this`isScanning, this`scanStartedAt
      ensures Valid() && isScanning && scanStartedAt == currentStep
    {
      isScanning := true;
      scanStartedAt := currentStep;
    }

    /** The scan timer fires: the busy flag clears and the step moves past the scanned one. */
    method ScanDone()
      requires Valid() && isScanning
      modifies this`isScanning, this`currentStep
      ensures Valid() && !isScanning
      ensures currentStep == Completion(scanStartedAt, old(currentStep))
    {
      isScanning := false;
      var target := NextStep(scanStartedAt);
      if target > currentStep {
        currentStep := target;
      }
    }

    /** `handleConnect`: the connect button exists on step 2 only and is enabled as `ConnectDisabled` says. */
    method HandleConnect()
      requires Valid() && currentStep == 2
      requires !ConnectDisabled(isConnecting, wifiName, wifiPassword)
      modifies this`isConnecting, this`connectStartedAt
      ensures Valid() && isConnecting && connectStartedAt == currentStep
    {
      isConnecting := true;
      connectStartedAt := currentStep;
    }

    /** The connect timer fires. */
    method ConnectDone()
      requires Valid() && isConnecting
      modifies this`isConnecting, this`currentStep
      ensures Valid() && !isConnecting
      ensures currentStep == Completion(connectStartedAt, old(currentStep))
    {
      isConnecting := false;
      var target := NextStep(connectStartedAt);
      if target > currentStep {
        currentStep := target;
      }
    }

    /** The Go to Security Dashboard button of the last step. */
    method GoToDashboard() returns (target: string)
      requires currentStep == 3
      ensures target == DashboardPath
    {
      target := DashboardPath;
    }
  }
}
