/**
  The security dashboard of app/dashboard/page.tsx: the armed switch, the
  simulated motion detector and its threat level, the siren condition, the
  camera viewer with its zoom, and the simulated system-health metrics.
  `Math.random()` draws are parameters of the tick methods; the two-second and
  ten-second intervals are the tick methods themselves.
*/
module Dashboard {
  import opened JsMath
  import opened Optional

  const AlarmPath: string := "/alarm"

  // ---------------------------------------------------------------- threat level

  datatype ThreatLevel = Low | Medium | High

  /** The string the page stores in `threatLevel`. */
  function ThreatName(t: ThreatLevel): string {
    match t
    case Low => "LOW"
    case Medium => "MEDIUM"
    case High => "HIGH"
  }

  const DefaultThreatColor: string := "from-blue-500 to-cyan-500"

  /** `getThreatColor`: a switch on the level string with a default. */
  function ThreatColor(level: string): string {
    if level == "HIGH" then "from-red-500 to-pink-500"
    else if level == "MEDIUM" then "from-yellow-500 to-orange-500"
    else if level == "LOW" then "from-green-500 to-emerald-500"
    else DefaultThreatColor
  }

  /** Each of the three levels gets its own colour, none of them the default; any other string gets the default. */
  lemma ThreatColorsDistinct(a: ThreatLevel, b: ThreatLevel, other: string)
    requires other != "LOW" && other != "MEDIUM" && other != "HIGH"
    ensures ThreatColor(ThreatName(a)) == ThreatColor(ThreatName(b)) <==> a == b
    ensures ThreatColor(ThreatName(a)) != DefaultThreatColor
    ensures ThreatColor(other) == DefaultThreatColor
  {
    assert ThreatName(a) == ThreatName(b) <==> a == b;
  }

  // ---------------------------------------------------------------- cameras and devices

  datatype CameraFeed = CameraFeed(id: int, name: string, location: string, image: string, resolution: string, nightVision: bool)

  const CameraFeeds: seq<CameraFeed> := [
    CameraFeed(1, "Front Driveway", "Exterior", "/camera1.png", "4K", true),
    CameraFeed(2, "Living Room", "Interior", "/camera2.jpg", "1080p", false),
    CameraFeed(3, "Office Space", "Interior", "/camera3.jpg", "1080p", true)
  ]

  datatype DeviceIcon = CameraIcon | LockIcon | SmartphoneIcon | RouterIcon | TvIcon | ActivityIcon

  /** `getDeviceIcon`: a switch on the device type with the Activity icon as default. */
  function DeviceIconFor(deviceType: string): DeviceIcon {
    if deviceType == "camera" then CameraIcon
    else if deviceType == "lock" then LockIcon
    else if deviceType == "phone" then SmartphoneIcon
    else if deviceType == "router" then RouterIcon
    else if deviceType == "tv" then TvIcon
    else ActivityIcon
  }

  /** The Activity icon is drawn exactly for the types the switch does not name, the motion sensor among them. */
  lemma DeviceIconDefault(deviceType: string)
    ensures DeviceIconFor(deviceType) == ActivityIcon <==>
      deviceType !in {"camera", "lock", "phone", "router", "tv"}
    ensures DeviceIconFor("sensor") == ActivityIcon
  {
  }

  // ---------------------------------------------------------------- zoom

  /** `Math.min(3, zoom + 0.5)` */
  function ZoomIn(z: real): real {
    Min(3.0, z + 0.5)
  }

  /** `Math.max(1, zoom - 0.5)` */
  function ZoomOut(z: real): real {
    Max(1.0, z - 0.5)
  }

  /** A multiple of one half. */
  predicate HalfStep(z: real) {
    (2.0 * z).Floor as real == 2.0 * z
  }

  /** A zoom the viewer can reach from 1: between 1 and 3 in half steps. */
  predicate ZoomLevel(z: real) {
    1.0 <= z <= 3.0 && HalfStep(z)
  }

  /** The reachable zooms are exactly 1, 1.5, 2, 2.5 and 3. */
  lemma ZoomLevels(z: real)
    ensures ZoomLevel(z) <==> z == 1.0 || z == 1.5 || z == 2.0 || z == 2.5 || z == 3.0
  {
    if ZoomLevel(z) {
      var k := (2.0 * z).Floor;
      assert 2 <= k <= 6;
      assert z == k as real / 2.0;
    }
  }

  /** Both buttons keep the zoom a reachable level, and each moves it by at most one half step. */
  lemma ZoomStaysInRange(z: real)
    requires ZoomLevel(z)
    ensures ZoomLevel(ZoomIn(z)) && ZoomLevel(ZoomOut(z))
    ensures z <= ZoomIn(z) <= z + 0.5 && z - 0.5 <= ZoomOut(z) <= z
    ensures ZoomIn(z) == z <==> z == 3.0
    ensures ZoomOut(z) == z <==> z == 1.0
  {
    ZoomLevels(z);
    ZoomLevels(ZoomIn(z));
    ZoomLevels(ZoomOut(z));
  }

  /** Zoom-out undoes zoom-in below the maximum, and zoom-in undoes zoom-out above the minimum. */
  lemma ZoomRoundTrip(z: real)
    requires ZoomLevel(z)
    ensures z < 3.0 ==> ZoomOut(ZoomIn(z)) == z
    ensures z > 1.0 ==> ZoomIn(ZoomOut(z)) == z
  {
  }

  // ---------------------------------------------------------------- system health

  datatype Health = Health(cpu: real, memory: real, network: real, storage: real)

  const InitialHealth: Health := Health(23.0, 67.0, 89.0, 45.0)

  /** The ranges the metrics tick clamps to. */
  predicate HealthInRange(h: Health) {
    && 10.0 <= h.cpu <= 90.0
    && 20.0 <= h.memory <= 95.0
    && 50.0 <= h.network <= 100.0
    && 30.0 <= h.storage <= 80.0
  }

  /** One metric: a random walk of the given amplitude, clamped. */
  function Walk(lo: real, hi: real, prev: real, draw: real, amplitude: real): (r: real)
    requires lo <= hi
    ensures lo <= r <= hi
  {
    Clamp(lo, hi, prev + (draw - 0.5) * amplitude)
  }

  /** The metrics tick with its four random draws. */
  function NextHealth(prev: Health, rCpu: real, rMemory: real, rNetwork: real, rStorage: real): (h: Health)
    ensures HealthInRange(h)
  {
    Health(
      Walk(10.0, 90.0, prev.cpu, rCpu, 10.0),
      Walk(20.0, 95.0, prev.memory, rMemory, 8.0),
      Walk(50.0, 100.0, prev.network, rNetwork, 5.0),
      Walk(30.0, 80.0, prev.storage, rStorage, 3.0))
  }

  /** From a value inside the range, a clamped walk moves at most half its amplitude. */
  lemma WalkStep(lo: real, hi: real, prev: real, draw: real, amplitude: real)
    requires lo <= prev <= hi && 0.0 <= draw < 1.0 && amplitude >= 0.0
    ensures var r := Walk(lo, hi, prev, draw, amplitude);
      prev - amplitude / 2.0 <= r && r <= prev + amplitude / 2.0
  {
    var e := draw - 0.5;
    assert (0.5 - e) * amplitude >= 0.0 && (e + 0.5) * amplitude >= 0.0;
    assert -0.5 * amplitude <= e * amplitude <= 0.5 * amplitude;
  }

  /** Starting in range, one tick changes cpu by at most 5, memory by 4, network by 2.5 and storage by 1.5. */
  lemma NextHealthSteps(prev: Health, rCpu: real, rMemory: real, rNetwork: real, rStorage: real)
    requires HealthInRange(prev)
    requires 0.0 <= rCpu < 1.0 && 0.0 <= rMemory < 1.0 && 0.0 <= rNetwork < 1.0 && 0.0 <= rStorage < 1.0
    ensures var h := NextHealth(prev, rCpu, rMemory, rNetwork, rStorage);
      && prev.cpu - 5.0 <= h.cpu <= prev.cpu + 5.0
      && prev.memory - 4.0 <= h.memory <= prev.memory + 4.0
      && prev.network - 2.5 <= h.network <= prev.network + 2.5
      && prev.storage - 1.5 <= h.storage <= prev.storage + 1.5
  {
    WalkStep(10.0, 90.0, prev.cpu, rCpu, 10.0);
    WalkStep(20.0, 95.0, prev.memory, rMemory, 8.0);
    WalkStep(50.0, 100.0, prev.network, rNetwork, 5.0);
    WalkStep(30.0, 80.0, prev.storage, rStorage, 3.0);
  }

  // ---------------------------------------------------------------- motion and siren

  /**
    The motion tick's decision: nothing happens unless the system is armed and
    the first draw exceeds 0.85; then the new level is High when the second
    draw exceeds 0.6 and Medium otherwise.
  */
  function MotionOutcome(isArmed: bool, detectDraw: real, levelDraw: real): (r: Option<ThreatLevel>)
    ensures r.Some? <==> isArmed && detectDraw > 0.85
    ensures r.Some? ==> r.value != Low && (r.value == High <==> levelDraw > 0.6)
  {
    if isArmed && detectDraw > 0.85 then Some(if levelDraw > 0.6 then High else Medium)
    else None
  }

  /** The condition under which the siren interval runs. */
  predicate SirenLoopRunning(motionDetected: bool, threatLevel: ThreatLevel) {
    motionDetected && threatLevel != Low
  }

  /** The siren sounds when its loop runs and the sound toggle is on (`playAlarmSound` returns early otherwise). */
  predicate SirenAudible(motionDetected: bool, threatLevel: ThreatLevel, alarmSoundEnabled: bool) {
    SirenLoopRunning(motionDetected, threatLevel) && alarmSoundEnabled
  }

  /** While the siren loop runs, the speaker button turns the sound on or off; while it does not run, the siren is silent either way. */
  lemma ToggleSoundSwitchesSiren(motionDetected: bool, threatLevel: ThreatLevel, alarmSoundEnabled: bool)
    ensures SirenLoopRunning(motionDetected, threatLevel) ==>
      SirenAudible(motionDetected, threatLevel, !alarmSoundEnabled) == !SirenAudible(motionDetected, threatLevel, alarmSoundEnabled)
    ensures !SirenLoopRunning(motionDetected, threatLevel) ==>
      !SirenAudible(motionDetected, threatLevel, true) && !SirenAudible(motionDetected, threatLevel, false)
  {
  }

  /** Right after a motion tick fires, the siren loop runs. */
  lemma FiredTickStartsSiren(isArmed: bool, detectDraw: real, levelDraw: real)
    requires MotionOutcome(isArmed, detectDraw, levelDraw).Some?
    ensures SirenLoopRunning(true, MotionOutcome(isArmed, detectDraw, levelDraw).value)
  {
  }

  // ---------------------------------------------------------------- the screen

  class DashboardScreen {
    var isArmed: bool
    var motionDetected: bool
    var threatLevel: ThreatLevel
    var zoom: real
    var selectedCamera: int
    var systemHealth: Health
    var alarmSoundEnabled: bool

    ghost predicate Valid()
      reads this
    {
      && ZoomLevel(zoom)
      && 0 <= selectedCamera < |CameraFeeds|
      && HealthInRange(systemHealth)
    }

    constructor ()
      ensures Valid()
      ensures !isArmed && !motionDetected && threatLevel == Low && alarmSoundEnabled
      ensures zoom == 1.0 && selectedCamera == 0 && systemHealth == InitialHealth
    {
      isArmed, motionDetected, threatLevel := false, false, Low;
      zoom, selectedCamera := 1.0, 0;
      systemHealth := InitialHealth;
      alarmSoundEnabled := true;
    }

    /** The armed switch. */
    method SetArmed(v: bool)
      requires Valid()
      modifies this`isArmed
      ensures Valid() && isArmed == v
    {
      isArmed := v;
    }

    /** The Test AI button flips the motion flag; the threat level stays. */
    method ToggleMotion()
      requires Valid()
      modifies this`motionDetected
      ensures Valid() && motionDetected == !old(motionDetected)
    {
      motionDetected := !motionDetected;
    }

    /** The speaker button. */
    method ToggleAlarmSound()
      requires Valid()
      modifies this`alarmSoundEnabled
      ensures Valid() && alarmSoundEnabled == !old(alarmSoundEnabled)
    {
      alarmSoundEnabled := !alarmSoundEnabled;
    }

    method ZoomInPressed()
      requires Valid()
      modifies this`zoom
      ensures Valid() && zoom == ZoomIn(old(zoom))
    {
      ZoomStaysInRange(zoom);
      zoom := Min(3.0, zoom + 0.5);
    }

    method ZoomOutPressed()
      requires Valid()
      modifies this`zoom
      ensures Valid() && zoom == ZoomOut(old(zoom))
    {
      ZoomStaysInRange(zoom);
      zoom := Max(1.0, zoom - 0.5);
    }

    /** A thumbnail of the camera selector: the buttons exist for the indices of `cameraFeeds` only. */
    method SelectCamera(index: int)
      requires Valid() && 0 <= index < |CameraFeeds|
      modifies this`selectedCamera
      ensures Valid() && selectedCamera == index
    {
      selectedCamera := index;
    }

    /** The two-second metrics interval. */
    method MetricsTick(rCpu: real, rMemory: real, rNetwork: real, rStorage: real)
      requires Valid()
      modifies this`systemHealth
      ensures Valid()
      ensures systemHealth == NextHealth(old(systemHealth), rCpu, rMemory, rNetwork, rStorage)
    {
      var prev := systemHealth;
      systemHealth := Health(
        Max(10.0, Min(90.0, prev.cpu + (rCpu - 0.5) * 10.0)),
        Max(20.0, Min(95.0, prev.memory + (rMemory - 0.5) * 8.0)),
        Max(50.0, Min(100.0, prev.network + (rNetwork - 0.5) * 5.0)),
        Max(30.0, Min(80.0, prev.storage + (rStorage - 0.5) * 3.0)));
    }

    /**
      The ten-second motion interval. It returns whether it scheduled the
      navigation to the alarm screen. Disarmed, it changes nothing; armed and
      fired, motion is detected and the level is set; a level is never set back
      to Low.
    */
    method MotionTick(detectDraw: real, levelDraw: real) returns (scheduleAlarm: bool)
      requires Valid()
      modifies this`motionDetected, this`threatLevel
      ensures Valid()
      ensures MotionOutcome(old(isArmed), detectDraw, levelDraw).None? ==>
        motionDetected == old(motionDetected) && threatLevel == old(threatLevel) && !scheduleAlarm
      ensures MotionOutcome(old(isArmed), detectDraw, levelDraw).Some? ==>
        motionDetected && threatLevel == MotionOutcome(old(isArmed), detectDraw, levelDraw).value
      ensures scheduleAlarm <==> MotionOutcome(old(isArmed), detectDraw, levelDraw) == Some(High)
      ensures old(threatLevel) != Low ==> threatLevel != Low
    {
      scheduleAlarm := false;
      if isArmed && detectDraw > 0.85 {
        motionDetected := true;
        var newThreatLevel := if levelDraw > 0.6 then High else Medium;
        threatLevel := newThreatLevel;
        if newThreatLevel == High {
          scheduleAlarm := true;
        }
      }
    }

    /** The Trigger Alarm button. */
    method TriggerAlarm() returns (target: string)
      ensures target == AlarmPath
    {
      target := AlarmPath;
    }

    /** Whether the siren interval is running on this screen. */
    predicate SirenRunning()
      reads this
    {
      SirenLoopRunning(motionDetected, threatLevel)
    }
  }

  /** A fresh dashboard: arming and one High tick raise the threat, schedule the alarm and start the siren. */
  method HighThreatScenario() returns (d: DashboardScreen, scheduled: bool)
    ensures d.Valid() && d.isArmed && d.threatLevel == High && scheduled && d.SirenRunning()
  {
    d := new DashboardScreen();
    d.SetArmed(true);
    scheduled := d.MotionTick(0.9, 0.7);
  }

  /** A disarmed dashboard ignores even a certain detection, so the siren stays off. */
  method DisarmedScenario() returns (d: DashboardScreen, scheduled: bool)
    ensures d.Valid() && !d.isArmed && d.threatLevel == Low && !d.motionDetected && !scheduled && !d.SirenRunning()
  {
    d := new DashboardScreen();
    scheduled := d.MotionTick(0.99, 0.99);
  }
}
