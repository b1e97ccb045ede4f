/** The per-frame bookkeeping of `webgl-controller.js`: the frame-rate
    monitor that steps the render quality down, the settings each quality
    tier installs, the sliding index of visible data, the pick throttle and
    the resolution of what the pointer is over. Rendering, the raycaster's
    geometry and the calls into the entities and the popup are not part of
    this model: a frame returns the popup actions it asks for. */
module WebGLController {
  import opened JsValues
  import WebGLHeader

  /** `VISIBLE_INCREMENT_SPEED`, `RAYCAST_TRIGGER`, `WORLD_DOT_ROWS` */
  const VISIBLE_INCREMENT_SPEED: real := 15.0
  const RAYCAST_TRIGGER: int := 10
  const WORLD_DOT_ROWS: int := 200

  /** `RENDER_QUALITY`: REGULAR, MEDIUM, LOW and LOWEST. */
  const REGULAR: int := 4
  const MEDIUM: int := 3
  const LOW: int := 2
  const LOWEST: int := 1

  /** The most samples the frame-rate queue keeps. */
  const FPS_SAMPLES: nat := 10

  // ---------------------------------------------------------------------
  // Frame-rate monitor
  // ---------------------------------------------------------------------

  /** The thresholds `initBase` sets: a warning threshold, a target frame
      rate with its sensitivity factor, and the emergency frame rate. */
  datatype FpsConfig = FpsConfig(warningThreshold: int, target: real, sensitivity: real, emergencyThreshold: real) {
    /** `fpsTarget * fpsTargetSensitivity` */
    function TargetRate(): real {
      target * sensitivity
    }
  }

  const FPS_DEFAULTS: FpsConfig := FpsConfig(50, 60.0, 0.875, 12.0)

  /** The monitor's state: the sample queue, the consecutive warnings and
      the quality tier. */
  datatype FpsState = FpsState(storage: seq<int>, warnings: int, quality: int)

  /** Which branch of `monitorFps` ran. */
  datatype Outcome = Skipped | Warned | SteppedDown | Emergency | Cleared

  datatype Monitored = Monitored(state: FpsState, outcome: Outcome)

  /** `fpsStorage.reduce((a, b) => a + b)`. */
  function Sum(s: seq<int>): int {
    if s == [] then 0 else Sum(s[..|s| - 1]) + s[|s| - 1]
  }

  /** `fpsSum / fpsStorage.length` */
  function Average(s: seq<int>): real
    requires |s| > 0
  {
    Sum(s) as real / |s| as real
  }

  /** A frame-rate sample, `parseInt(1 / elapsedTime + 0.5)`: the rate
      rounded to the nearest whole number, halves upward. */
  function FpsSample(elapsedTime: real): (fps: int)
    requires elapsedTime > 0.0
    ensures 0 <= fps && fps as real <= 1.0 / elapsedTime + 0.5 < fps as real + 1.0
  {
    Trunc(1.0 / elapsedTime + 0.5)
  }

  /** The queue after `push(fps)` and, when it then holds more than ten
      samples, `shift()`: the last samples, newest at the end. */
  function Record(storage: seq<int>, fps: int): (r: seq<int>)
    ensures |storage| <= FPS_SAMPLES ==> |r| == (if |storage| == FPS_SAMPLES then FPS_SAMPLES else |storage| + 1)
    ensures 0 < |r| <= |storage| + 1 && r == (storage + [fps])[|storage| + 1 - |r|..]
  {
    var pushed := storage + [fps];
    if |pushed| > FPS_SAMPLES then pushed[1..] else pushed
  }

  /** One call of `monitorFps` with sample `fps`. */
  function Monitor(c: FpsConfig, s: FpsState, fps: int): (r: Monitored)
    ensures |s.storage| <= FPS_SAMPLES ==> |r.state.storage| <= FPS_SAMPLES
    ensures 1 <= s.quality ==> 1 <= r.state.quality <= s.quality
    ensures 0 <= s.warnings ==> 0 <= r.state.warnings
    ensures r.state.quality < s.quality ==> r.outcome == SteppedDown || r.outcome == Emergency
  {
    if s.quality == LOWEST then Monitored(s, Skipped)
    else Decide(c, Record(s.storage, fps), s.warnings, s.quality)
  }

  /** The branches of `monitorFps` once the sample is in the queue `st`. */
  function Decide(c: FpsConfig, st: seq<int>, warnings: int, quality: int): (r: Monitored)
    requires |st| > 0
  {
    var average := Average(st);
    if average < c.TargetRate() && |st| > 9 then
      if warnings + 1 > c.warningThreshold then
        Monitored(FpsState([], 0, if quality - 1 > LOWEST then quality - 1 else LOWEST), SteppedDown)
      else
        Monitored(FpsState(st, warnings + 1, quality), Warned)
    else if |st| > 9 && average < c.emergencyThreshold then
      Monitored(FpsState(st, warnings, LOWEST), Emergency)
    else
      Monitored(FpsState(st, 0, quality), Cleared)
  }

  /** The average test in integers: an average below 60 * 0.875 = 52.5 is
      twice the sum below 105 times the length. */
  lemma AverageTest(sum: int, len: int)
    requires len > 0
    ensures (sum as real / len as real < FPS_DEFAULTS.TargetRate()) <==> 2 * sum < 105 * len
  {
    var average := sum as real / len as real;
    assert average * len as real == sum as real;
    assert FPS_DEFAULTS.TargetRate() == 52.5;
    if average < 52.5 {
      assert average * len as real < 52.5 * len as real;
    } else {
      assert average * len as real >= 52.5 * len as real;
    }
  }

  /** The branches of the monitor for the default thresholds, with the
      average test in integer form. */
  lemma DecideDefaults(st: seq<int>, warnings: int, quality: int)
    requires 0 < |st| <= FPS_SAMPLES
    ensures var slow := |st| == FPS_SAMPLES && 2 * Sum(st) < 105 * FPS_SAMPLES;
      var r := Decide(FPS_DEFAULTS, st, warnings, quality);
      && (slow && warnings >= 50 ==> r == Monitored(FpsState([], 0, if quality - 1 > LOWEST then quality - 1 else LOWEST), SteppedDown))
      && (slow && warnings < 50 ==> r == Monitored(FpsState(st, warnings + 1, quality), Warned))
      && (!slow ==> r == Monitored(FpsState(st, 0, quality), Cleared))
  {
    AverageTest(Sum(st), |st|);
    var average := Average(st);
    assert average < 12.0 ==> average < FPS_DEFAULTS.TargetRate();
  }

  /** With the default thresholds a warning is counted exactly when the
      queue is full and its average is below 52.5; the quality steps down by
      one, clearing the warnings and the queue, on the call that would make
      the 51st warning; every other call clears the warnings. */
  lemma WarningRule(s: FpsState, fps: int)
    requires s.quality != LOWEST && 1 <= s.quality && |s.storage| <= FPS_SAMPLES
    ensures var st := Record(s.storage, fps);
      var r := Monitor(FPS_DEFAULTS, s, fps);
      && (r.outcome == Warned || r.outcome == SteppedDown <==> |st| == FPS_SAMPLES && 2 * Sum(st) < 105 * FPS_SAMPLES)
      && (r.outcome == SteppedDown <==> |st| == FPS_SAMPLES && 2 * Sum(st) < 105 * FPS_SAMPLES && s.warnings >= 50)
      && (r.outcome == Warned ==> r.state == FpsState(st, s.warnings + 1, s.quality))
      && (r.outcome == SteppedDown ==> r.state == FpsState([], 0, s.quality - 1))
      && (r.outcome == Cleared || r.outcome == Warned || r.outcome == SteppedDown)
      && (r.outcome == Cleared ==> r.state == FpsState(st, 0, s.quality))
  {
    DecideDefaults(Record(s.storage, fps), s.warnings, s.quality);
  }

  /** With the default thresholds the emergency branch never runs: an
      average below 12 is also below 52.5, so the first branch is taken. */
  lemma EmergencyUnreachable(s: FpsState, fps: int)
    ensures Monitor(FPS_DEFAULTS, s, fps).outcome != Emergency
  {
  }

  /** At the lowest tier the monitor changes nothing. */
  lemma LowestIsFinal(c: FpsConfig, s: FpsState, fps: int)
    requires s.quality == LOWEST
    ensures Monitor(c, s, fps) == Monitored(s, Skipped)
  {
  }

  /** The monitor over a run of samples, oldest first. */
  function Run(c: FpsConfig, s: FpsState, samples: seq<int>): (r: FpsState)
    ensures 1 <= s.quality ==> 1 <= r.quality <= s.quality
  {
    if samples == [] then s
    else Monitor(c, Run(c, s, samples[..|samples| - 1]), samples[|samples| - 1]).state
  }

  /** After a step-down (or at the start) the queue is empty and no
      warning is counted; during the next 59 calls the queue refills and at
      most `n - 9` warnings accumulate, so the tier does not change. */
  lemma {:induction false} Refill(q: int, samples: seq<int>)
    requires LOW <= q <= REGULAR && |samples| < 60
    ensures var r := Run(FPS_DEFAULTS, FpsState([], 0, q), samples);
      && r.quality == q
      && |r.storage| == (if |samples| < FPS_SAMPLES then |samples| else FPS_SAMPLES)
      && 0 <= r.warnings <= (if |samples| < FPS_SAMPLES then 0 else |samples| - 9)
  {
    if samples != [] {
      var init := samples[..|samples| - 1];
      Refill(q, init);
      var prev := Run(FPS_DEFAULTS, FpsState([], 0, q), init);
      WarningRule(prev, samples[|samples| - 1]);
    }
  }

  /** Two step-downs are at least 60 calls apart: from the state a
      step-down leaves, fewer than 60 calls keep the tier. */
  lemma StepDownsAtLeastSixtyApart(q: int, samples: seq<int>)
    requires LOW <= q <= REGULAR && |samples| < 60
    ensures Run(FPS_DEFAULTS, FpsState([], 0, q), samples).quality == q
  {
    Refill(q, samples);
  }

  lemma {:induction false} SumBound(s: seq<int>, b: int)
    requires forall i :: 0 <= i < |s| ==> s[i] <= b
    ensures Sum(s) <= b * |s|
  {
    if s != [] {
      SumBound(s[..|s| - 1], b);
    }
  }

  /** Recording a sample no larger than `b` into a queue of such samples
      keeps every sample, and so the sum, bounded by `b`. */
  lemma RecordBound(storage: seq<int>, fps: int, b: int)
    requires fps <= b && forall i :: 0 <= i < |storage| ==> storage[i] <= b
    ensures var st := Record(storage, fps);
      && (forall i :: 0 <= i < |st| ==> st[i] <= b)
      && Sum(st) <= b * |st|
  {
    var st := Record(storage, fps);
    forall i | 0 <= i < |st|
      ensures st[i] <= b
    {
      assert st[i] == (storage + [fps])[|storage| + 1 - |st| + i];
    }
    SumBound(st, b);
  }

  /** A run of slow samples (at most 52 frames per second) counts one
      warning per call once the queue is full. */
  lemma {:induction false} SlowRefill(q: int, samples: seq<int>)
    requires LOW <= q <= REGULAR && |samples| < 60
    requires forall i :: 0 <= i < |samples| ==> samples[i] <= 52
    ensures var r := Run(FPS_DEFAULTS, FpsState([], 0, q), samples);
      && r.quality == q
      && |r.storage| == (if |samples| < FPS_SAMPLES then |samples| else FPS_SAMPLES)
      && r.warnings == (if |samples| < FPS_SAMPLES then 0 else |samples| - 9)
      && forall i :: 0 <= i < |r.storage| ==> r.storage[i] <= 52
  {
    if samples != [] {
      var init := samples[..|samples| - 1];
      SlowRefill(q, init);
      var prev := Run(FPS_DEFAULTS, FpsState([], 0, q), init);
      var fps := samples[|samples| - 1];
      RecordBound(prev.storage, fps, 52);
      WarningRule(prev, fps);
    }
  }

  /** The bound is tight: sixty slow samples in a row step the tier down. */
  lemma SixtySlowSamplesStepDown(q: int, samples: seq<int>)
    requires LOW <= q <= REGULAR && |samples| == 60
    requires forall i :: 0 <= i < |samples| ==> samples[i] <= 52
    ensures Run(FPS_DEFAULTS, FpsState([], 0, q), samples).quality == q - 1
  {
    var init := samples[..59];
    assert init == samples[..|samples| - 1];
    SlowRefill(q, init);
    var prev := Run(FPS_DEFAULTS, FpsState([], 0, q), init);
    assert Run(FPS_DEFAULTS, FpsState([], 0, q), samples) == Monitor(FPS_DEFAULTS, prev, samples[59]).state;
    RecordBound(prev.storage, samples[59], 52);
    WarningRule(prev, samples[59]);
  }

  /** Running the monitor from the state the first sample leaves is
      running it from the start over that sample and the rest. */
  lemma {:induction false} RunFromFirstSample(first: int, samples: seq<int>)
    ensures Run(FPS_DEFAULTS, Monitor(FPS_DEFAULTS, FpsState([], 0, REGULAR), first).state, samples)
         == Run(FPS_DEFAULTS, FpsState([], 0, REGULAR), [first] + samples)
  {
    var all := [first] + samples;
    if samples == [] {
      assert all[..|all| - 1] == [];
    } else {
      var init := samples[..|samples| - 1];
      RunFromFirstSample(first, init);
      assert all[..|all| - 1] == [first] + init;
      assert all[|all| - 1] == samples[|samples| - 1];
    }
  }

  /** The sample taken while the controller is built counts: 59 further
      slow samples after a slow first one step the tier down from regular. */
  lemma FirstStepDownAfterFiftyNine(first: int, samples: seq<int>)
    requires first <= 52 && |samples| == 59
    requires forall i :: 0 <= i < |samples| ==> samples[i] <= 52
    ensures Run(FPS_DEFAULTS, Monitor(FPS_DEFAULTS, FpsState([], 0, REGULAR), first).state, samples).quality == REGULAR - 1
  {
    RunFromFirstSample(first, samples);
    var all := [first] + samples;
    assert forall i :: 0 <= i < |all| ==> all[i] <= 52 by {
      forall i | 0 <= i < |all|
        ensures all[i] <= 52
      {
        if i > 0 {
          assert all[i] == samples[i - 1];
        }
      }
    }
    SixtySlowSamplesStepDown(REGULAR, all);
  }

  // ---------------------------------------------------------------------
  // Quality tiers
  // ---------------------------------------------------------------------

  /** The settings the tier installs: the index speed, the pick period and
      the rows of world dots. */
  datatype Settings = Settings(indexIncrementSpeed: real, raycastTrigger: int, worldDotRows: int)

  /** `updateRenderQuality` from the current settings: each tier sets the
      speed and the pick period, the two low tiers also the dot rows, and a
      value outside 1..4 changes nothing. */
  function TierSettings(q: int, cur: Settings): (r: Settings)
    ensures LOWEST <= q <= REGULAR ==> r.raycastTrigger == RAYCAST_TRIGGER + 2 * (REGULAR - q)
    ensures LOWEST <= q <= REGULAR ==> 0.0 < r.indexIncrementSpeed <= VISIBLE_INCREMENT_SPEED
    ensures q == REGULAR ==> r.indexIncrementSpeed == VISIBLE_INCREMENT_SPEED
    ensures q == MEDIUM || q == REGULAR ==> r.worldDotRows == cur.worldDotRows
    ensures !(LOWEST <= q <= REGULAR) ==> r == cur
  {
    if q == REGULAR then
      Settings(VISIBLE_INCREMENT_SPEED, RAYCAST_TRIGGER, cur.worldDotRows)
    else if q == MEDIUM then
      Settings(VISIBLE_INCREMENT_SPEED - 2.0, RAYCAST_TRIGGER + 2, cur.worldDotRows)
    else if q == LOW then
      Settings(VISIBLE_INCREMENT_SPEED / 3.0 * 2.0, RAYCAST_TRIGGER + 4, WORLD_DOT_ROWS - 20)
    else if q == LOWEST then
      Settings(VISIBLE_INCREMENT_SPEED / 3.0, RAYCAST_TRIGGER + 6, WORLD_DOT_ROWS - 60)
    else
      cur
  }

  /** A lower tier never advances the data faster nor picks more often. */
  lemma TierMonotone(p: int, q: int, cur: Settings, other: Settings)
    requires LOWEST <= p <= q <= REGULAR
    ensures TierSettings(p, cur).indexIncrementSpeed <= TierSettings(q, other).indexIncrementSpeed
    ensures TierSettings(p, cur).raycastTrigger >= TierSettings(q, other).raycastTrigger
  {
  }

  /** The settings after one call of the monitor from `cur`. */
  function SettingsAfter(c: FpsConfig, s: FpsState, fps: int, cur: Settings): Settings {
    var m := Monitor(c, s, fps);
    if m.outcome == SteppedDown then TierSettings(m.state.quality, cur) else cur
  }

  /** The pick period only grows: a step-down installs the lower tier's
      larger period, and the emergency branch keeps the current one, so a
      period between the regular one and the tier's stays so. */
  lemma MonitorWidensPickPeriod(c: FpsConfig, s: FpsState, fps: int, cur: Settings)
    requires LOWEST <= s.quality <= REGULAR
    requires RAYCAST_TRIGGER <= cur.raycastTrigger <= RAYCAST_TRIGGER + 2 * (REGULAR - s.quality)
    requires 0.0 <= cur.indexIncrementSpeed
    ensures var m := Monitor(c, s, fps);
      var next := SettingsAfter(c, s, fps, cur);
      && cur.raycastTrigger <= next.raycastTrigger <= RAYCAST_TRIGGER + 2 * (REGULAR - m.state.quality)
      && 0.0 <= next.indexIncrementSpeed
  {
    var m := Monitor(c, s, fps);
    if m.outcome == SteppedDown {
      assert s.quality != LOWEST;
      assert m.state.quality == s.quality - 1;
    }
  }

  // ---------------------------------------------------------------------
  // The visible window and the pick throttle
  // ---------------------------------------------------------------------

  /** Where `visibleIndex` may be: at least 60, and below `maxAmount - 60`
      unless it sits at its reset value 60. */
  predicate VisibleInRange(visibleIndex: real, maxAmount: nat) {
    WebGLHeader.VISIBLE_DATA_COUNT as real <= visibleIndex &&
    (visibleIndex < maxAmount as real - WebGLHeader.VISIBLE_DATA_COUNT as real ||
     visibleIndex == WebGLHeader.VISIBLE_DATA_COUNT as real)
  }

  /** With more than 120 rows the range is the strict window. */
  lemma VisibleInRangeLarge(visibleIndex: real, maxAmount: nat)
    requires maxAmount > 2 * WebGLHeader.VISIBLE_DATA_COUNT
    ensures VisibleInRange(visibleIndex, maxAmount) <==>
      60.0 <= visibleIndex < maxAmount as real - 60.0
  {
  }

  /** `visibleIndex += delta * indexIncrementSpeed`, then the wrap to 60. */
  function AdvanceVisible(visibleIndex: real, delta: real, speed: real, maxAmount: nat): (r: real)
    ensures r == visibleIndex + delta * speed || r == WebGLHeader.VISIBLE_DATA_COUNT as real
    ensures visibleIndex + delta * speed < maxAmount as real - WebGLHeader.VISIBLE_DATA_COUNT as real ==> r == visibleIndex + delta * speed
    ensures 0.0 <= delta && 0.0 <= speed && VisibleInRange(visibleIndex, maxAmount) ==> VisibleInRange(r, maxAmount)
  {
    var step := delta * speed;
    NonNegativeStep(delta, speed);
    var advanced := visibleIndex + step;
    if advanced >= maxAmount as real - WebGLHeader.VISIBLE_DATA_COUNT as real then
      WebGLHeader.VISIBLE_DATA_COUNT as real
    else
      advanced
  }

  /** `raycastIndex++`, back to 0 once it reaches the trigger: a counter
      modulo the trigger. */
  function NextRaycast(raycastIndex: int, raycastTrigger: int): (r: int)
    requires raycastTrigger > 0
    ensures 0 <= raycastIndex < raycastTrigger ==> 0 <= r < raycastTrigger && r == (raycastIndex + 1) % raycastTrigger
  {
    var next := raycastIndex + 1;
    if next >= raycastTrigger then 0 else next
  }

  /** The counter after `n` frames from 0 at a fixed trigger. */
  function RaycastAfter(n: nat, raycastTrigger: int): int
    requires raycastTrigger > 0
  {
    if n == 0 then 0 else NextRaycast(RaycastAfter(n - 1, raycastTrigger), raycastTrigger)
  }

  /** At a fixed trigger the counter after `n` frames is `n % trigger`, so
      a pick (`raycastIndex % raycastTrigger === 0`) runs on every
      trigger-th frame and on no other. */
  lemma {:induction false} RaycastPeriodic(n: nat, raycastTrigger: int)
    requires raycastTrigger > 0
    ensures RaycastAfter(n, raycastTrigger) == n % raycastTrigger
    ensures (RaycastAfter(n, raycastTrigger) % raycastTrigger == 0) <==> n % raycastTrigger == 0
  {
    if n > 0 {
      RaycastPeriodic(n - 1, raycastTrigger);
      ModSucc(n - 1, raycastTrigger);
      var prev := RaycastAfter(n - 1, raycastTrigger);
      assert 0 <= prev < raycastTrigger;
      assert RaycastAfter(n, raycastTrigger) == NextRaycast(prev, raycastTrigger);
    }
    var r := n % raycastTrigger;
    ModUnique(r, raycastTrigger, 0, r);
  }

  lemma ModSucc(a: int, t: int)
    requires t > 0
    ensures (a + 1) % t == if a % t + 1 == t then 0 else a % t + 1
  {
    var q, m := a / t, a % t;
    assert a == q * t + m;
    if m + 1 == t {
      assert a + 1 == (q + 1) * t + 0;
      ModUnique(a + 1, t, q + 1, 0);
    } else {
      ModUnique(a + 1, t, q, m + 1);
    }
  }

  /** Euclidean division has one quotient and one remainder. */
  lemma ModUnique(x: int, t: int, q: int, r: int)
    requires t > 0 && 0 <= r < t && x == q * t + r
    ensures x % t == r
  {
    var q', r' := x / t, x % t;
    assert x == q' * t + r';
    assert (q - q') * t == r' - r;
    if q - q' >= 1 {
      MulAtLeast(q - q', t);
    } else if q' - q >= 1 {
      MulAtLeast(q' - q, t);
    }
  }

  lemma NonNegativeStep(delta: real, speed: real)
    ensures 0.0 <= delta && 0.0 <= speed ==> 0.0 <= delta * speed
  {
  }

  lemma MulAtLeast(a: int, t: int)
    requires a >= 1 && t > 0
    ensures a * t >= t
  {
    assert a * t == (a - 1) * t + t;
  }

  // ---------------------------------------------------------------------
  // Picking
  // ---------------------------------------------------------------------

  /** What the raycaster can hit among `intersectTests`: the globe's fill
      mesh, an instance of the spike mesh, a merged-PR hit mesh (named
      `lineMesh`, carrying its line and data index) or the vault flag. */
  datatype Hit =
    | GlobeHit
    | SpikeHit(instanceId: int)
    | LineHit(lineMeshIndex: nat, dataIndex: nat)
    | VaultHit

  /** `shouldShowOpenPrEntity`: the spike lies in the visible window. */
  predicate ShouldShowOpenPrEntity(instanceId: int, visibleIndex: real, maxIndexDistance: real) {
    instanceId as real >= visibleIndex - maxIndexDistance && instanceId as real <= visibleIndex + maxIndexDistance
  }

  /** The window is the spikes within `maxIndexDistance` of the index. */
  lemma ShouldShowIsDistance(instanceId: int, visibleIndex: real, maxIndexDistance: real)
    ensures ShouldShowOpenPrEntity(instanceId, visibleIndex, maxIndexDistance) <==>
      (if instanceId as real >= visibleIndex then instanceId as real - visibleIndex else visibleIndex - instanceId as real) <= maxIndexDistance
  {
  }

  /** The tests of the pick loop: a line hit always qualifies, a spike only
      inside the window, the vault always, the globe never. */
  predicate Qualifies(h: Hit, visibleIndex: real, maxIndexDistance: real) {
    match h
    case LineHit(_, _) => true
    case SpikeHit(id) => ShouldShowOpenPrEntity(id, visibleIndex, maxIndexDistance)
    case VaultHit => true
    case GlobeHit => false
  }

  /** The first position at or after `i` whose hit qualifies, or `|hits|`. */
  function FirstQualifying(hits: seq<Hit>, i: nat, visibleIndex: real, maxIndexDistance: real): (k: nat)
    requires i <= |hits|
    ensures i <= k <= |hits|
    ensures k < |hits| ==> Qualifies(hits[k], visibleIndex, maxIndexDistance)
    ensures forall j :: i <= j < k ==> !Qualifies(hits[j], visibleIndex, maxIndexDistance)
    decreases |hits| - i
  {
    if i == |hits| then i
    else if Qualifies(hits[i], visibleIndex, maxIndexDistance) then i
    else FirstQualifying(hits, i + 1, visibleIndex, maxIndexDistance)
  }

  /** The hit the pick loop settles on, if any. */
  function Pick(hits: seq<Hit>, visibleIndex: real, maxIndexDistance: real): (r: Option<Hit>)
    ensures r.Some? ==> r.value in hits && Qualifies(r.value, visibleIndex, maxIndexDistance)
    ensures r.None? <==> forall j :: 0 <= j < |hits| ==> !Qualifies(hits[j], visibleIndex, maxIndexDistance)
  {
    var k := FirstQualifying(hits, 0, visibleIndex, maxIndexDistance);
    if k < |hits| then Some(hits[k]) else None
  }

  /** `testForDataIntersection`: the raycaster's hits, nearest first, or
      none at all when the nearest is the globe (the back of the globe must
      not be picked through it). */
  function VisibleHits(raw: seq<Hit>): (r: seq<Hit>)
    ensures r == [] || r == raw
    ensures r == [] <==> raw == [] || raw[0] == GlobeHit
  {
    if |raw| > 0 && raw[0] == GlobeHit then [] else raw
  }

  /** A globe in front discards the whole pick, whatever lies behind it. */
  lemma GlobeInFrontDiscardsPick(raw: seq<Hit>, visibleIndex: real, maxIndexDistance: real)
    requires |raw| > 0 && raw[0] == GlobeHit
    ensures Pick(VisibleHits(raw), visibleIndex, maxIndexDistance) == None
  {
  }

  /** The visible window matters only for spikes: a line or the vault in
      front of every spike wins wherever the window is. */
  lemma {:induction false} WindowOnlyFiltersSpikes(hits: seq<Hit>, i: nat, v1: real, m1: real, v2: real, m2: real)
    requires i <= |hits|
    requires forall j :: i <= j < |hits| ==> !hits[j].SpikeHit?
    ensures FirstQualifying(hits, i, v1, m1) == FirstQualifying(hits, i, v2, m2)
    decreases |hits| - i
  {
    if i < |hits| {
      WindowOnlyFiltersSpikes(hits, i + 1, v1, m1, v2, m2);
    }
  }

  /** A line hit is never compared with the visible window. */
  lemma LineHitIgnoresWindow(hits: seq<Hit>, visibleIndex: real, maxIndexDistance: real)
    requires |hits| > 0 && hits[0].LineHit?
    ensures Pick(hits, visibleIndex, maxIndexDistance) == Some(hits[0])
  {
  }

  /** What a frame asks of the popup and the highlights. `Show(h)` is the
      found branch for hit `h`: for a line `setMergedPrEntityDataItem`
      (highlight that line, clear the spike highlight), for a spike
      `setOpenPrEntityDataItem` (highlight that spike, reset the line
      highlight), for the vault its highlight and card; then `setDataInfo`
      and `show`. `Hide` is `hide`, `setHighlightIndex(-9999)`,
      `resetHighlight` and the vault's reset. */
  datatype Action = Show(hit: Hit) | Hide

  /** The actions of a frame that picks (or not), given the pick and the
      dragging flag. */
  function FrameActions(frameValid: bool, pick: Option<Hit>, dragging: bool): (r: seq<Action>)
    ensures dragging ==> |r| > 0 && r[|r| - 1] == Hide
    ensures !frameValid ==> (r == [] <==> !dragging)
    ensures frameValid && pick.Some? ==> |r| > 0 && r[0] == Show(pick.value)
    ensures frameValid && pick.None? ==> |r| > 0 && r[0] == Hide
  {
    (if frameValid then (if pick.Some? then [Show(pick.value)] else [Hide]) else []) +
    (if dragging then [Hide] else [])
  }

  /** A mouse position. */
  datatype Point = Point(x: real, y: real)

  function Abs(x: real): real {
    if x < 0.0 then -x else x
  }

  /** `shouldCancelClick`: the pointer moved more than 2 pixels on some
      axis since `mousedown`, so this is a drag and not a click. */
  predicate ShouldCancelClick(mouseDownPos: Point, event: Point) {
    Abs(event.y - mouseDownPos.y) > 2.0 || Abs(event.x - mouseDownPos.x) > 2.0
  }

  /** A click is kept exactly when the pointer stayed inside the 4 by 4
      box centred on where it went down. */
  lemma ShouldCancelClickIffOutsideBox(mouseDownPos: Point, event: Point)
    ensures !ShouldCancelClick(mouseDownPos, event) <==>
      mouseDownPos.x - 2.0 <= event.x <= mouseDownPos.x + 2.0 &&
      mouseDownPos.y - 2.0 <= event.y <= mouseDownPos.y + 2.0
  {
  }

  class WebGLController {
    /** The thresholds of `initBase`. */
    const fpsWarningThreshold: int
    const fpsTarget: real
    const fpsTargetSensitivity: real
    const fpsEmergencyThreshold: real
    var fpsStorage: seq<int>
    var fpsWarnings: int
    var renderQuality: int
    /** The settings the tiers write. */
    var indexIncrementSpeed: real
    var raycastTrigger: int
    var worldDotRows: int
    /** `this.clock !== null`; the emergency `dispose` nulls it. */
    var clockRunning: bool
    /** Whether `showFallback` has been called. */
    var fallbackShown: bool
    /** `initDataObjects`: the number of rows and the half-width of the
        visible window. */
    const maxAmount: nat
    const maxIndexDistance: real
    var visibleIndex: real
    var raycastIndex: int
    var dragging: bool
    var intersects: seq<Hit>
    var mouseDownPos: Point

    function Config(): FpsConfig {
      FpsConfig(fpsWarningThreshold, fpsTarget, fpsTargetSensitivity, fpsEmergencyThreshold)
    }

    function State(): FpsState
      reads this
    {
      FpsState(fpsStorage, fpsWarnings, renderQuality)
    }

    function Current(): Settings
      reads this
    {
      Settings(indexIncrementSpeed, raycastTrigger, worldDotRows)
    }

    /** The monitor's part of the invariant: the tier stays in 1..4, the
        queue holds at most ten samples, and the pick period is at least its
        regular value and at most the tier's (it grows as the tier falls). */
    ghost predicate MonitorValid()
      reads this
    {
      LOWEST <= renderQuality <= REGULAR &&
      |fpsStorage| <= FPS_SAMPLES && 0 <= fpsWarnings &&
      RAYCAST_TRIGGER <= raycastTrigger <= RAYCAST_TRIGGER + 2 * (REGULAR - renderQuality) &&
      0.0 <= indexIncrementSpeed
    }

    /** The monitor's invariant, the throttle counter below the pick period
        and the visible index in its range. */
    ghost predicate Valid()
      reads this
    {
      MonitorValid() &&
      0 <= raycastIndex < raycastTrigger &&
      VisibleInRange(visibleIndex, maxAmount)
    }

    /** `initBase` followed by `initDataObjects(data)` for `maxAmount` rows.
        `initBase` ends with `startUpdating`, whose first `update` runs the
        monitor once, synchronously, with the sample `firstFps`; nothing else
        that call does outlives `initDataObjects`. */
    constructor (maxAmount: nat, firstFps: int)
      ensures Valid()
      ensures Config() == FPS_DEFAULTS
      ensures State() == Monitor(FPS_DEFAULTS, FpsState([], 0, REGULAR), firstFps).state
      ensures State() == FpsState([firstFps], 0, REGULAR)
      ensures Current() == Settings(VISIBLE_INCREMENT_SPEED, RAYCAST_TRIGGER, WORLD_DOT_ROWS)
      ensures this.maxAmount == maxAmount && maxIndexDistance == WebGLHeader.VISIBLE_DATA_COUNT as real
      ensures visibleIndex == WebGLHeader.VISIBLE_DATA_COUNT as real && raycastIndex == 0
      ensures clockRunning && !fallbackShown && !dragging && intersects == []
    {
      fpsWarningThreshold := FPS_DEFAULTS.warningThreshold;
      fpsTarget := FPS_DEFAULTS.target;
      fpsTargetSensitivity := FPS_DEFAULTS.sensitivity;
      fpsEmergencyThreshold := FPS_DEFAULTS.emergencyThreshold;
      fpsStorage := [firstFps];
      fpsWarnings := 0;
      renderQuality := REGULAR;
      worldDotRows := WORLD_DOT_ROWS;
      clockRunning := true;
      fallbackShown := false;
      dragging := false;
      raycastIndex := 0;
      raycastTrigger := RAYCAST_TRIGGER;
      intersects := [];
      // `mouseDownPos` is undefined in the source until the first mousedown;
      // this placeholder is read by nothing in this model.
      mouseDownPos := Point(0.0, 0.0);
      this.maxAmount := maxAmount;
      maxIndexDistance := WebGLHeader.VISIBLE_DATA_COUNT as real;
      indexIncrementSpeed := VISIBLE_INCREMENT_SPEED;
      visibleIndex := WebGLHeader.VISIBLE_DATA_COUNT as real;
    }

    /** `updateRenderQuality`: installs the settings of the current tier. */
    method UpdateRenderQuality()
      modifies this`indexIncrementSpeed, this`raycastTrigger, this`worldDotRows
      ensures Current() == TierSettings(renderQuality, old(Current()))
    {
      if renderQuality == REGULAR {
        indexIncrementSpeed := VISIBLE_INCREMENT_SPEED;
        raycastTrigger := RAYCAST_TRIGGER;
      } else if renderQuality == MEDIUM {
        indexIncrementSpeed := VISIBLE_INCREMENT_SPEED - 2.0;
        raycastTrigger := RAYCAST_TRIGGER + 2;
      } else if renderQuality == LOW {
        indexIncrementSpeed := VISIBLE_INCREMENT_SPEED / 3.0 * 2.0;
        raycastTrigger := RAYCAST_TRIGGER + 4;
        worldDotRows := WORLD_DOT_ROWS - 20;
      } else if renderQuality == LOWEST {
        indexIncrementSpeed := VISIBLE_INCREMENT_SPEED / 3.0;
        raycastTrigger := RAYCAST_TRIGGER + 6;
        worldDotRows := WORLD_DOT_ROWS - 60;
      }
    }

    /** `initPerformanceEmergency`: `dispose` (which nulls the clock) and
        `showFallback`. */
    method InitPerformanceEmergency()
      modifies this`clockRunning, this`fallbackShown
      ensures !clockRunning && fallbackShown
    {
      clockRunning := false;
      fallbackShown := true;
    }

    /** The `reduce` that sums the queue. */
    method StorageSum() returns (fpsSum: int)
      ensures fpsSum == Sum(fpsStorage)
    {
      fpsSum := 0;
      var i := 0;
      while i < |fpsStorage|
        invariant 0 <= i <= |fpsStorage|
        invariant fpsSum == Sum(fpsStorage[..i])
      {
        assert fpsStorage[..i + 1][..i] == fpsStorage[..i];
        fpsSum := fpsSum + fpsStorage[i];
        i := i + 1;
      }
      assert fpsStorage[..i] == fpsStorage;
    }

    /** The step-down inside `monitorFps`: one tier lower (but not below
        the lowest), warnings cleared, the tier's settings installed, the
        queue emptied. */
    method LowerQuality()
      modifies this`fpsStorage, this`fpsWarnings, this`renderQuality
      modifies this`indexIncrementSpeed, this`raycastTrigger, this`worldDotRows
      ensures renderQuality == if old(renderQuality) - 1 > LOWEST then old(renderQuality) - 1 else LOWEST
      ensures fpsWarnings == 0 && fpsStorage == []
      ensures Current() == TierSettings(renderQuality, old(Current()))
    {
      renderQuality := if renderQuality - 1 > LOWEST then renderQuality - 1 else LOWEST;
      fpsWarnings := 0;
      UpdateRenderQuality();
      fpsStorage := [];
    }

    /** The `push`, the `shift` past ten samples, the sum and the
        average of `monitorFps`. */
    method RecordSample(fps: int) returns (fpsAverage: real)
      modifies this`fpsStorage
      ensures fpsStorage == Record(old(fpsStorage), fps)
      ensures fpsAverage == Average(fpsStorage)
    {
      fpsStorage := fpsStorage + [fps];
      if |fpsStorage| > FPS_SAMPLES {
        fpsStorage := fpsStorage[1..];
      }
      var fpsSum := StorageSum();
      fpsAverage := fpsSum as real / |fpsStorage| as real;
    }

    /** The branches of `monitorFps` on the recorded queue and its average. */
    method React(fpsAverage: real)
      requires |fpsStorage| > 0 && fpsAverage == Average(fpsStorage)
      modifies this`fpsWarnings, this`renderQuality, this`fpsStorage
      modifies this`indexIncrementSpeed, this`raycastTrigger, this`worldDotRows
      modifies this`clockRunning, this`fallbackShown
      ensures State() == Decide(Config(), old(fpsStorage), old(fpsWarnings), old(renderQuality)).state
      ensures Current() == if Decide(Config(), old(fpsStorage), old(fpsWarnings), old(renderQuality)).outcome == SteppedDown
        then TierSettings(renderQuality, old(Current())) else old(Current())
      ensures clockRunning == (old(clockRunning) && Decide(Config(), old(fpsStorage), old(fpsWarnings), old(renderQuality)).outcome != Emergency)
      ensures fallbackShown == (old(fallbackShown) || Decide(Config(), old(fpsStorage), old(fpsWarnings), old(renderQuality)).outcome == Emergency)
    {
      if fpsAverage < Config().TargetRate() && |fpsStorage| > 9 {
        fpsWarnings := fpsWarnings + 1;
        if fpsWarnings > fpsWarningThreshold {
          LowerQuality();
        }
      } else if |fpsStorage| > 9 && fpsAverage < fpsEmergencyThreshold {
        renderQuality := LOWEST;
        InitPerformanceEmergency();
      } else {
        fpsWarnings := 0;
      }
    }

    /** `monitorFps` with the sample `fps` of this frame. */
    method MonitorFps(fps: int)
      modifies this`fpsStorage, this`fpsWarnings, this`renderQuality
      modifies this`indexIncrementSpeed, this`raycastTrigger, this`worldDotRows
      modifies this`clockRunning, this`fallbackShown
      ensures State() == Monitor(Config(), old(State()), fps).state
      ensures Current() == if Monitor(Config(), old(State()), fps).outcome == SteppedDown
        then TierSettings(renderQuality, old(Current())) else old(Current())
      ensures clockRunning == (old(clockRunning) && Monitor(Config(), old(State()), fps).outcome != Emergency)
      ensures fallbackShown == (old(fallbackShown) || Monitor(Config(), old(State()), fps).outcome == Emergency)
      ensures old(MonitorValid()) ==> MonitorValid() && old(raycastTrigger) <= raycastTrigger
    {
      if MonitorValid() {
        MonitorWidensPickPeriod(Config(), State(), fps, Current());
      }
      if renderQuality == LOWEST {
        return;
      }
      var fpsAverage := RecordSample(fps);
      React(fpsAverage);
    }

    /** `setDragging(value = true)`. */
    method SetDragging(value: Option<bool>)
      modifies this`dragging
      ensures dragging == (if value.Some? then value.value else true)
    {
      dragging := if value.Some? then value.value else true;
    }

    /** `resetInteractionIntention`: remembers where the pointer went down. */
    method ResetInteractionIntention(event: Point)
      modifies this`mouseDownPos
      ensures mouseDownPos == event
    {
      mouseDownPos := event;
    }

    /** `testForDataIntersection` with the raycaster's hits `raw`. */
    method TestForDataIntersection(raw: seq<Hit>)
      modifies this`intersects
      ensures intersects == VisibleHits(raw)
    {
      intersects := raw;
      if |intersects| > 0 && intersects[0] == GlobeHit {
        intersects := [];
      }
    }

    /** The pick loop of `handleUpdate` over `intersects`, with its `found`
        flag. */
    method FindPick() returns (winner: Option<Hit>)
      ensures winner == Pick(intersects, visibleIndex, maxIndexDistance)
    {
      var found := false;
      winner := None;
      var i := 0;
      while i < |intersects| && !found
        invariant 0 <= i <= |intersects| && !found && winner == None
        invariant FirstQualifying(intersects, 0, visibleIndex, maxIndexDistance) >= i
        decreases |intersects| - i
      {
        var h := intersects[i];
        if h.LineHit? {
          winner := Some(h);
          found := true;
          break;
        } else if h.SpikeHit? && ShouldShowOpenPrEntity(h.instanceId, visibleIndex, maxIndexDistance) {
          winner := Some(h);
          found := true;
          break;
        } else if h.VaultHit? {
          winner := Some(h);
          found := true;
          break;
        }
        i := i + 1;
      }
    }

    /** The pick of a throttled frame: test the hits, resolve them, and ask
        for the card or for hiding it. */
    method PickFrame(raw: seq<Hit>) returns (actions: seq<Action>)
      modifies this`intersects
      ensures intersects == VisibleHits(raw)
      ensures actions == FrameActions(true, Pick(VisibleHits(raw), visibleIndex, maxIndexDistance), false)
    {
      TestForDataIntersection(raw);
      var winner: Option<Hit> := None;
      if |intersects| > 0 {
        winner := FindPick();
      }
      if winner.Some? {
        actions := [Show(winner.value)];
      } else {
        actions := [Hide];
      }
    }

    /** `visibleIndex += delta * indexIncrementSpeed` and its wrap. */
    method AdvanceVisibleIndex(delta: real)
      modifies this`visibleIndex
      ensures visibleIndex == AdvanceVisible(old(visibleIndex), delta, indexIncrementSpeed, maxAmount)
    {
      visibleIndex := visibleIndex + delta * indexIncrementSpeed;
      if visibleIndex >= maxAmount as real - WebGLHeader.VISIBLE_DATA_COUNT as real {
        visibleIndex := WebGLHeader.VISIBLE_DATA_COUNT as real;
      }
    }

    /** `raycastIndex++` and its reset at the trigger. */
    method StepRaycast()
      requires raycastTrigger > 0
      modifies this`raycastIndex
      ensures raycastIndex == NextRaycast(old(raycastIndex), raycastTrigger)
    {
      raycastIndex := raycastIndex + 1;
      if raycastIndex >= raycastTrigger {
        raycastIndex := 0;
      }
    }

    /** The part of `handleUpdate` after the clock check: advance the
        visible index, pick on throttled frames, hide while dragging, step
        the throttle counter. */
    method Frame(delta: real, raw: seq<Hit>) returns (actions: seq<Action>)
      requires Valid() && delta >= 0.0
      modifies this`visibleIndex, this`raycastIndex, this`intersects
      ensures Valid()
      ensures visibleIndex == AdvanceVisible(old(visibleIndex), delta, indexIncrementSpeed, maxAmount)
      ensures raycastIndex == NextRaycast(old(raycastIndex), raycastTrigger)
      ensures intersects == (if old(raycastIndex) == 0 then VisibleHits(raw) else old(intersects))
      ensures actions == FrameActions(old(raycastIndex) == 0,
        Pick(VisibleHits(raw), visibleIndex, maxIndexDistance), dragging)
    {
      AdvanceVisibleIndex(delta);
      ModUnique(raycastIndex, raycastTrigger, 0, raycastIndex);
      var frameValid := raycastIndex % raycastTrigger == 0;
      actions := [];
      if frameValid {
        actions := PickFrame(raw);
      }
      if dragging {
        actions := actions + [Hide];
      }
      StepRaycast();
    }

    /** The rest of `handleUpdate` after `monitorFps`: nothing once the
        clock is gone (the emergency disposed of it), a frame otherwise. */
    method ClockedFrame(delta: real, raw: seq<Hit>) returns (actions: seq<Action>)
      requires Valid() && delta >= 0.0
      modifies this`visibleIndex, this`raycastIndex, this`intersects
      ensures Valid()
      ensures !clockRunning ==> actions == [] && visibleIndex == old(visibleIndex) && raycastIndex == old(raycastIndex)
      ensures clockRunning ==> visibleIndex == AdvanceVisible(old(visibleIndex), delta, indexIncrementSpeed, maxAmount)
      ensures clockRunning ==> raycastIndex == NextRaycast(old(raycastIndex), raycastTrigger)
      ensures clockRunning ==> actions == FrameActions(old(raycastIndex) == 0,
        Pick(VisibleHits(raw), visibleIndex, maxIndexDistance), dragging)
    {
      if clockRunning {
        actions := Frame(delta, raw);
      } else {
        actions := [];
      }
    }

    /** `handleUpdate` for a frame whose sample is `fps`, whose clock delta
        is `delta` and whose raycaster would report `raw`. */
    method HandleUpdate(fps: int, delta: real, raw: seq<Hit>) returns (actions: seq<Action>)
      requires Valid() && delta >= 0.0
      modifies this`fpsStorage, this`fpsWarnings, this`renderQuality
      modifies this`indexIncrementSpeed, this`raycastTrigger, this`worldDotRows
      modifies this`clockRunning, this`fallbackShown
      modifies this`visibleIndex, this`raycastIndex, this`intersects
      ensures Valid()
      ensures var m := Monitor(Config(), old(State()), fps);
        && State() == m.state
        && Current() == (if m.outcome == SteppedDown then TierSettings(renderQuality, old(Current())) else old(Current()))
        && fallbackShown == (old(fallbackShown) || m.outcome == Emergency)
      ensures !clockRunning ==> actions == [] && visibleIndex == old(visibleIndex) && raycastIndex == old(raycastIndex)
      ensures clockRunning ==> visibleIndex == AdvanceVisible(old(visibleIndex), delta, indexIncrementSpeed, maxAmount)
      ensures clockRunning ==> raycastIndex == NextRaycast(old(raycastIndex), raycastTrigger)
      ensures clockRunning ==> actions == FrameActions(old(raycastIndex) == 0,
        Pick(VisibleHits(raw), visibleIndex, maxIndexDistance), dragging)
    {
      MonitorFps(fps);
      assert Valid();
      ghost var monitored := State();
      ghost var settings := Current();
      ghost var shown := fallbackShown;
      actions := ClockedFrame(delta, raw);
      assert State() == monitored && Current() == settings && fallbackShown == shown;
    }
  }
}
