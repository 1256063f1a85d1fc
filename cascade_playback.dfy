/**
 * The cascade playback engine: a finite, precomputed sequence of simulation
 * steps replayed as a timeline with play / pause / reset / scrub / speed
 * controls, and the views derived from the current step (the cumulative set of
 * failed nodes, the reroutes of the current step, the running totals).
 *
 * The interval timer is replaced by an explicit `Tick` method; a tick is only
 * delivered while the timer would be armed (`TimerArmed`).
 */
module CascadePlayback {
  import opened Common

  /** A node reported as newly failed in one step (only its identifier is used). */
  datatype NodeRef = NodeRef(id: string)

  /** A directed arc along which power was rerouted during one step. */
  datatype RerouteArc = RerouteArc(startLat: real, startLng: real, endLat: real, endLng: real, status: string)

  /** One step of the simulation; `reroutes` may be missing from the payload. */
  datatype CascadeStep = CascadeStep(
    newFailures: seq<NodeRef>,
    reroutes: Option<seq<RerouteArc>>,
    totalFailed: int,
    totalLoadShedMw: real)

  datatype CascadeResult = CascadeResult(steps: seq<CascadeStep>)

  /** The running totals shown for the current step. */
  datatype Stats = Stats(failedCount: int, loadShedMw: real)

  /** Number of steps of the (possibly absent) driving result. */
  function StepCount(data: Option<CascadeResult>): (n: nat)
    ensures data.None? ==> n == 0
    ensures data.Some? ==> n == |data.value.steps|
  {
    if data.Some? then |data.value.steps| else 0
  }

  // ---------------------------------------------------------------------
  // Pure rules used by the controls and the timer
  // ---------------------------------------------------------------------

  /** The scrub target of `goToStep(n)`: `n` clamped into `[-1, total - 1]`. */
  function ClampStep(n: int, total: nat): (r: int)
    ensures -1 <= r <= total - 1
    ensures -1 <= n <= total - 1 ==> r == n
    ensures n < -1 ==> r == -1
    ensures n > total - 1 ==> r == total - 1
  {
    Max(-1, Min(n, total - 1))
  }

  /**
   * The functional update the interval hands to the step setter: the next
   * index and whether playback continues. Reaching past the last step stops
   * playback at the last step.
   */
  function TickUpdate(prev: int, total: nat): (r: (int, bool))
    ensures r.0 <= total - 1 || r.0 == prev + 1
    ensures r.1 <==> prev + 1 < total
    ensures r.1 ==> r.0 == prev + 1
    ensures !r.1 ==> r.0 == total - 1
  {
    var next := prev + 1;
    if next >= total then (total - 1, false) else (next, true)
  }

  /** Milliseconds between two ticks at a given speed multiplier. */
  function TickPeriodMs(speed: real): (ms: real)
    requires speed > 0.0
    ensures ms > 0.0
    ensures ms * speed == 2000.0
  {
    2000.0 / speed
  }

  /** Doubling the speed halves the period between ticks. */
  lemma DoubleSpeedHalvesPeriod(speed: real)
    requires speed > 0.0
    ensures TickPeriodMs(2.0 * speed) * 2.0 == TickPeriodMs(speed)
  {
    var p, q := TickPeriodMs(speed), TickPeriodMs(2.0 * speed);
    assert q * (2.0 * speed) == 2000.0;
    assert (q * 2.0) * speed == p * speed;
  }

  /**
   * `ticks` deliveries of the timer starting from `(prev, playing)`: the timer
   * is only armed while playing and while the result has at least one step.
   */
  function Advance(prev: int, playing: bool, total: nat, ticks: nat): (int, bool)
    decreases ticks
  {
    if ticks == 0 || !playing || total == 0 then (prev, playing)
    else
      var r := TickUpdate(prev, total);
      Advance(r.0, r.1, total, ticks - 1)
  }

  lemma {:induction false} AdvanceFrom(prev: int, total: nat, ticks: nat)
    requires total >= 1 && -1 <= prev <= total - 1
    ensures prev + ticks <= total - 1 ==> Advance(prev, true, total, ticks) == (prev + ticks, true)
    ensures prev + ticks > total - 1 ==> Advance(prev, true, total, ticks) == (total - 1, false)
    decreases ticks
  {
    if ticks > 0 {
      if prev + 1 < total {
        AdvanceFrom(prev + 1, total, ticks - 1);
      } else {
        assert TickUpdate(prev, total) == (total - 1, false);
      }
    }
  }

  /**
   * Playback from the start visits every step in order, one per tick, and
   * stops (not loops) on the tick after the last step has been shown.
   */
  lemma PlaybackIsSequential(total: nat, ticks: nat)
    requires total >= 1
    ensures ticks <= total ==> Advance(-1, true, total, ticks) == (ticks - 1, true)
    ensures ticks > total ==> Advance(-1, true, total, ticks) == (total - 1, false)
  {
    AdvanceFrom(-1, total, ticks);
  }

  // ---------------------------------------------------------------------
  // Derived views
  // ---------------------------------------------------------------------

  function Ids(fs: seq<NodeRef>): set<string> {
    set f | f in fs :: f.id
  }

  /** The union of the new failures of the first `n` steps. */
  function FailedPrefix(steps: seq<CascadeStep>, n: nat): set<string>
    requires n <= |steps|
  {
    if n == 0 then {} else FailedPrefix(steps, n - 1) + Ids(steps[n - 1].newFailures)
  }

  /** How many steps count as reached when the index is `currentStep`. */
  function Reached(currentStep: int, total: nat): (n: nat)
    ensures n <= total
    ensures currentStep < 0 ==> n == 0
    ensures 0 <= currentStep < total ==> n == currentStep + 1
  {
    if currentStep < 0 then 0 else Min(currentStep + 1, total)
  }

  /** The cumulative failed-node set for an index into a (possibly absent) result. */
  function FailedThrough(data: Option<CascadeResult>, currentStep: int): (r: set<string>)
    ensures data.None? || currentStep < 0 ==> r == {}
  {
    if data.None? then {}
    else FailedPrefix(data.value.steps, Reached(currentStep, |data.value.steps|))
  }

  lemma {:induction false} FailedPrefixMembership(steps: seq<CascadeStep>, n: nat, x: string)
    requires n <= |steps|
    ensures x in FailedPrefix(steps, n) <==> exists i :: 0 <= i < n && x in Ids(steps[i].newFailures)
  {
    if n > 0 {
      FailedPrefixMembership(steps, n - 1, x);
      if x in Ids(steps[n - 1].newFailures) {
        assert 0 <= n - 1 < n;
      }
    }
  }

  /** The failed set only grows as playback moves forward. */
  lemma {:induction false} FailedPrefixMonotone(steps: seq<CascadeStep>, a: nat, b: nat)
    requires a <= b <= |steps|
    ensures FailedPrefix(steps, a) <= FailedPrefix(steps, b)
    decreases b - a
  {
    if a < b {
      FailedPrefixMonotone(steps, a, b - 1);
    }
  }

  /**
   * An id is in the failed set at `currentStep` exactly when some step at or
   * before `currentStep` (and within the result) lists it as a new failure.
   */
  lemma FailedThroughMembership(data: Option<CascadeResult>, currentStep: int, x: string)
    ensures x in FailedThrough(data, currentStep) <==>
              data.Some? && exists i :: 0 <= i <= currentStep && i < |data.value.steps| && x in Ids(data.value.steps[i].newFailures)
  {
    if data.Some? {
      var steps := data.value.steps;
      var n := Reached(currentStep, |steps|);
      FailedPrefixMembership(steps, n, x);
      if x in FailedThrough(data, currentStep) {
        var i :| 0 <= i < n && x in Ids(steps[i].newFailures);
        assert 0 <= i <= currentStep && i < |steps|;
      }
    }
  }

  lemma FailedThroughMonotone(data: Option<CascadeResult>, j: int, k: int)
    requires j <= k
    ensures FailedThrough(data, j) <= FailedThrough(data, k)
  {
    if data.Some? {
      var steps := data.value.steps;
      FailedPrefixMonotone(steps, Reached(j, |steps|), Reached(k, |steps|));
    }
  }

  /** A node fails at most once: the new failures of distinct steps are disjoint. */
  ghost predicate FailuresDisjoint(steps: seq<CascadeStep>) {
    forall i, j :: 0 <= i < j < |steps| ==> Ids(steps[i].newFailures) !! Ids(steps[j].newFailures)
  }

  /** In a well-formed result, a step that fails some node strictly grows the failed set. */
  lemma StepWithFailuresGrowsSet(steps: seq<CascadeStep>, k: nat)
    requires FailuresDisjoint(steps)
    requires k < |steps| && |steps[k].newFailures| > 0
    ensures FailedPrefix(steps, k) < FailedPrefix(steps, k + 1)
  {
    var x := steps[k].newFailures[0].id;
    assert x in Ids(steps[k].newFailures);
    FailedPrefixMembership(steps, k, x);
    assert x !in FailedPrefix(steps, k);
  }

  /** The reroutes drawn for an index: the current step's own list, never accumulated. */
  function ActiveReroutes(data: Option<CascadeResult>, currentStep: int): (r: seq<RerouteArc>)
    ensures data.None? || currentStep < 0 || currentStep >= StepCount(data) ==> r == []
    ensures data.Some? && 0 <= currentStep < StepCount(data) ==>
              r == data.value.steps[currentStep].reroutes.GetOr([])
  {
    if data.None? || currentStep < 0 || currentStep >= |data.value.steps| then []
    else data.value.steps[currentStep].reroutes.GetOr([])
  }

  /** The reroutes of step `k` depend on step `k` alone, not on the steps before it. */
  lemma ActiveReroutesNotAccumulated(steps: seq<CascadeStep>, other: seq<CascadeStep>, k: int)
    requires 0 <= k < |steps| && 0 <= k < |other| && steps[k] == other[k]
    ensures ActiveReroutes(Some(CascadeResult(steps)), k) == ActiveReroutes(Some(CascadeResult(other)), k)
  {
  }

  /** The running totals for an index: the current step's totals verbatim, zero outside the steps. */
  function StatsAt(data: Option<CascadeResult>, currentStep: int): (s: Stats)
    ensures data.None? || currentStep < 0 || currentStep >= StepCount(data) ==> s == Stats(0, 0.0)
    ensures data.Some? && 0 <= currentStep < StepCount(data) ==>
              s.failedCount == data.value.steps[currentStep].totalFailed &&
              s.loadShedMw == data.value.steps[currentStep].totalLoadShedMw
  {
    if data.None? || currentStep < 0 || currentStep >= |data.value.steps| then Stats(0, 0.0)
    else Stats(data.value.steps[currentStep].totalFailed, data.value.steps[currentStep].totalLoadShedMw)
  }

  /** The result's running totals never decrease (and start non-negative). */
  ghost predicate TotalsMonotone(steps: seq<CascadeStep>) {
    (|steps| > 0 ==> steps[0].totalFailed >= 0 && steps[0].totalLoadShedMw >= 0.0) &&
    forall i :: 0 <= i < |steps| - 1 ==>
      steps[i].totalFailed <= steps[i + 1].totalFailed &&
      steps[i].totalLoadShedMw <= steps[i + 1].totalLoadShedMw
  }

  /** For a well-formed result, the displayed totals never decrease while playback advances. */
  lemma StatsNonDecreasingOnTick(steps: seq<CascadeStep>, k: int)
    requires TotalsMonotone(steps)
    requires -1 <= k < |steps| - 1
    ensures StatsAt(Some(CascadeResult(steps)), k).failedCount <= StatsAt(Some(CascadeResult(steps)), k + 1).failedCount
    ensures StatsAt(Some(CascadeResult(steps)), k).loadShedMw <= StatsAt(Some(CascadeResult(steps)), k + 1).loadShedMw
  {
    if k >= 0 {
      assert steps[k].totalFailed <= steps[k + 1].totalFailed;
    }
  }

  /** The 1-based step number the control bar shows for an index. */
  function DisplayStep(currentStep: int, total: nat): (d: nat)
    requires -1 <= currentStep <= total - 1
    ensures d <= total
    ensures d == 0 <==> currentStep == -1
    ensures d == Reached(currentStep, total)
  {
    Max(0, currentStep + 1)
  }

  // ---------------------------------------------------------------------
  // The playback state
  // ---------------------------------------------------------------------

  class Player {
    var data: Option<CascadeResult>
    var currentStep: int
    var isPlaying: bool
    var speed: real

    function TotalSteps(): nat
      reads this
    {
      StepCount(data)
    }

    /** The index is always within `[-1, totalSteps - 1]`. */
    ghost predicate Valid()
      reads this
    {
      -1 <= currentStep <= TotalSteps() - 1
    }

    /** The interval is armed only while playing a result that has steps. */
    predicate TimerArmed(): (b: bool)
      reads this
      ensures b <==> isPlaying && TotalSteps() > 0
    {
      isPlaying && data.Some? && TotalSteps() > 0
    }

    function FailedNodeSet(): set<string>
      reads this
    {
      FailedThrough(data, currentStep)
    }

    /** Mount: the initial state (-1, paused, speed 1), then the new-data reset. */
    constructor (cascadeData: Option<CascadeResult>)
      ensures Valid()
      ensures data == cascadeData && speed == 1.0 && currentStep == -1
      ensures isPlaying <==> StepCount(cascadeData) > 0
    {
      data := cascadeData;
      currentStep := -1;
      speed := 1.0;
      isPlaying := cascadeData.Some? && |cascadeData.value.steps| > 0;
    }

    /** A new (or absent) result: rewind, and auto-play exactly when it has steps. */
    method OnData(cascadeData: Option<CascadeResult>)
      modifies this
      ensures Valid()
      ensures data == cascadeData && speed == old(speed) && currentStep == -1
      ensures isPlaying <==> StepCount(cascadeData) > 0
      ensures FailedNodeSet() == {} && ActiveReroutes(data, currentStep) == [] && StatsAt(data, currentStep) == Stats(0, 0.0)
    {
      data := cascadeData;
      if cascadeData.Some? && |cascadeData.value.steps| > 0 {
        currentStep := -1;
        isPlaying := true;
      } else {
        currentStep := -1;
        isPlaying := false;
      }
    }

    /** One delivery of the interval timer. */
    method Tick()
      requires Valid()
      modifies this
      ensures Valid()
      ensures data == old(data) && speed == old(speed)
      ensures !old(TimerArmed()) ==> currentStep == old(currentStep) && isPlaying == old(isPlaying)
      ensures old(TimerArmed()) ==> (currentStep, isPlaying) == TickUpdate(old(currentStep), TotalSteps())
      ensures old(TimerArmed()) && isPlaying ==> currentStep == old(currentStep) + 1
      ensures old(FailedNodeSet()) <= FailedNodeSet()
    {
      if !TimerArmed() {
        return;
      }
      var before := currentStep;
      var update := TickUpdate(currentStep, TotalSteps());
      currentStep, isPlaying := update.0, update.1;
      FailedThroughMonotone(data, before, currentStep);
    }

    /** Play; at (or past) the last step it first rewinds to -1. */
    method Play()
      requires Valid()
      modifies this
      ensures Valid()
      ensures data == old(data) && speed == old(speed) && isPlaying
      ensures old(currentStep) >= TotalSteps() - 1 ==> currentStep == -1
      ensures old(currentStep) < TotalSteps() - 1 ==> currentStep == old(currentStep)
    {
      if currentStep >= TotalSteps() - 1 {
        currentStep := -1;
      }
      isPlaying := true;
    }

    method Pause()
      modifies this
      ensures data == old(data) && speed == old(speed) && currentStep == old(currentStep)
      ensures !isPlaying
    {
      isPlaying := false;
    }

    method Reset()
      modifies this
      ensures Valid()
      ensures data == old(data) && speed == old(speed)
      ensures currentStep == -1 && !isPlaying
      ensures FailedNodeSet() == {}
    {
      isPlaying := false;
      currentStep := -1;
    }

    method SetSpeed(s: real)
      modifies this
      ensures data == old(data) && currentStep == old(currentStep) && isPlaying == old(isPlaying)
      ensures speed == s
    {
      speed := s;
    }

    /** Scrub to step `n` (any integer): always pauses, and clamps the index. */
    method GoToStep(n: int)
      modifies this
      ensures Valid()
      ensures data == old(data) && speed == old(speed)
      ensures !isPlaying && currentStep == ClampStep(n, TotalSteps())
    {
      isPlaying := false;
      currentStep := ClampStep(n, TotalSteps());
    }

    /** The cumulative failed-node set, built as the union of the reached steps' new failures. */
    method FailedNodeIds() returns (ids: set<string>)
      ensures ids == FailedNodeSet()
    {
      ids := {};
      if data.None? {
        return;
      }
      var steps := data.value.steps;
      var i := 0;
      while i <= currentStep && i < |steps|
        invariant 0 <= i <= Reached(currentStep, |steps|)
        invariant ids == FailedPrefix(steps, i)
      {
        var fs := steps[i].newFailures;
        var j := 0;
        while j < |fs|
          invariant 0 <= j <= |fs|
          invariant ids == FailedPrefix(steps, i) + Ids(fs[..j])
        {
          assert fs[..j + 1] == fs[..j] + [fs[j]];
          ids := ids + {fs[j].id};
          j := j + 1;
        }
        assert fs[..j] == fs;
        i := i + 1;
      }
    }
  }
}
