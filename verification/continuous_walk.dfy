/**
 * The continuous-walk controller of `src/commands.ts`: one module-level
 * interval handle, set by `startContinuousWalk` and cleared by
 * `stopContinuousWalk`, and a browser interval table whose callbacks each
 * send one `walk` payload when they fire.
 *
 * Time is abstract: a `Fire(h)` step is the browser running the callback of
 * interval `h` once. Interval ids come from a counter starting at 1, as
 * browser ids are positive integers.
 */
module ContinuousWalk {
  import opened Wrappers
  import opened Commands

  /** A browser interval id; browsers hand out positive integers. */
  type Handle = h: int | h > 0 witness 1

  /** What an interval callback does when it fires: `walk(dir, options)` with the values captured at start. */
  datatype WalkTask = WalkTask(dir: Dir, opts: WalkOptions)

  /**
   * `continuousInterval` is the module variable; `intervals` the browser's
   * table of live intervals; `nextHandle` the id the browser hands out next;
   * `trace` every payload sent so far.
   */
  datatype Controller = Controller(
    continuousInterval: Option<Handle>,
    intervals: map<Handle, WalkTask>,
    nextHandle: Handle,
    trace: Trace)

  /** Page load: no interval, nothing sent. */
  function Init(): (s: Controller)
    ensures Consistent(s)
    ensures s.intervals == map[] && s.trace == []
  {
    Controller(None, map[], 1, [])
  }

  /**
   * The controller's invariant: the browser runs an interval exactly when the
   * module variable holds its handle, so at most one interval is ever live;
   * every live id was handed out already.
   */
  ghost predicate Consistent(s: Controller)
  {
    && (s.continuousInterval.None? ==> s.intervals == map[])
    && (s.continuousInterval.Some? ==> s.intervals.Keys == {s.continuousInterval.value})
    && (forall h :: h in s.intervals ==> h < s.nextHandle)
  }

  /** Whether a repeating walk is running. The source tests the handle for truthiness, and ids are never 0. */
  function Running(s: Controller): (running: bool)
    ensures running ==> s.continuousInterval.Some? && s.continuousInterval.value > 0
    ensures s.continuousInterval.Some? ==> running
    ensures Consistent(s) ==> (running <==> |s.intervals| == 1)
    ensures Consistent(s) ==> (!running <==> s.intervals == map[])
  {
    s.continuousInterval.Some?
  }

  /**
   * `startContinuousWalk(dir, options)`: a no-op while an interval is live;
   * otherwise registers one new interval that will send `walk(dir, options)`
   * on every tick. Nothing is sent immediately.
   */
  function StartContinuousWalk(s: Controller, dir: Dir, opts: WalkOptions): (r: Controller)
    ensures Running(s) ==> r == s
    ensures !Running(s) ==>
              && Running(r)
              && r.intervals == s.intervals[r.continuousInterval.value := WalkTask(dir, opts)]
              && (Consistent(s) ==> r.continuousInterval.value !in s.intervals)
    ensures r.trace == s.trace
  {
    if s.continuousInterval.Some? then s
    else
      var h := s.nextHandle;
      s.(continuousInterval := Some(h),
         intervals := s.intervals[h := WalkTask(dir, opts)],
         nextHandle := h + 1)
  }

  /**
   * The browser fires interval `h` once: if it is live, its callback sends one
   * walk payload built from the direction and options captured at start;
   * a cleared (or never registered) interval does nothing.
   */
  function Fire(s: Controller, h: Handle, outcome: InvokeOutcome): (r: Controller)
    ensures h in s.intervals ==>
              Payloads(r.trace) == Payloads(s.trace)
                                   + [Encode(ResolveWalk(s.intervals[h].dir, s.intervals[h].opts))]
    ensures h !in s.intervals ==> r == s
    ensures r.continuousInterval == s.continuousInterval && r.intervals == s.intervals
  {
    if h in s.intervals then
      s.(trace := Walk(s.trace, s.intervals[h].dir, s.intervals[h].opts, outcome))
    else s
  }

  /**
   * `stopContinuousWalk()`: clears the module's interval if there is one and
   * then always sends exactly one stop payload, whatever the send's outcome.
   */
  function StopContinuousWalk(s: Controller, outcome: InvokeOutcome): (r: Controller)
    ensures !Running(r)
    ensures Running(s) ==> r.intervals == s.intervals - {s.continuousInterval.value}
    ensures !Running(s) ==> r.intervals == s.intervals
    ensures Payloads(r.trace) == Payloads(s.trace) + [StopPayload()]
  {
    var cleared :=
      if s.continuousInterval.Some?
      then s.(intervals := s.intervals - {s.continuousInterval.value}, continuousInterval := None)
      else s;
    cleared.(trace := Stop(cleared.trace, outcome))
  }

  // ---------------------------------------------------------------------
  // Runs of the controller
  // ---------------------------------------------------------------------

  /** One thing that can happen to the controller. */
  datatype Step =
    | Start(dir: Dir, opts: WalkOptions)
    | Tick(handle: Handle, outcome: InvokeOutcome)
    | Halt(outcome: InvokeOutcome)

  function Apply(s: Controller, step: Step): Controller
  {
    match step
    case Start(d, o) => StartContinuousWalk(s, d, o)
    case Tick(h, out) => Fire(s, h, out)
    case Halt(out) => StopContinuousWalk(s, out)
  }

  function Run(s: Controller, steps: seq<Step>): Controller
    decreases |steps|
  {
    if steps == [] then s else Run(Apply(s, steps[0]), steps[1..])
  }

  /** Every step keeps the invariant, so at most one interval is ever live. */
  lemma StepPreservesConsistent(s: Controller, step: Step)
    requires Consistent(s)
    ensures Consistent(Apply(s, step))
  {
    match step
    case Start(d, o) =>
    case Tick(h, out) =>
    case Halt(out) =>
  }

  lemma {:induction false} RunPreservesConsistent(s: Controller, steps: seq<Step>)
    requires Consistent(s)
    ensures Consistent(Run(s, steps))
    decreases |steps|
  {
    if steps != [] {
      StepPreservesConsistent(s, steps[0]);
      RunPreservesConsistent(Apply(s, steps[0]), steps[1..]);
    }
  }

  /** Starting twice without a stop in between leaves exactly one live interval, the first one. */
  lemma StartTwiceOneInterval(s: Controller, d1: Dir, o1: WalkOptions, d2: Dir, o2: WalkOptions)
    requires Consistent(s) && !Running(s)
    ensures var r := StartContinuousWalk(StartContinuousWalk(s, d1, o1), d2, o2);
            |r.intervals| == 1 && r.intervals.Values == {WalkTask(d1, o1)}
  {
    var r := StartContinuousWalk(s, d1, o1);
    assert r.intervals == map[s.nextHandle := WalkTask(d1, o1)];
  }

  /** Stopping twice leaves the same timer state as stopping once; each stop still sends one stop payload. */
  lemma StopIdempotentOnState(s: Controller, o1: InvokeOutcome, o2: InvokeOutcome)
    ensures var once := StopContinuousWalk(s, o1);
            var twice := StopContinuousWalk(once, o2);
            && twice.continuousInterval == once.continuousInterval
            && twice.intervals == once.intervals
            && Payloads(twice.trace) == Payloads(s.trace) + [StopPayload(), StopPayload()]
  {
  }

  /** After a stop nothing is live, so no interval can fire anything. */
  lemma StopLeavesNoInterval(s: Controller, outcome: InvokeOutcome)
    requires Consistent(s)
    ensures StopContinuousWalk(s, outcome).intervals == map[]
  {
  }

  /**
   * Once the controller is idle, any run without a start sends nothing but
   * stop payloads: ticks are silent until the next `startContinuousWalk`.
   */
  lemma {:induction false} IdleRunSendsOnlyStops(s: Controller, steps: seq<Step>)
    requires Consistent(s) && !Running(s)
    requires forall i :: 0 <= i < |steps| ==> !steps[i].Start?
    ensures var r := Run(s, steps);
            && !Running(r)
            && |r.trace| >= |s.trace|
            && r.trace[..|s.trace|] == s.trace
            && forall k :: |s.trace| <= k < |r.trace| ==> r.trace[k].payload == StopPayload()
    decreases |steps|
  {
    if steps != [] {
      var s' := Apply(s, steps[0]);
      StepPreservesConsistent(s, steps[0]);
      assert steps[0].Tick? ==> s' == s;
      assert forall i :: 0 <= i < |steps[1..]| ==> !steps[1..][i].Start? by {
        forall i | 0 <= i < |steps[1..]|
          ensures !steps[1..][i].Start?
        {
          assert steps[1..][i] == steps[i + 1];
        }
      }
      IdleRunSendsOnlyStops(s', steps[1..]);
    }
  }

  /** A started walk sends, on each tick of its interval, exactly the walk it captured. */
  lemma TickAfterStartSendsCapturedWalk(s: Controller, dir: Dir, opts: WalkOptions, outcome: InvokeOutcome)
    requires Consistent(s) && !Running(s)
    ensures var started := StartContinuousWalk(s, dir, opts);
            var ticked := Fire(started, started.continuousInterval.value, outcome);
            Payloads(ticked.trace) == Payloads(s.trace) + [Encode(ResolveWalk(dir, opts))]
  {
  }
}
