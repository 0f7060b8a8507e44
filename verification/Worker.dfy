/** A background job and its group (internal/worker/worker.go): one loop per start,
    an execution at start, a coalescing trigger, a stop channel, and a last run at
    stop. The other jobs of the group appear where they matter: a failed start of one
    of them gives up the start of all. */
module Worker {
  import opened Wrappers

  /** Where one start of the job is: executing it before the loop, waiting for the other
      jobs of the group, given up; then the loop waits, executes, executes for the last
      time, or has returned. */
  datatype Pc = Starting | Ready | Failed | Waiting | Running | LastRun | Exited

  /** A loop and the stop channel it was started with. */
  datatype Loop = Loop(pc: Pc, stopClosed: bool)

  /** `runs` counts executions begun; `triggeredAt` is the value it had at the most
      recent trigger; `lastRuns` counts the last runs begun, loop by loop. */
  datatype State = State(
    runAtStart: bool, runAtStop: bool, started: bool, loops: seq<Loop>, trigger: bool,
    runs: nat, triggeredAt: Option<nat>, lastRuns: nat)

  datatype Event =
    | StartGroup
    | FinishStart(loop: nat, ok: bool)
    | GiveUpStart(loop: nat)   // another job of the group failed its start
    | Launch(loop: nat)
    | StopGroup
    | Trigger
    | Tick(loop: nat)
    | TakeTrigger(loop: nat)
    | SeeStop(loop: nat)
    | Finish(loop: nat)

  predicate Enabled(s: State, e: Event) {
    match e
    case StartGroup => !s.started
    case StopGroup => s.started && s.loops != []
    case Trigger => true
    case FinishStart(i, _) => i < |s.loops| && s.loops[i].pc.Starting?
    case GiveUpStart(i) => i < |s.loops| && s.loops[i].pc.Ready?
    case Launch(i) => i < |s.loops| && s.loops[i].pc.Ready?
    case Tick(i) => i < |s.loops| && s.loops[i].pc.Waiting?
    case TakeTrigger(i) => i < |s.loops| && s.loops[i].pc.Waiting? && s.trigger
    case SeeStop(i) => i < |s.loops| && s.loops[i].pc.Waiting? && s.loops[i].stopClosed
    case Finish(i) => i < |s.loops| && (s.loops[i].pc.Running? || s.loops[i].pc.LastRun?)
  }

  function At(s: State, i: nat, pc: Pc): State
    requires i < |s.loops|
  {
    s.(loops := s.loops[i := s.loops[i].(pc := pc)])
  }

  function Step(s: State, e: Event): State
    requires Enabled(s, e)
  {
    match e
    case StartGroup =>
      var t := s.(started := true, loops := s.loops + [Loop(if s.runAtStart then Starting else Ready, false)]);
      if s.runAtStart then t.(runs := s.runs + 1) else t
    case FinishStart(i, ok) => if ok then At(s, i, Ready) else At(s, i, Failed).(started := false)
    case GiveUpStart(i) => At(s, i, Failed).(started := false)
    case Launch(i) => At(s, i, Waiting)
    case StopGroup =>
      var last := |s.loops| - 1;
      s.(started := false, loops := s.loops[last := s.loops[last].(stopClosed := true)])
    case Trigger => s.(trigger := true, triggeredAt := Some(s.runs))
    case Tick(i) => At(s, i, Running).(runs := s.runs + 1)
    case TakeTrigger(i) => At(s, i, Running).(runs := s.runs + 1, trigger := false)
    case SeeStop(i) =>
      if s.runAtStop then At(s, i, LastRun).(runs := s.runs + 1, lastRuns := s.lastRuns + 1)
      else At(s, i, Exited)
    case Finish(i) => At(s, i, if s.loops[i].pc.Running? then Waiting else Exited)
  }

  function Initial(runAtStart: bool, runAtStop: bool): State {
    State(runAtStart, runAtStop, false, [], false, 0, None, 0)
  }

  datatype Run = Start(runAtStart: bool, runAtStop: bool) | Then(prefix: Run, event: Event)

  ghost function End(run: Run): Option<State> {
    match run
    case Start(runAtStart, runAtStop) => Some(Initial(runAtStart, runAtStop))
    case Then(prefix, e) =>
      match End(prefix)
      case None => None
      case Some(s) => if Enabled(s, e) then Some(Step(s, e)) else None
  }

  // ---- A trigger is never lost.

  /** The most recent trigger is still pending, or a run has begun after it. */
  lemma {:induction false} TriggerLeadsToARun(run: Run)
    requires End(run).Some?
    ensures Served(End(run).value)
  {
    if run.Then? {
      TriggerLeadsToARun(run.prefix);
      StepServes(End(run.prefix).value, run.event);
    }
  }

  predicate Served(s: State) {
    s.triggeredAt.Some? ==> s.triggeredAt.value <= s.runs && (s.trigger || s.triggeredAt.value < s.runs)
  }

  lemma StepServes(s: State, e: Event)
    requires Served(s) && Enabled(s, e)
    ensures Served(Step(s, e))
  {}

  /** When a loop that runs at stop sees the stop, a run begins after every trigger so far. */
  lemma StopServesEveryTrigger(run: Run, i: nat)
    requires End(run).Some? && Enabled(End(run).value, SeeStop(i)) && End(run).value.runAtStop
    requires End(run).value.triggeredAt.Some?
    ensures var t := End(Then(run, SeeStop(i))); t.Some? && t.value.triggeredAt.value < t.value.runs
  {
    TriggerLeadsToARun(run);
  }

  // ---- The last run.

  function Left(loops: seq<Loop>): nat {
    if loops == [] then 0
    else Left(loops[..|loops| - 1]) + Leaves(loops[|loops| - 1])
  }

  function Leaves(l: Loop): nat { if l.pc.LastRun? || l.pc.Exited? then 1 else 0 }

  lemma {:induction false} LeftAfter(loops: seq<Loop>, i: nat, l: Loop)
    requires i < |loops|
    ensures Left(loops[i := l]) == Left(loops) + Leaves(l) - Leaves(loops[i])
  {
    var n := |loops| - 1;
    if i == n {
      assert loops[i := l][..n] == loops[..n];
    } else {
      LeftAfter(loops[..n], i, l);
      assert loops[i := l][..n] == loops[..n][i := l];
    }
  }

  lemma LeftOfOneMore(loops: seq<Loop>, l: Loop)
    ensures Left(loops + [l]) == Left(loops) + Leaves(l)
  {
    assert (loops + [l])[..|loops|] == loops;
  }

  lemma StartingLeavesNone(s: State, e: Event)
    requires Enabled(s, e) && (e.FinishStart? || e.GiveUpStart? || e.Launch? || e.Tick? || e.TakeTrigger?)
    ensures Left(Step(s, e).loops) == Left(s.loops)
  {
    var pc := if e.Tick? || e.TakeTrigger? then Running
              else if e.Launch? then Waiting
              else if e.FinishStart? && e.ok then Ready
              else Failed;
    assert Step(s, e).loops == At(s, e.loop, pc).loops;
    LeftAfter(s.loops, e.loop, s.loops[e.loop].(pc := pc));
  }

  lemma LeavingLeavesOnce(s: State, e: Event)
    requires Enabled(s, e) && (e.SeeStop? || e.Finish?)
    ensures Left(Step(s, e).loops) == Left(s.loops) + if e.SeeStop? then 1 else 0
  {
    var l := s.loops[e.loop];
    var pc := if e.SeeStop? then (if s.runAtStop then LastRun else Exited)
              else if l.pc.Running? then Waiting
              else Exited;
    assert Step(s, e).loops == At(s, e.loop, pc).loops;
    LeftAfter(s.loops, e.loop, l.(pc := pc));
  }

  lemma StopLeavesOnce(s: State, e: Event)
    requires Enabled(s, e)
    ensures Left(Step(s, e).loops) == Left(s.loops) + if e.SeeStop? then 1 else 0
  {
    match e
    case StartGroup => LeftOfOneMore(s.loops, Loop(if s.runAtStart then Starting else Ready, false));
    case StopGroup => LeftAfter(s.loops, |s.loops| - 1, s.loops[|s.loops| - 1].(stopClosed := true));
    case Trigger =>
    case SeeStop(_) => LeavingLeavesOnce(s, e);
    case Finish(_) => LeavingLeavesOnce(s, e);
    case _ => StartingLeavesNone(s, e);
  }

  /** Every loop of a job that runs at stop begins exactly one last run, when it sees
      the stop; one that does not run at stop begins none. */
  lemma {:induction false} OneLastRunPerLoop(run: Run)
    requires End(run).Some?
    ensures End(run).value.lastRuns == if End(run).value.runAtStop then Left(End(run).value.loops) else 0
  {
    if run.Then? {
      OneLastRunPerLoop(run.prefix);
      StopLeavesOnce(End(run.prefix).value, run.event);
    }
  }

  /** A loop in its last run has seen its stop channel closed, and all it can still
      do is return - for good. */
  lemma LastRunIsLast(s: State, e: Event, i: nat)
    requires i < |s.loops| && Enabled(s, e)
    ensures i < |Step(s, e).loops|
    ensures s.loops[i].pc.Exited? ==> Step(s, e).loops[i].pc.Exited?
    ensures s.loops[i].pc.LastRun? ==> Step(s, e).loops[i].pc == if e == Finish(i) then Exited else LastRun
    ensures Step(s, e).loops[i].pc.LastRun? && !s.loops[i].pc.LastRun? ==> e == SeeStop(i) && s.loops[i].stopClosed
  {
    match e
    case StartGroup =>
    case StopGroup =>
    case Trigger =>
    case _ => if e.loop != i { assert Step(s, e).loops[i] == s.loops[i]; }
  }

  // ---- No overlap.

  predicate Executing(l: Loop) {
    l.pc.Starting? || l.pc.Running? || l.pc.LastRun?
  }

  /** Returned, or never launched. */
  predicate Over(l: Loop) {
    l.pc.Exited? || l.pc.Failed?
  }

  ghost predicate AllOver(loops: seq<Loop>) {
    forall i :: 0 <= i < |loops| ==> Over(loops[i])
  }

  /** The job is not executed twice at once, at start, in a loop or at stop. */
  ghost predicate NoOverlap(s: State) {
    forall i, j :: 0 <= i < j < |s.loops| ==> !(Executing(s.loops[i]) && Executing(s.loops[j]))
  }

  /** Every start finds the earlier ones over. */
  ghost predicate CleanStarts(run: Run) {
    run.Then? ==>
      && CleanStarts(run.prefix)
      && (run.event.StartGroup? && End(run.prefix).Some? ==> AllOver(End(run.prefix).value.loops))
  }

  ghost predicate OnlyLatestLives(s: State) {
    forall i :: 0 <= i < |s.loops| - 1 ==> Over(s.loops[i])
  }

  lemma StepKeepsOver(s: State, e: Event, i: nat)
    requires Enabled(s, e) && i < |s.loops| && Over(s.loops[i])
    ensures Over(Step(s, e).loops[i])
  {
    match e
    case StartGroup =>
    case StopGroup =>
    case Trigger =>
    case _ => assert e.loop != i && Step(s, e).loops[i] == s.loops[i];
  }

  /** With clean starts only the latest loop is ever alive, so a job never overlaps
      itself. */
  lemma {:induction false} NeverOverlaps(run: Run)
    requires End(run).Some? && CleanStarts(run)
    ensures OnlyLatestLives(End(run).value) && NoOverlap(End(run).value)
  {
    if run.Then? {
      NeverOverlaps(run.prefix);
      var s, t := End(run.prefix).value, End(run).value;
      forall i | 0 <= i < |t.loops| - 1 ensures Over(t.loops[i]) { StepKeepsOver(s, run.event, i); }
    }
  }

  /** `later` goes on from `base` without another start. */
  ghost predicate Continues(later: Run, base: Run) {
    later == base || (later.Then? && !later.event.StartGroup? && Continues(later.prefix, base))
  }

  lemma {:induction false} ContinuingIsClean(later: Run, base: Run)
    requires Continues(later, base) && CleanStarts(base)
    ensures CleanStarts(later)
  {
    if later != base { ContinuingIsClean(later.prefix, base); }
  }

  lemma One(run: Run, s: State, e: Event)
    requires End(run) == Some(s) && Enabled(s, e)
    ensures End(Then(run, e)) == Some(Step(s, e))
  {}

  /** A loop that is not over can be brought to execute, the others standing still. */
  lemma LiveLoopCanExecute(run: Run, i: nat) returns (later: Run, t: State)
    requires End(run).Some? && i < |End(run).value.loops| && !Over(End(run).value.loops[i])
    ensures Continues(later, run) && End(later) == Some(t) && |t.loops| == |End(run).value.loops|
    ensures Executing(t.loops[i])
    ensures forall j :: 0 <= j < |t.loops| && j != i ==> t.loops[j] == End(run).value.loops[j]
  {
    later, t := run, End(run).value;
    if t.loops[i].pc.Ready? {
      One(later, t, Launch(i));
      later, t := Then(later, Launch(i)), Step(t, Launch(i));
    }
    if t.loops[i].pc.Waiting? {
      One(later, t, Tick(i));
      later, t := Then(later, Tick(i)), Step(t, Tick(i));
    }
  }

  lemma {:induction false} ContinuesFurther(c: Run, b: Run, a: Run)
    requires Continues(c, b) && Continues(b, a)
    ensures Continues(c, a)
  {
    if c != b { ContinuesFurther(c.prefix, b, a); }
  }

  /** A start beside a loop that is not over can always lead to an overlap. */
  lemma UncleanStartCanOverlap(run: Run, i: nat) returns (later: Run)
    requires End(run).Some? && !End(run).value.started
    requires i < |End(run).value.loops| && !Over(End(run).value.loops[i])
    ensures Continues(later, Then(run, StartGroup)) && End(later).Some? && !NoOverlap(End(later).value)
  {
    var s := End(run).value;
    var base := Then(run, StartGroup);
    One(run, s, StartGroup);
    var first, t := LiveLoopCanExecute(base, i);
    var u;
    later, u := LiveLoopCanExecute(first, |s.loops|);
    ContinuesFurther(later, first, base);
    assert u.loops[i] == t.loops[i];
    assert Executing(u.loops[i]) && Executing(u.loops[|s.loops|]);
  }

  /** A start is safe exactly when every earlier loop is over: then nothing that can
      follow it overlaps, and otherwise something can. */
  lemma StartIsSafeExactlyWhenClean(run: Run)
    requires End(run).Some? && CleanStarts(run) && !End(run).value.started
    ensures AllOver(End(run).value.loops) <==>
            forall later :: Continues(later, Then(run, StartGroup)) && End(later).Some? ==> NoOverlap(End(later).value)
  {
    var s, base := End(run).value, Then(run, StartGroup);
    if AllOver(s.loops) {
      forall later | Continues(later, base) && End(later).Some? ensures NoOverlap(End(later).value) {
        ContinuingIsClean(later, base);
        NeverOverlaps(later);
      }
    } else {
      var i :| 0 <= i < |s.loops| && !Over(s.loops[i]);
      var later := UncleanStartCanOverlap(run, i);
    }
  }

  /** Such a start is reached: a shutdown that gave up waiting clears `started`, and a
      second start then runs beside the loop still executing. */
  lemma RestartAfterTimedOutShutdownOverlaps(runAtStop: bool)
    ensures var stopped := Then(Then(Then(Then(Start(false, runAtStop), StartGroup), Launch(0)), Tick(0)), StopGroup);
            var run := Then(Then(Then(stopped, StartGroup), Launch(1)), Tick(1));
            && End(stopped).Some? && !End(stopped).value.started && !AllOver(End(stopped).value.loops)
            && End(run).Some? && !NoOverlap(End(run).value)
  {
    var s := Initial(false, runAtStop);
    var r := Start(false, runAtStop);
    s, r := Go(r, s, StartGroup);
    s, r := Go(r, s, Launch(0));
    s, r := Go(r, s, Tick(0));
    s, r := Go(r, s, StopGroup);
    assert s.loops == [Loop(Running, true)];
    assert !Over(s.loops[0]);
    s, r := Go(r, s, StartGroup);
    s, r := Go(r, s, Launch(1));
    s, r := Go(r, s, Tick(1));
    assert Executing(s.loops[0]) && Executing(s.loops[1]);
  }

  lemma Go(run: Run, s: State, e: Event) returns (t: State, longer: Run)
    requires End(run) == Some(s) && Enabled(s, e)
    ensures longer == Then(run, e) && t == Step(s, e) && End(longer) == Some(t)
  {
    t, longer := Step(s, e), Then(run, e);
  }

  // ---- The code of a job, as a path of the protocol.

  datatype Cause = AtStart | Ticked | Triggered | AtStop

  datatype Execution = Execution(cause: Cause, ok: bool)

  /** How the job's function ends. */
  datatype Ending = Succeeds | Fails | Panics

  /** One round of the loop: whether it prefers a pending trigger to the tick, and how its
      execution ends. */
  datatype Turn = Turn(trigger: bool, result: Ending)

  /** What began the executions of a run, in order. */
  ghost function Begun(run: Run): seq<Cause> {
    match run
    case Start(_, _) => []
    case Then(prefix, e) =>
      Begun(prefix) + match e
        case StartGroup => if RunsAtStart(prefix) then [AtStart] else []
        case Tick(_) => [Ticked]
        case TakeTrigger(_) => [Triggered]
        case SeeStop(_) => if RunsAtStop(prefix) then [AtStop] else []
        case _ => []
  }

  function RunsAtStart(run: Run): bool { if run.Start? then run.runAtStart else RunsAtStart(run.prefix) }

  function RunsAtStop(run: Run): bool { if run.Start? then run.runAtStop else RunsAtStop(run.prefix) }

  function Causes(history: seq<Execution>): seq<Cause> {
    if history == [] then [] else Causes(history[..|history| - 1]) + [history[|history| - 1].cause]
  }

  /** Failures since the last success. */
  function Streak(history: seq<Execution>): nat {
    if history == [] || history[|history| - 1].ok then 0 else 1 + Streak(history[..|history| - 1])
  }

  /** That is: the last so many executions failed, and the one before them did not. */
  lemma {:induction false} StreakCounts(history: seq<Execution>)
    ensures var n := Streak(history);
            && n <= |history| && (forall i :: |history| - n <= i < |history| ==> !history[i].ok)
            && (n < |history| ==> history[|history| - 1 - n].ok)
  {
    if history != [] && !history[|history| - 1].ok { StreakCounts(history[..|history| - 1]); }
  }

  /** Triggers, a shutdown and the clock act while the job runs; a start finds the
      earlier loops over, so the latest loop is the only one alive. */
  class Job {
    const runAtStart: bool
    const runAtStop: bool
    var started: bool
    var stopClosed: bool
    var trigger: bool
    var running: bool
    var consecutiveFailures: nat
    var history: seq<Execution>

    ghost var state: State
    ghost var run: Run

    /** The last execution may still be under way. */
    ghost predicate Linked()
      reads this
    {
      && End(run) == Some(state) && state.runAtStart == RunsAtStart(run) == runAtStart
      && state.runAtStop == RunsAtStop(run) == runAtStop
      && state.started == started && state.trigger == trigger
      && (state.loops != [] ==> Last().stopClosed == stopClosed)
      && (started ==> state.loops != [])
    }

    ghost predicate Valid()
      reads this
    {
      Linked() && !running && Begun(run) == Causes(history) && consecutiveFailures == Streak(history)
    }

    ghost function Last(): Loop
      reads this
      requires state.loops != []
    {
      state.loops[|state.loops| - 1]
    }

    constructor (runAtStart: bool, runAtStop: bool)
      ensures Valid() && state == Initial(runAtStart, runAtStop) && history == [] && !started
    {
      this.runAtStart, this.runAtStop := runAtStart, runAtStop;
      started, stopClosed, trigger, running, consecutiveFailures, history := false, false, false, false, 0, [];
      state, run := Initial(runAtStart, runAtStop), Start(runAtStart, runAtStop);
    }

    ghost method Log(e: Event)
      requires End(run) == Some(state) && Enabled(state, e)
      requires state.runAtStart == RunsAtStart(run) && state.runAtStop == RunsAtStop(run)
      modifies this`state, this`run
      ensures End(run) == Some(state) && state == Step(old(state), e) && run == Then(old(run), e)
      ensures state.runAtStart == RunsAtStart(run) && state.runAtStop == RunsAtStop(run)
    {
      state, run := Step(state, e), Then(run, e);
    }

    /** The rest of the program meanwhile: triggers, and perhaps a shutdown. */
    method Others()
      requires Linked()
      modifies this`trigger, this`started, this`stopClosed, this`state, this`run
      ensures Linked() && Begun(run) == old(Begun(run)) && |state.loops| == |old(state.loops)|
      ensures state.loops != [] ==> Last().pc == old(Last().pc)
      ensures state.lastRuns == old(state.lastRuns) && state.runs == old(state.runs)
      ensures old(stopClosed) ==> stopClosed
      ensures old(trigger) ==> trigger
      ensures old(started) ==> started || stopClosed
    {
      var triggered := *;
      if triggered { Trigger(); }
      var shutdown := *;
      if shutdown && started { Stop(); }
    }

    method Trigger()
      requires Linked()
      modifies this`trigger, this`state, this`run
      ensures Linked() && trigger && Begun(run) == old(Begun(run)) && state.loops == old(state.loops)
      ensures state.triggeredAt == Some(state.runs) && state.runs == old(state.runs)
      ensures state.lastRuns == old(state.lastRuns) && state.started == old(state.started)
    {
      if !trigger { trigger := true; }
      Log(Event.Trigger);
    }

    method Stop()
      requires Linked() && started
      modifies this`started, this`stopClosed, this`state, this`run
      ensures Linked() && !started && stopClosed && Begun(run) == old(Begun(run))
      ensures |state.loops| == |old(state.loops)| && state.lastRuns == old(state.lastRuns)
      ensures state.loops != [] ==> Last().pc == old(Last().pc)
      ensures state.runs == old(state.runs) && state.trigger == old(state.trigger)
    {
      started, stopClosed := false, true;
      Log(StopGroup);
    }

    /** One execution, begun by the event just logged. It ends as `result` says; a panic
        is recovered and counts as a failure. */
    method Exec(cause: Cause, result: Ending)
      requires Linked() && !running && Begun(run) == Causes(history) + [cause]
      requires consecutiveFailures == Streak(history)
      modifies this
      ensures Valid() && history == old(history) + [Execution(cause, result.Succeeds?)]
      ensures consecutiveFailures == if result.Succeeds? then 0 else old(consecutiveFailures) + 1
      ensures |state.loops| == |old(state.loops)| && state.lastRuns == old(state.lastRuns)
      ensures state.loops != [] ==> Last().pc == old(Last().pc)
      ensures old(stopClosed) ==> stopClosed
      ensures old(started) ==> started || stopClosed
    {
      running := true;
      Others();
      assert Begun(run) == Causes(history) + [cause];
      Record(cause, result.Succeeds?);
    }

    method Record(cause: Cause, ok: bool)
      requires Linked() && Begun(run) == Causes(history) + [cause] && consecutiveFailures == Streak(history)
      modifies this`running, this`consecutiveFailures, this`history
      ensures Valid() && history == old(history) + [Execution(cause, ok)]
      ensures consecutiveFailures == if ok then 0 else old(consecutiveFailures) + 1
    {
      history := history + [Execution(cause, ok)];
      assert history[..|history| - 1] == old(history);
      running := false;
      consecutiveFailures := if ok then 0 else consecutiveFailures + 1;
    }

    /** Start the job with its group. A failed execution at start, of this job or of
        another - when `others` do not all start - gives up the start and leaves the
        group startable again. */
    method StartJob(result: Ending, others: bool) returns (ok: bool)
      requires Valid() && !started && AllOver(state.loops)
      modifies this
      ensures Valid() && state.loops != [] && |state.loops| == |old(state.loops)| + 1
      ensures ok <==> (runAtStart ==> result.Succeeds?) && others
      ensures ok ==> Last().pc.Waiting? && (started || stopClosed)
      ensures !ok ==> Last().pc.Failed? && !started
      ensures state.lastRuns == old(state.lastRuns)
      ensures if runAtStart then |history| == |old(history)| + 1 && old(history) <= history
                                 && history[|old(history)|] == Execution(AtStart, result.Succeeds?)
              else history == old(history)
    {
      Prepare();
      if runAtStart { TryAtStart(result); }
      ok := runAtStart ==> result.Succeeds?;
      if ok {
        Others();
        LaunchWithGroup(others);
        ok := others;
      }
    }

    /** A new entry of the job, executing if the job runs at start. */
    method Prepare()
      requires Valid() && !started
      modifies this`started, this`stopClosed, this`state, this`run
      ensures Linked() && started && !stopClosed && |state.loops| == |old(state.loops)| + 1
      ensures Begun(run) == Causes(history) + (if runAtStart then [AtStart] else [])
      ensures Last().pc == (if runAtStart then Starting else Ready) && state.lastRuns == old(state.lastRuns)
    {
      started, stopClosed := true, false;
      Log(StartGroup);
    }

    method TryAtStart(result: Ending)
      requires Linked() && !running && Begun(run) == Causes(history) + [AtStart]
      requires consecutiveFailures == Streak(history)
      requires state.loops != [] && Last().pc.Starting? && (started || stopClosed)
      modifies this
      ensures Valid() && |state.loops| == |old(state.loops)|
      ensures history == old(history) + [Execution(AtStart, result.Succeeds?)]
      ensures if result.Succeeds? then Last().pc.Ready? && (started || stopClosed) else Last().pc.Failed? && !started
      ensures state.lastRuns == old(state.lastRuns)
    {
      Exec(AtStart, result);
      if !result.Succeeds? { started := false; }
      Log(FinishStart(|state.loops| - 1, result.Succeeds?));
    }

    method LaunchWithGroup(ok: bool)
      requires Valid() && state.loops != [] && Last().pc.Ready? && (started || stopClosed)
      modifies this`started, this`state, this`run
      ensures Valid() && |state.loops| == |old(state.loops)| && state.lastRuns == old(state.lastRuns)
      ensures if ok then Last().pc.Waiting? && (started || stopClosed) else Last().pc.Failed? && !started
    {
      if !ok { started := false; }
      Log(if ok then Launch(|state.loops| - 1) else GiveUpStart(|state.loops| - 1));
    }

    /** The latest loop begins an execution. */
    method Begin(cause: Cause)
      requires Valid() && state.loops != [] && Last().pc.Waiting?
      requires match cause
               case AtStart => false
               case Ticked => true
               case Triggered => trigger
               case AtStop => runAtStop && stopClosed
      modifies this`trigger, this`state, this`run
      ensures Linked() && Begun(run) == Causes(history) + [cause] && |state.loops| == |old(state.loops)|
      ensures Last().pc == if cause == AtStop then LastRun else Running
      ensures state.lastRuns == old(state.lastRuns) + if cause == AtStop then 1 else 0
    {
      ghost var i := |state.loops| - 1;
      if cause == Triggered {
        trigger := false;
        Log(TakeTrigger(i));
      } else {
        Log(if cause == AtStop then SeeStop(i) else Tick(i));
      }
    }

    ghost method Done()
      requires Valid() && state.loops != [] && (Last().pc.Running? || Last().pc.LastRun?)
      modifies this`state, this`run
      ensures Valid() && |state.loops| == |old(state.loops)| && state.lastRuns == old(state.lastRuns)
      ensures Last().pc == if old(Last().pc).Running? then Waiting else Exited
    {
      Log(Finish(|state.loops| - 1));
    }

    /** One round of the loop that does not see the stop: it takes the trigger when it
        is pending and chosen, and otherwise waits for the tick. */
    method Round(turn: Turn)
      requires Valid() && state.loops != [] && Last().pc.Waiting? && (started || stopClosed)
      modifies this
      ensures Valid() && |state.loops| == |old(state.loops)| && Last().pc.Waiting? && (started || stopClosed)
      ensures state.lastRuns == old(state.lastRuns)
      ensures |history| == |old(history)| + 1 && old(history) < history
      ensures history[|old(history)|].ok == turn.result.Succeeds?
      ensures !turn.trigger ==> history[|old(history)|].cause == Ticked
      ensures turn.trigger && old(trigger) ==> history[|old(history)|].cause == Triggered
    {
      Others();
      var cause := if trigger && turn.trigger then Triggered else Ticked;
      Begin(cause);
      Exec(cause, turn.result);
      Done();
    }

    /** The loop, until it sees its stop channel closed: then, for a job that runs at
        stop, one last execution, and it returns. */
    method LoopUntilStopped(turns: seq<Turn>, last: Ending)
      requires Valid() && state.loops != [] && Last().pc.Waiting? && (started || stopClosed)
      modifies this
      ensures Valid() && |state.loops| == |old(state.loops)| && Last().pc.Exited?
      ensures state.lastRuns == old(state.lastRuns) + if runAtStop then 1 else 0
      ensures old(history) <= history
      ensures |history| == |old(history)| + |turns| + if runAtStop then 1 else 0
      ensures runAtStop ==> history[|history| - 1] == Execution(AtStop, last.Succeeds?)
    {
      for i := 0 to |turns|
        invariant Valid() && |state.loops| == |old(state.loops)| && Last().pc.Waiting? && (started || stopClosed)
        invariant state.lastRuns == old(state.lastRuns) && old(history) <= history
        invariant |history| == |old(history)| + i
      {
        Round(turns[i]);
      }
      if !stopClosed { Stop(); }
      Leave(last);
    }

    /** What the loop does when it sees the stop. */
    method Leave(last: Ending)
      requires Valid() && state.loops != [] && Last().pc.Waiting? && stopClosed
      modifies this
      ensures Valid() && |state.loops| == |old(state.loops)| && Last().pc.Exited?
      ensures state.lastRuns == old(state.lastRuns) + if runAtStop then 1 else 0
      ensures history == old(history) + if runAtStop then [Execution(AtStop, last.Succeeds?)] else []
    {
      if runAtStop {
        Begin(AtStop);
        Exec(AtStop, last);
        Done();
      } else {
        Log(SeeStop(|state.loops| - 1));
      }
    }
  }
}
