/** The stored budget totals at shutdown: the spend protocol with its settle job hosted
    by the worker (internal/governance/governance.go, internal/gateway/gateway.go).
    Configurations may be published at any moment, also after the job has returned. */
module BudgetShutdown {
  import opened Wrappers
  import opened BudgetWindow
  import opened SpendProtocol
  import Worker
  import Hosted

  // ---- No request records: what one completed flush achieves.

  /** Whatever happens when no request records and the process lives. */
  predicate Quiet(e: SpendProtocol.Event) { !e.AddCost? && !e.AddReq? && !e.Crash? }

  /** What the settle goroutine has loaded is what the counters hold, or what is still
      to be taken from them. */
  predicate Current(s: SpendProtocol.State) {
    match s.settle
    case Idle => true
    case RollDue(_, _) => true
    case FlushCostLoaded(cost) => cost == s.windowCost
    case RollCostLoaded(_, _, cost) => cost == s.windowCost
    case FlushLoaded(cost, reqs) => cost == s.windowCost && reqs == s.windowReqs
    case FlushWritten(cost, reqs) => cost == s.windowCost && reqs == s.windowReqs
    case FlushHalfNoted(cost, reqs) => cost == s.windowCost && reqs == s.windowReqs
    case RollLoaded(_, _, cost, reqs) => cost == s.windowCost && reqs == s.windowReqs
    case RollClosed(_, _, cost, reqs) => cost == s.windowCost && reqs == s.windowReqs
    case RollReset(_, _, cost, reqs) => cost == s.windowCost && reqs == s.windowReqs
    case RollPublished(cost, reqs) => cost == s.windowCost && reqs == s.windowReqs
    case RollCostTaken(reqs) => s.windowCost == 0 && reqs == s.windowReqs
    case RollTaken => s.windowCost == 0 && s.windowReqs == 0
    case RollHalfCleared => s.windowCost == 0 && s.windowReqs == 0
  }

  predicate RowHoldsTotals(s: SpendProtocol.State) {
    s.row.cost == s.windowCost && s.row.reqs == s.windowReqs
  }

  /** The row holds both totals, or a roll that emptied it is emptying the counters. */
  predicate Synced(s: SpendProtocol.State) {
    s.settle.RollReset? || s.settle.RollPublished? || s.settle.RollCostTaken? || RowHoldsTotals(s)
  }

  /** The events that end a flush whose totals are in the row. */
  predicate FlushCompletes(e: SpendProtocol.Event) { e.SkipFlush? || e.NoteReqs? }

  lemma QuietKeepsCurrent(s: SpendProtocol.State, e: SpendProtocol.Event)
    requires Inv(s) && Current(s) && SpendProtocol.Enabled(s, e) && Quiet(e)
    ensures Current(SpendProtocol.Step(s, e))
  {}

  /** A failing write loses nothing that was stored, and a roll empties both sides. */
  lemma QuietKeepsSynced(s: SpendProtocol.State, e: SpendProtocol.Event)
    requires Inv(s) && Current(s) && Synced(s) && SpendProtocol.Enabled(s, e) && Quiet(e)
    ensures Synced(SpendProtocol.Step(s, e))
  {}

  lemma CompletedFlushSyncs(s: SpendProtocol.State, e: SpendProtocol.Event)
    requires Inv(s) && Current(s) && SpendProtocol.Enabled(s, e) && FlushCompletes(e)
    ensures Synced(SpendProtocol.Step(s, e))
  {}

  /** `run` goes on from `base` with nothing recorded, from a state between two ticks. */
  ghost predicate QuietTail(run: SpendProtocol.Run, base: SpendProtocol.Run) {
    if run == base then SpendProtocol.End(base).Some? && SpendProtocol.End(base).value.settle.Idle?
    else run.Then? && Quiet(run.event) && QuietTail(run.prefix, base)
  }

  ghost predicate FlushedSince(run: SpendProtocol.Run, base: SpendProtocol.Run) {
    run != base && run.Then? && (FlushCompletes(run.event) || FlushedSince(run.prefix, base))
  }

  /** After the last request one completed flush is enough: whatever the settle job and
      the publications do from then on, and whichever writes fail, the row holds both
      totals whenever the settle goroutine is between two ticks. */
  lemma {:induction false} OneFlushStoresTheTotals(run: SpendProtocol.Run, base: SpendProtocol.Run)
    requires Inv(SpendProtocol.Origin(run)) && SpendProtocol.End(run).Some? && QuietTail(run, base)
    ensures Current(SpendProtocol.End(run).value)
    ensures FlushedSince(run, base) ==> Synced(SpendProtocol.End(run).value)
    ensures FlushedSince(run, base) && SpendProtocol.End(run).value.settle.Idle? ==>
      RowHoldsTotals(SpendProtocol.End(run).value)
  {
    if run != base {
      OneFlushStoresTheTotals(run.prefix, base);
      SpendProtocol.RunKeepsInv(run.prefix);
      var s := SpendProtocol.End(run.prefix).value;
      QuietKeepsCurrent(s, run.event);
      if FlushCompletes(run.event) { CompletedFlushSyncs(s, run.event); }
      else if FlushedSince(run.prefix, base) { QuietKeepsSynced(s, run.event); }
    }
  }

  // ---- Requests record: what the row lacks.

  /** What was recorded after the last load of the counter, for cost and for requests. */
  function Recent(run: SpendProtocol.Run): (nat, nat) {
    match run
    case Start(_) => (0, 0)
    case Then(prefix, e) => RecentAfter(Recent(prefix), e)
  }

  function RecentAfter(recent: (nat, nat), e: SpendProtocol.Event): (nat, nat) {
    match e
    case AddCost(c) => (recent.0 + c, recent.1)
    case AddReq => (recent.0, recent.1 + 1)
    case LoadFlushCost => (0, recent.1)
    case LoadRollCost => (0, recent.1)
    case LoadFlushReqs => (recent.0, 0)
    case LoadRollReqs => (recent.0, 0)
    case Crash(_) => (0, 0)
    case _ => recent
  }

  /** What was recorded after the load whose total went into the row. */
  function Late(run: SpendProtocol.Run): (nat, nat) {
    match run
    case Start(_) => (0, 0)
    case Then(prefix, e) => LateAfter(Recent(prefix), Late(prefix), e)
  }

  function LateAfter(recent: (nat, nat), late: (nat, nat), e: SpendProtocol.Event): (nat, nat) {
    match e
    case AddCost(c) => (late.0 + c, late.1)
    case AddReq => (late.0, late.1 + 1)
    case SkipFlush => recent
    case WriteTotals(ok) => if ok then recent else late
    case CloseWindow(ok) => if ok then recent else late
    case Crash(_) => (0, 0)
    case _ => late
  }

  /** The cost in the row, or held by the settle goroutine, against the counter. */
  predicate CostTallies(s: SpendProtocol.State, recent: nat, late: nat) {
    match s.settle
    case FlushCostLoaded(cost) => s.row.cost + late == cost + recent == s.windowCost
    case FlushLoaded(cost, _) => s.row.cost + late == cost + recent == s.windowCost
    case RollCostLoaded(_, _, cost) => s.row.cost + late == cost + recent == s.windowCost
    case RollLoaded(_, _, cost, _) => s.row.cost + late == cost + recent == s.windowCost
    case RollReset(_, _, cost, _) => s.row.cost == 0 && cost + late == s.windowCost
    case RollPublished(cost, _) => s.row.cost == 0 && cost + late == s.windowCost
    case RollClosed(_, _, cost, _) => s.row.cost == cost && cost + late == s.windowCost
    case _ => s.row.cost + late == s.windowCost
  }

  predicate ReqsTally(s: SpendProtocol.State, recent: nat, late: nat) {
    match s.settle
    case FlushLoaded(_, reqs) => s.row.reqs + late == reqs + recent == s.windowReqs
    case RollLoaded(_, _, _, reqs) => s.row.reqs + late == reqs + recent == s.windowReqs
    case RollReset(_, _, _, reqs) => s.row.reqs == 0 && reqs + late == s.windowReqs
    case RollPublished(_, reqs) => s.row.reqs == 0 && reqs + late == s.windowReqs
    case RollCostTaken(reqs) => s.row.reqs == 0 && reqs + late == s.windowReqs
    case RollClosed(_, _, _, reqs) => s.row.reqs == reqs && reqs + late == s.windowReqs
    case _ => s.row.reqs + late == s.windowReqs
  }

  lemma StepTalliesCost(s: SpendProtocol.State, e: SpendProtocol.Event, recent: (nat, nat), late: (nat, nat))
    requires SpendProtocol.Enabled(s, e) && Inv(s) && CostTallies(s, recent.0, late.0)
    ensures CostTallies(SpendProtocol.Step(s, e), RecentAfter(recent, e).0, LateAfter(recent, late, e).0)
  {}

  lemma StepTalliesReqs(s: SpendProtocol.State, e: SpendProtocol.Event, recent: (nat, nat), late: (nat, nat))
    requires SpendProtocol.Enabled(s, e) && Inv(s) && ReqsTally(s, recent.1, late.1)
    ensures ReqsTally(SpendProtocol.Step(s, e), RecentAfter(recent, e).1, LateAfter(recent, late, e).1)
  {}

  lemma {:induction false} RunTallies(run: SpendProtocol.Run)
    requires SpendProtocol.End(run).Some? && Inv(SpendProtocol.Origin(run))
    requires SpendProtocol.Origin(run).settle.Idle? && RowHoldsTotals(SpendProtocol.Origin(run))
    ensures CostTallies(SpendProtocol.End(run).value, Recent(run).0, Late(run).0)
    ensures ReqsTally(SpendProtocol.End(run).value, Recent(run).1, Late(run).1)
  {
    if run.Then? {
      RunTallies(run.prefix);
      SpendProtocol.RunKeepsInv(run.prefix);
      var s, recent, late := SpendProtocol.End(run.prefix).value, Recent(run.prefix), Late(run.prefix);
      StepTalliesCost(s, run.event, recent, late);
      StepTalliesReqs(s, run.event, recent, late);
    }
  }

  /** Between two ticks of any run, with rolls, failing writes, publications and crashes,
      the row lacks exactly what was recorded after the load whose totals it holds; so it
      holds both totals if and only if nothing was. */
  lemma RowLacksExactlyTheLate(run: SpendProtocol.Run)
    requires SpendProtocol.End(run).Some? && Inv(SpendProtocol.Origin(run))
    requires SpendProtocol.Origin(run).settle.Idle? && RowHoldsTotals(SpendProtocol.Origin(run))
    requires SpendProtocol.End(run).value.settle.Idle?
    ensures var s := SpendProtocol.End(run).value;
            && s.windowCost == s.row.cost + Late(run).0 && s.windowReqs == s.row.reqs + Late(run).1
            && (RowHoldsTotals(s) <==> Late(run) == (0, 0))
  {
    RunTallies(run);
  }

  // ---- The settle job under the worker.

  /** An execution flushes and then perhaps rolls. `flushed`: its flush is over;
      `stored`: with the totals in the row. */
  datatype World = World(host: Hosted.Host, spend: SpendProtocol.State, flushed: bool, stored: bool)

  datatype Event =
    | Host(step: Hosted.Event)
    | Spend(move: SpendProtocol.Event)

  ghost predicate Enabled(s: World, e: Event) {
    match e
    case Host(step) =>
      Hosted.Enabled(s.host, step) && (Hosted.Ends(s.host, step) ==> s.flushed && s.spend.settle.Idle?)
    case Spend(m) =>
      && SpendProtocol.Enabled(s.spend, m) && !m.Crash?
      && (m.AddCost? || m.AddReq? ==> s.host.open)
      && (IsSettle(m) ==> Hosted.Busy(s.host))
      && (m.LoadFlushCost? ==> !s.flushed) && (m.FindDue? ==> s.flushed)
  }

  ghost function Step(s: World, e: Event): World
    requires Enabled(s, e)
  {
    match e
    case Host(step) =>
      var t := s.(host := Hosted.Step(s.host, step));
      if Hosted.Begins(s.host, step) then t.(flushed := false, stored := false) else t
    case Spend(m) =>
      var t := s.(spend := SpendProtocol.Step(s.spend, m));
      if FlushCompletes(m) then t.(flushed := true, stored := true)
      else if m == WriteTotals(false) then t.(flushed := true)
      else t
  }

  datatype Run = Start(row: Row, config: Config) | Then(prefix: Run, event: Event)

  ghost function End(run: Run): Option<World> {
    match run
    case Start(row, config) =>
      if row.cost >= 0 && row.reqs >= 0 then Some(World(Hosted.Initial(false, true), Seeded(row, config), false, false))
      else None
    case Then(prefix, e) =>
      match End(prefix)
      case None => None
      case Some(s) => if Enabled(s, e) then Some(Step(s, e)) else None
  }

  /** The settle job's part of a run, which is a run of the spend protocol. */
  function SpendRun(run: Run): SpendProtocol.Run {
    match run
    case Start(row, config) => SpendProtocol.Start(Seeded(row, config))
    case Then(prefix, Host(_)) => SpendRun(prefix)
    case Then(prefix, Spend(m)) => SpendProtocol.Then(SpendRun(prefix), m)
  }

  lemma {:induction false} SpendRunIsARun(run: Run)
    requires End(run).Some?
    ensures SpendProtocol.End(SpendRun(run)) == Some(End(run).value.spend)
    ensures var o := SpendProtocol.Origin(SpendRun(run)); Inv(o) && o.settle.Idle? && RowHoldsTotals(o)
  {
    if run.Then? { SpendRunIsARun(run.prefix); }
  }

  /** In a last run that found the server closed, and after it, nothing recorded can come
      between a load and its use, and a stored flush stays stored. */
  ghost predicate Hold(s: World) {
    && Hosted.Inv(s.host) && s.host.worker.runAtStop && Inv(s.spend)
    && (!Hosted.Busy(s.host) ==> s.spend.settle.Idle?)
    && (s.stored ==> s.flushed)
    && (!s.flushed ==> s.spend.settle.Idle? || Flushing(s.spend.settle))
    && (ClosedForGood(s.host) ==> Current(s.spend) && (s.stored ==> Synced(s.spend)))
  }

  predicate ClosedForGood(h: Hosted.Host) { Hosted.Leaving(h) && h.closedAtStop }

  lemma HostKeepsHold(s: World, e: Event)
    requires Hold(s) && Enabled(s, e) && e.Host?
    ensures Hold(Step(s, e))
  {
    Hosted.StepKeepsInv(s.host, e.step);
    Hosted.Phases(s.host, e.step);
  }

  /** After the closing of the server nothing is recorded. */
  lemma LastRunKeepsTotals(s: World, e: Event)
    requires Hold(s) && Enabled(s, e) && e.Spend? && !s.host.open && Current(s.spend) && (s.stored ==> Synced(s.spend))
    ensures Current(Step(s, e).spend) && (Step(s, e).stored ==> Synced(Step(s, e).spend))
  {
    QuietKeepsCurrent(s.spend, e.move);
    if FlushCompletes(e.move) { CompletedFlushSyncs(s.spend, e.move); }
    else if s.stored { QuietKeepsSynced(s.spend, e.move); }
  }

  predicate Flushing(p: Settle) { p.FlushCostLoaded? || p.FlushLoaded? || p.FlushWritten? || p.FlushHalfNoted? }

  /** The flush comes before the roll. */
  lemma SpendKeepsOrder(s: World, e: Event)
    requires Hold(s) && Enabled(s, e) && e.Spend?
    ensures var t := Step(s, e);
            && (!Hosted.Busy(t.host) ==> t.spend.settle.Idle?) && (t.stored ==> t.flushed)
            && (!t.flushed ==> t.spend.settle.Idle? || Flushing(t.spend.settle))
  {}

  lemma SpendKeepsHold(s: World, e: Event)
    requires Hold(s) && Enabled(s, e) && e.Spend?
    ensures Hold(Step(s, e))
  {
    StepKeepsInv(s.spend, e.move);
    SpendKeepsOrder(s, e);
    if ClosedForGood(s.host) { LastRunKeepsTotals(s, e); }
  }

  lemma {:induction false} RunHolds(run: Run)
    requires End(run).Some?
    ensures Hold(End(run).value)
  {
    if run.Then? {
      RunHolds(run.prefix);
      var s := End(run.prefix).value;
      if run.event.Host? { HostKeepsHold(s, run.event); } else { SpendKeepsHold(s, run.event); }
    }
  }

  /** When the settle job has stopped, the row lacks exactly what was recorded after the
      load whose totals it holds, whatever was and still is published. If the last flush
      succeeded and the server was closed at the stop, that is nothing. */
  lemma ShutdownStoresTheTotals(run: Run)
    requires End(run).Some? && Hosted.Stopped(End(run).value.host)
    ensures var t := End(run).value; var s := t.spend;
            && s.settle.Idle?
            && s.windowCost == s.row.cost + Late(SpendRun(run)).0 && s.windowReqs == s.row.reqs + Late(SpendRun(run)).1
            && (t.stored && t.host.closedAtStop ==> RowHoldsTotals(s))
  {
    RunHolds(run);
    SpendRunIsARun(run);
    Hosted.StoppedHasReturned(End(run).value.host);
    RowLacksExactlyTheLate(SpendRun(run));
  }

  // ---- Such a shutdown is always possible.

  lemma Go(run: Run, s: World, e: Event) returns (longer: Run, t: World)
    requires End(run) == Some(s) && Enabled(s, e)
    ensures longer == Run.Then(run, e) && t == Step(s, e) && End(longer) == Some(t)
  {
    longer, t := Run.Then(run, e), Step(s, e);
  }

  lemma LoopBegins(row: Row, config: Config) returns (run: Run, s: World)
    requires row.cost >= 0 && row.reqs >= 0
    ensures End(run) == Some(s) && s.spend == Seeded(row, config) && !s.flushed
    ensures s.host.worker.loops == [Worker.Loop(Worker.Waiting, false)]
    ensures s.host.worker.runAtStop && s.host.worker.started
  {
    run, s := Run.Start(row, config), End(Run.Start(row, config)).value;
    run, s := Go(run, s, Host(Hosted.Group(Worker.StartGroup)));
    assert s.host.worker.loops == [Worker.Loop(Worker.Ready, false)];
    run, s := Go(run, s, Host(Hosted.Group(Worker.Launch(0))));
  }

  lemma LastRunBegins(row: Row, config: Config) returns (run: Run, s: World)
    requires row.cost >= 0 && row.reqs >= 0
    ensures End(run) == Some(s) && s.spend == Seeded(row, config) && !s.flushed
    ensures s.host.closedAtStop
    ensures s.host.worker.loops == [Worker.Loop(Worker.LastRun, true)] && s.host.worker.runAtStop
  {
    run, s := StopIsGiven(row, config);
    run, s := Go(run, s, Host(Hosted.Group(Worker.SeeStop(0))));
  }

  lemma StopIsGiven(row: Row, config: Config) returns (run: Run, s: World)
    requires row.cost >= 0 && row.reqs >= 0
    ensures End(run) == Some(s) && s.spend == Seeded(row, config) && !s.flushed && !s.host.open
    ensures s.host.worker.loops == [Worker.Loop(Worker.Waiting, true)] && s.host.worker.runAtStop
  {
    run, s := LoopBegins(row, config);
    run, s := Go(run, s, Host(Hosted.CloseServer));
    run, s := Go(run, s, Host(Hosted.Group(Worker.StopGroup)));
  }

  /** From any stored row some run leads to the end of the job with its flush stored. */
  lemma ShutdownIsPossible(row: Row, config: Config) returns (run: Run)
    requires row.cost >= 0 && row.reqs >= 0
    ensures End(run).Some? && Hosted.Stopped(End(run).value.host)
    ensures End(run).value.stored && End(run).value.host.closedAtStop
  {
    var s;
    run, s := LastFlushSkips(row, config);
    run, s := Go(run, s, Host(Hosted.Group(Worker.Finish(0))));
    assert s.host.worker.loops == [Worker.Loop(Worker.Exited, true)];
  }

  lemma LastFlushSkips(row: Row, config: Config) returns (run: Run, s: World)
    requires row.cost >= 0 && row.reqs >= 0
    ensures End(run) == Some(s) && s.flushed && s.stored && s.spend.settle.Idle? && s.host.closedAtStop
    ensures s.host.worker.loops == [Worker.Loop(Worker.LastRun, true)] && s.host.worker.runAtStop
  {
    run, s := LastRunBegins(row, config);
    run, s := Go(run, s, Spend(LoadFlushCost));
    run, s := Go(run, s, Spend(LoadFlushReqs));
    run, s := Go(run, s, Spend(SkipFlush));
  }
}
