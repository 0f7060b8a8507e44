/** The spend-accounting protocol of one cached budget: request goroutines add to
    two atomic counters, the settle goroutine flushes totals and rolls windows,
    other goroutines publish configurations, database writes may fail, and the
    process may crash (internal/governance/governance.go, budget.go).

    Every atomic load, add, store and every database write is one event. A run is
    any sequence of events, each enabled where it happens. */
module SpendProtocol {
  import opened Arithmetic
  import opened Wrappers
  import opened BudgetWindow

  /** The budget's database row: totals and the start of its window. */
  datatype Row = Row(cost: int, reqs: int, refreshedAt: int)

  /** Where the settle goroutine stands, with its local variables. */
  datatype Settle =
    | Idle
    | FlushCostLoaded(cost: int)
    | FlushLoaded(cost: int, reqs: int)
    | FlushWritten(cost: int, reqs: int)
    | FlushHalfNoted(cost: int, reqs: int)
    | RollDue(cfg: Config, target: int)
    | RollCostLoaded(cfg: Config, target: int, cost: int)
    | RollLoaded(cfg: Config, target: int, cost: int, reqs: int)
    | RollClosed(cfg: Config, target: int, cost: int, reqs: int)
    | RollReset(cfg: Config, target: int, cost: int, reqs: int)
    | RollPublished(cost: int, reqs: int)
    | RollCostTaken(reqs: int)
    | RollTaken
    | RollHalfCleared

  /** `checking` holds the configurations that admission checks under way have loaded.
      `inFlight` requests were admitted and have not settled; `halfway` of the
      settled ones added their cost but not yet their count. `spent`/`served`
      total the seed and everything recorded since, `closedCost`/`closedReqs`
      what rolls subtracted, `lostCost`/`lostReqs` what crashes discarded. */
  datatype State = State(
    config: Config, windowCost: int, windowReqs: int, lastFlushed: int, lastReqs: int,
    row: Row, settle: Settle, inFlight: nat, halfway: nat,
    spent: int, served: int, closedCost: int, closedReqs: int, lostCost: int, lostReqs: int,
    checking: multiset<Config>)

  datatype Event =
    // request goroutines
    | LoadLimit
    | Admit(held: Config)
    | Refuse(held: Config)
    | Abandon
    | AddCost(spend: nat)
    | AddReq
    // configuration sync and admin updates
    | Publish(config: Config)
    // settle goroutine: flush
    | LoadFlushCost
    | LoadFlushReqs
    | SkipFlush
    | WriteTotals(ok: bool)
    | NoteCost
    | NoteReqs
    // settle goroutine: window roll
    | FindDue(now: int)
    | LoadRollCost
    | LoadRollReqs
    | CloseWindow(ok: bool)
    | ResetRow(ok: bool)
    | PublishWindow
    | TakeCost
    | TakeReqs
    | ClearCost
    | ClearReqs
    // the process dies, restarts and seeds the counters from the row
    | Crash(config: Config)

  predicate IsSettle(e: Event) {
    !(e.LoadLimit? || e.Admit? || e.Refuse? || e.Abandon? || e.AddCost? || e.AddReq? || e.Publish? || e.Crash?)
  }

  predicate Enabled(s: State, e: Event) {
    match e
    case LoadLimit => true
    case Admit(held) => held in s.checking && Admits(held, s.windowCost)
    case Refuse(held) => held in s.checking && !Admits(held, s.windowCost)
    case Abandon | AddCost(_) => s.inFlight > 0
    case AddReq => s.halfway > 0
    case Publish(_) => true
    case LoadFlushCost => s.settle.Idle?
    case LoadFlushReqs => s.settle.FlushCostLoaded?
    case SkipFlush => s.settle.FlushLoaded? && s.settle.cost == s.lastFlushed && s.settle.reqs == s.lastReqs
    case WriteTotals(_) => s.settle.FlushLoaded? && !(s.settle.cost == s.lastFlushed && s.settle.reqs == s.lastReqs)
    case NoteCost => s.settle.FlushWritten?
    case NoteReqs => s.settle.FlushHalfNoted?
    case FindDue(now) => s.settle.Idle? && ResetTarget(s.config, now).Some?
    case LoadRollCost => s.settle.RollDue?
    case LoadRollReqs => s.settle.RollCostLoaded?
    case CloseWindow(_) => s.settle.RollLoaded?
    case ResetRow(_) => s.settle.RollClosed?
    case PublishWindow => s.settle.RollReset?
    case TakeCost => s.settle.RollPublished?
    case TakeReqs => s.settle.RollCostTaken?
    case ClearCost => s.settle.RollTaken?
    case ClearReqs => s.settle.RollHalfCleared?
    case Crash(cfg) => cfg.refreshedAt == s.row.refreshedAt
  }

  function Step(s: State, e: Event): State
    requires Enabled(s, e)
  {
    var p := s.settle;
    match e
    case LoadLimit => s.(checking := s.checking + multiset{s.config})
    case Admit(held) => s.(checking := s.checking - multiset{held}, inFlight := s.inFlight + 1)
    case Refuse(held) => s.(checking := s.checking - multiset{held})
    case Abandon => s.(inFlight := s.inFlight - 1)
    case AddCost(c) =>
      s.(inFlight := s.inFlight - 1, halfway := s.halfway + 1,
         windowCost := s.windowCost + c, spent := s.spent + c)
    case AddReq => s.(halfway := s.halfway - 1, windowReqs := s.windowReqs + 1, served := s.served + 1)
    case Publish(cfg) => s.(config := cfg)
    case LoadFlushCost => s.(settle := FlushCostLoaded(s.windowCost))
    case LoadFlushReqs => s.(settle := FlushLoaded(p.cost, s.windowReqs))
    case SkipFlush => s.(settle := Idle)
    case WriteTotals(ok) =>
      if ok then s.(row := s.row.(cost := p.cost, reqs := p.reqs), settle := FlushWritten(p.cost, p.reqs))
      else s.(settle := Idle)
    case NoteCost => s.(lastFlushed := p.cost, settle := FlushHalfNoted(p.cost, p.reqs))
    case NoteReqs => s.(lastReqs := p.reqs, settle := Idle)
    case FindDue(now) => s.(settle := RollDue(s.config, ResetTarget(s.config, now).value))
    case LoadRollCost => s.(settle := RollCostLoaded(p.cfg, p.target, s.windowCost))
    case LoadRollReqs => s.(settle := RollLoaded(p.cfg, p.target, p.cost, s.windowReqs))
    case CloseWindow(ok) =>
      if ok then s.(row := s.row.(cost := p.cost, reqs := p.reqs),
                    settle := RollClosed(p.cfg, p.target, p.cost, p.reqs))
      else s.(settle := Idle)
    case ResetRow(ok) =>
      if ok then s.(row := Row(0, 0, p.target), settle := RollReset(p.cfg, p.target, p.cost, p.reqs))
      else s.(settle := Idle)
    case PublishWindow => s.(config := p.cfg.(refreshedAt := p.target), settle := RollPublished(p.cost, p.reqs))
    case TakeCost =>
      s.(windowCost := s.windowCost - p.cost, closedCost := s.closedCost + p.cost, settle := RollCostTaken(p.reqs))
    case TakeReqs =>
      s.(windowReqs := s.windowReqs - p.reqs, closedReqs := s.closedReqs + p.reqs, settle := RollTaken)
    case ClearCost => s.(lastFlushed := 0, settle := RollHalfCleared)
    case ClearReqs => s.(lastReqs := 0, settle := Idle)
    case Crash(cfg) => Restarted(s, cfg)
  }

  /** What rolls have closed in the database, whether or not the counters know. */
  function ClosedInDb(s: State): (int, int) {
    match s.settle
    case RollReset(_, _, cost, reqs) => (s.closedCost + cost, s.closedReqs + reqs)
    case RollPublished(cost, reqs) => (s.closedCost + cost, s.closedReqs + reqs)
    case RollCostTaken(reqs) => (s.closedCost, s.closedReqs + reqs)
    case _ => (s.closedCost, s.closedReqs)
  }

  function Restarted(s: State, cfg: Config): State {
    var (cost, reqs) := ClosedInDb(s);
    State(cfg, s.row.cost, s.row.reqs, s.row.cost, s.row.reqs, s.row, Idle, 0, 0,
          s.spent, s.served, cost, reqs, s.spent - cost - s.row.cost, s.served - reqs - s.row.reqs, multiset{})
  }

  /** A run: where it starts, then one event after another. */
  datatype Run = Start(origin: State) | Then(prefix: Run, event: Event)

  /** The state a run leads to, if each of its events is enabled where it happens. */
  ghost function End(run: Run): Option<State> {
    match run
    case Start(s) => Some(s)
    case Then(prefix, e) =>
      match End(prefix)
      case None => None
      case Some(s) => if Enabled(s, e) then Some(Step(s, e)) else None
  }

  function Origin(run: Run): State {
    match run
    case Start(s) => s
    case Then(prefix, _) => Origin(prefix)
  }

  /** Just after a budget is first cached: both counters and both flush marks
      carry the row's totals. */
  function Seeded(row: Row, config: Config): State {
    State(config, row.cost, row.reqs, row.cost, row.reqs, row, Idle, 0, 0, row.cost, row.reqs, 0, 0, 0, 0, multiset{})
  }

  /** Marks, row, loaded value and counter stay ordered until the row is reset. */
  predicate Ordered(mark: int, row: int, loaded: int, counter: int) {
    0 <= mark <= row <= loaded <= counter
  }

  predicate PhaseInv(s: State) {
    match s.settle
    case Idle => Ordered(s.lastFlushed, s.row.cost, s.row.cost, s.windowCost)
              && Ordered(s.lastReqs, s.row.reqs, s.row.reqs, s.windowReqs)
    case RollDue(_, _) => Ordered(s.lastFlushed, s.row.cost, s.row.cost, s.windowCost)
              && Ordered(s.lastReqs, s.row.reqs, s.row.reqs, s.windowReqs)
    case FlushCostLoaded(cost) => Ordered(s.lastFlushed, s.row.cost, cost, s.windowCost)
              && Ordered(s.lastReqs, s.row.reqs, s.row.reqs, s.windowReqs)
    case RollCostLoaded(_, _, cost) => Ordered(s.lastFlushed, s.row.cost, cost, s.windowCost)
              && Ordered(s.lastReqs, s.row.reqs, s.row.reqs, s.windowReqs)
    case FlushLoaded(cost, reqs) => Ordered(s.lastFlushed, s.row.cost, cost, s.windowCost)
              && Ordered(s.lastReqs, s.row.reqs, reqs, s.windowReqs)
    case RollLoaded(_, _, cost, reqs) => Ordered(s.lastFlushed, s.row.cost, cost, s.windowCost)
              && Ordered(s.lastReqs, s.row.reqs, reqs, s.windowReqs)
    case FlushWritten(cost, reqs) => Ordered(s.lastFlushed, s.row.cost, cost, s.windowCost)
              && Ordered(s.lastReqs, s.row.reqs, reqs, s.windowReqs) && s.row.cost == cost && s.row.reqs == reqs
    case FlushHalfNoted(cost, reqs) => Ordered(s.lastFlushed, s.row.cost, cost, s.windowCost)
              && Ordered(s.lastReqs, s.row.reqs, reqs, s.windowReqs) && s.row.cost == cost && s.row.reqs == reqs
    case RollClosed(_, _, cost, reqs) => Ordered(s.lastFlushed, s.row.cost, cost, s.windowCost)
              && Ordered(s.lastReqs, s.row.reqs, reqs, s.windowReqs) && s.row.cost == cost && s.row.reqs == reqs
    case RollReset(_, _, cost, reqs) => RowIsZero(s) && 0 <= cost <= s.windowCost && 0 <= reqs <= s.windowReqs
    case RollPublished(cost, reqs) => RowIsZero(s) && 0 <= cost <= s.windowCost && 0 <= reqs <= s.windowReqs
    case RollCostTaken(reqs) => RowIsZero(s) && 0 <= s.windowCost && 0 <= reqs <= s.windowReqs
    case RollTaken => RowIsZero(s) && 0 <= s.windowCost && 0 <= s.windowReqs
    case RollHalfCleared => RowIsZero(s) && 0 <= s.windowCost && 0 <= s.windowReqs && s.lastFlushed == 0
  }

  predicate RowIsZero(s: State) {
    s.row.cost == 0 && s.row.reqs == 0
  }

  /** The protocol's invariant: nothing recorded disappears from the books. */
  predicate Inv(s: State) {
    && s.spent == s.windowCost + s.closedCost + s.lostCost
    && s.served == s.windowReqs + s.closedReqs + s.lostReqs
    && 0 <= s.closedCost && 0 <= s.closedReqs
    && PhaseInv(s)
  }

  predicate IsRoll(e: Event) {
    e.FindDue? || e.LoadRollCost? || e.LoadRollReqs? || e.CloseWindow? || e.ResetRow? || e.PublishWindow?
    || e.TakeCost? || e.TakeReqs? || e.ClearCost? || e.ClearReqs?
  }

  lemma RollStepKeepsInv(s: State, e: Event)
    requires Inv(s) && Enabled(s, e) && IsRoll(e)
    ensures Inv(Step(s, e))
  {
  }

  lemma FlushStepKeepsInv(s: State, e: Event)
    requires Inv(s) && Enabled(s, e) && IsSettle(e) && !IsRoll(e)
    ensures Inv(Step(s, e))
  {
  }

  lemma SpendKeepsInv(s: State, spend: nat)
    requires Inv(s) && Enabled(s, AddCost(spend))
    ensures Inv(Step(s, AddCost(spend)))
  {
  }

  lemma CountKeepsInv(s: State)
    requires Inv(s) && Enabled(s, AddReq)
    ensures Inv(Step(s, AddReq))
  {
  }

  lemma QuietKeepsInv(s: State, e: Event)
    requires Inv(s) && Enabled(s, e) && (e.LoadLimit? || e.Admit? || e.Refuse? || e.Abandon? || e.Publish?)
    ensures Inv(Step(s, e))
  {
  }

  /** Requests and publications, at whatever point of a tick. */
  lemma OutsideStepKeepsInv(s: State, e: Event)
    requires Inv(s) && Enabled(s, e) && !IsSettle(e) && !e.Crash?
    ensures Inv(Step(s, e))
  {
    match e
    case AddCost(spend) => SpendKeepsInv(s, spend);
    case AddReq => CountKeepsInv(s);
    case _ => QuietKeepsInv(s, e);
  }

  lemma CrashKeepsInv(s: State, cfg: Config)
    requires Inv(s) && Enabled(s, Crash(cfg))
    ensures Inv(Step(s, Crash(cfg)))
    ensures Step(s, Crash(cfg)).lostCost >= s.lostCost && Step(s, Crash(cfg)).lostReqs >= s.lostReqs
  {
  }

  lemma StepKeepsInv(s: State, e: Event)
    requires Inv(s) && Enabled(s, e)
    ensures Inv(Step(s, e))
    ensures Step(s, e).lostCost >= s.lostCost && Step(s, e).lostReqs >= s.lostReqs
    ensures !e.Crash? ==> Step(s, e).lostCost == s.lostCost && Step(s, e).lostReqs == s.lostReqs
  {
    if IsRoll(e) { RollStepKeepsInv(s, e); }
    else if e.Crash? { CrashKeepsInv(s, e.config); }
    else if IsSettle(e) { FlushStepKeepsInv(s, e); }
    else { OutsideStepKeepsInv(s, e); }
  }

  predicate CrashFree(run: Run) {
    run.Then? ==> !run.event.Crash? && CrashFree(run.prefix)
  }

  lemma {:induction false} RunKeepsInv(run: Run)
    requires Inv(Origin(run)) && End(run).Some?
    ensures Inv(End(run).value)
    ensures End(run).value.lostCost >= Origin(run).lostCost && End(run).value.lostReqs >= Origin(run).lostReqs
    ensures CrashFree(run) ==> End(run).value.lostCost == Origin(run).lostCost
                               && End(run).value.lostReqs == Origin(run).lostReqs
  {
    if run.Then? {
      RunKeepsInv(run.prefix);
      StepKeepsInv(End(run.prefix).value, run.event);
    }
  }

  /** What the requests of a run recorded, read off its events alone. */
  function Recorded(run: Run): (totals: (nat, nat)) {
    match run
    case Start(_) => (0, 0)
    case Then(prefix, AddCost(c)) => (Recorded(prefix).0 + c, Recorded(prefix).1)
    case Then(prefix, AddReq) => (Recorded(prefix).0, Recorded(prefix).1 + 1)
    case Then(prefix, _) => Recorded(prefix)
  }

  lemma {:induction false} BooksCountTheRun(run: Run)
    requires End(run).Some?
    ensures End(run).value.spent == Origin(run).spent + Recorded(run).0
    ensures End(run).value.served == Origin(run).served + Recorded(run).1
  {
    if run.Then? {
      BooksCountTheRun(run.prefix);
      StepRecords(End(run.prefix).value, run.event);
    }
  }

  lemma StepRecords(s: State, e: Event)
    requires Enabled(s, e)
    ensures Step(s, e).spent == s.spent + if e.AddCost? then e.spend else 0
    ensures Step(s, e).served == s.served + if e.AddReq? then 1 else 0
  {}

  /** Spend conservation, in every interleaving and with any writes failing: the
      seed plus everything recorded is the window counter plus what rolls closed,
      plus what crashes lost - nothing, in a run without a crash. Neither counter
      ever goes negative. */
  lemma SpendIsConserved(run: Run, row: Row, config: Config)
    requires row.cost >= 0 && row.reqs >= 0 && Origin(run) == Seeded(row, config) && End(run).Some?
    ensures var t := End(run).value; var (cost, reqs) := Recorded(run);
            && row.cost + cost == t.windowCost + t.closedCost + t.lostCost
            && row.reqs + reqs == t.windowReqs + t.closedReqs + t.lostReqs
            && t.windowCost >= 0 && t.windowReqs >= 0 && t.lostCost >= 0 && t.lostReqs >= 0
            && (CrashFree(run) ==> t.lostCost == 0 && t.lostReqs == 0)
  {
    RunKeepsInv(run);
    BooksCountTheRun(run);
  }

  /** A flush is skipped only when the row already holds both loaded totals. */
  lemma SkipOnlyWhenRowIsExact(s: State)
    requires Inv(s) && Enabled(s, SkipFlush)
    ensures s.row.cost == s.settle.cost && s.row.reqs == s.settle.reqs
  {
  }

  /** A crash at any step: the reseeded counters are the row, the books still
      balance, no spend or request is counted twice, and the cost lost is what the
      database had not seen - between ticks at most what was never flushed. */
  lemma CrashLosesOnlyUnflushedSpend(s: State, cfg: Config)
    requires Inv(s) && Enabled(s, Crash(cfg))
    ensures var t := Step(s, Crash(cfg)); var (closed, closedReqs) := ClosedInDb(s);
            && Inv(t) && t.windowCost == s.row.cost && t.windowReqs == s.row.reqs
            && closed + s.row.cost + t.lostCost == s.spent
            && closedReqs + s.row.reqs + t.lostReqs == s.served
            && 0 <= t.lostCost - s.lostCost <= s.windowCost - s.row.cost
            && 0 <= t.lostReqs - s.lostReqs <= s.windowReqs - s.row.reqs
            && (s.settle.Idle? ==>
                  && t.lostCost - s.lostCost == s.windowCost - s.row.cost <= s.windowCost - s.lastFlushed
                  && t.lostReqs - s.lostReqs == s.windowReqs - s.row.reqs <= s.windowReqs - s.lastReqs)
  {
    StepKeepsInv(s, Crash(cfg));
  }

  // ---- The overspend bound.

  /** Fixed positive limit, enforced, also in a configuration a roll holds on to. */
  predicate SameLimit(cfg: Config, limit: int) {
    cfg.limit == limit && cfg.enforce != Some(false)
  }

  predicate HeldLimit(p: Settle, limit: int) {
    (p.RollDue? || p.RollCostLoaded? || p.RollLoaded? || p.RollClosed? || p.RollReset?) ==> SameLimit(p.cfg, limit)
  }

  /** The environment of the bound: at most `k` requests between admission and
      settlement, each costing at most `c`, and the limit never changed. */
  predicate Within(s: State, e: Event, limit: int, k: nat, c: nat) {
    match e
    case Admit(_) => s.inFlight < k
    case AddCost(spend) => spend <= c
    case Publish(cfg) => SameLimit(cfg, limit)
    case Crash(cfg) => SameLimit(cfg, limit)
    case _ => true
  }

  ghost predicate RunWithin(run: Run, limit: int, k: nat, c: nat) {
    run.Then? ==>
      && RunWithin(run.prefix, limit, k, c)
      && (End(run.prefix).Some? ==> Within(End(run.prefix).value, run.event, limit, k, c))
  }

  predicate Bounded(s: State, limit: int, k: nat, c: nat) {
    && SameLimit(s.config, limit) && HeldLimit(s.settle, limit) && limit > 0
    && (forall held :: held in s.checking ==> SameLimit(held, limit))
    && s.inFlight <= k
    && s.windowCost + s.inFlight * c <= limit - 1 + k * c
  }

  lemma AdmitKeepsBound(s: State, held: Config, limit: int, k: nat, c: nat)
    requires Bounded(s, limit, k, c) && Enabled(s, Admit(held)) && s.inFlight < k
    ensures Bounded(Step(s, Admit(held)), limit, k, c)
  {
    assert SameLimit(held, limit);
    TimesGrows(s.inFlight + 1, k, c);
  }

  lemma SettleKeepsBound(s: State, e: Event, limit: int, k: nat, c: nat)
    requires Bounded(s, limit, k, c) && Enabled(s, e) && (e.Abandon? || (e.AddCost? && e.spend <= c))
    ensures Bounded(Step(s, e), limit, k, c)
  {
    assert s.inFlight * c == (s.inFlight - 1) * c + c;
  }

  lemma CrashKeepsBound(s: State, cfg: Config, limit: int, k: nat, c: nat)
    requires Inv(s) && Bounded(s, limit, k, c) && Enabled(s, Crash(cfg)) && SameLimit(cfg, limit)
    ensures Bounded(Step(s, Crash(cfg)), limit, k, c)
  {
    CrashKeepsInv(s, cfg);
    assert s.inFlight * c >= 0;
  }

  lemma StepKeepsBound(s: State, e: Event, limit: int, k: nat, c: nat)
    requires Inv(s) && Bounded(s, limit, k, c) && Enabled(s, e) && Within(s, e, limit, k, c)
    ensures Bounded(Step(s, e), limit, k, c)
  {
    match e
    case Admit(held) => AdmitKeepsBound(s, held, limit, k, c);
    case Abandon => SettleKeepsBound(s, e, limit, k, c);
    case AddCost(_) => SettleKeepsBound(s, e, limit, k, c);
    case Crash(cfg) => CrashKeepsBound(s, cfg, limit, k, c);
    case _ =>
  }

  /** The overspend bound, in every run and across rolls and crashes. */
  lemma {:induction false} OverspendIsBounded(run: Run, limit: int, k: nat, c: nat)
    requires Inv(Origin(run)) && Bounded(Origin(run), limit, k, c)
    requires End(run).Some? && RunWithin(run, limit, k, c)
    ensures Bounded(End(run).value, limit, k, c)
    ensures End(run).value.windowCost <= limit - 1 + k * c
  {
    if run.Then? {
      OverspendIsBounded(run.prefix, limit, k, c);
      RunKeepsInv(run.prefix);
      StepKeepsBound(End(run.prefix).value, run.event, limit, k, c);
    }
    BoundedCost(End(run).value, limit, k, c);
  }

  lemma BoundedCost(s: State, limit: int, k: nat, c: nat)
    requires Bounded(s, limit, k, c)
    ensures s.windowCost <= limit - 1 + k * c
  {
    assert s.inFlight * c >= 0;
  }

  function AlmostSpent(limit: int): State {
    Seeded(Row(limit - 1, 0, 0), Config(limit, None, 0, 0))
  }

  /** `admits` requests admitted one nano-dollar below the limit, then `adds` of
      them recording the cost `c`. */
  function Burst(limit: int, admits: nat, adds: nat, c: nat): Run {
    if adds > 0 then Then(Burst(limit, admits, adds - 1, c), AddCost(c))
    else if admits > 0 then Then(Then(Burst(limit, admits - 1, 0, c), LoadLimit), Admit(AlmostSpent(limit).config))
    else Start(AlmostSpent(limit))
  }

  function BurstState(limit: int, admits: nat, adds: nat, c: nat): State
    requires adds <= admits
  {
    var spent := limit - 1 + adds * c;
    AlmostSpent(limit).(inFlight := admits - adds, halfway := adds, windowCost := spent, spent := spent)
  }

  lemma AdmitOne(run: Run, s: State) returns (loaded: Run, t: State)
    requires End(run) == Some(s) && s.checking == multiset{} && Admits(s.config, s.windowCost)
    ensures loaded == Then(run, LoadLimit) && End(loaded) == Some(t) && t.inFlight == s.inFlight
    ensures End(Then(loaded, Admit(s.config))) == Some(s.(inFlight := s.inFlight + 1))
  {
    loaded, t := More(run, s, LoadLimit);
    assert t.checking == multiset{s.config};
    var admitted, u := More(loaded, t, Admit(s.config));
    assert u.checking == multiset{};
  }

  lemma BurstSpends(limit: int, admits: nat, adds: nat, c: nat)
    requires 0 < adds <= admits
    ensures Enabled(BurstState(limit, admits, adds - 1, c), AddCost(c))
    ensures Step(BurstState(limit, admits, adds - 1, c), AddCost(c)) == BurstState(limit, admits, adds, c)
  {
    assert adds * c == (adds - 1) * c + c;
  }

  lemma BurstAdmits(limit: int, admits: nat, c: nat)
    requires 0 < admits && limit > 0
    ensures var s := BurstState(limit, admits - 1, 0, c);
            && s.checking == multiset{} && Admits(s.config, s.windowCost) && s.config == AlmostSpent(limit).config
            && s.(inFlight := s.inFlight + 1) == BurstState(limit, admits, 0, c)
  {
    assert 0 * c == 0;
  }

  lemma {:induction false} BurstRuns(limit: int, admits: nat, adds: nat, c: nat)
    requires limit > 0 && adds <= admits
    ensures Origin(Burst(limit, admits, adds, c)) == AlmostSpent(limit)
    ensures End(Burst(limit, admits, adds, c)) == Some(BurstState(limit, admits, adds, c))
    decreases adds, admits
  {
    if adds > 0 {
      BurstRuns(limit, admits, adds - 1, c);
      BurstSpends(limit, admits, adds, c);
    } else if admits > 0 {
      BurstRuns(limit, admits - 1, 0, c);
      BurstAdmits(limit, admits, c);
      var loaded, t := AdmitOne(Burst(limit, admits - 1, 0, c), BurstState(limit, admits - 1, 0, c));
    } else {
      assert 0 * c == 0;
    }
  }

  lemma {:induction false} BurstStaysWithin(limit: int, k: nat, c: nat, admits: nat, adds: nat)
    requires limit > 0 && adds <= admits <= k
    ensures RunWithin(Burst(limit, admits, adds, c), limit, k, c)
    decreases adds, admits
  {
    if adds > 0 {
      BurstStaysWithin(limit, k, c, admits, adds - 1);
      BurstRuns(limit, admits, adds - 1, c);
      WithinMore(Burst(limit, admits, adds - 1, c), BurstState(limit, admits, adds - 1, c), AddCost(c), limit, k, c);
    } else if admits > 0 {
      BurstStaysWithin(limit, k, c, admits - 1, 0);
      BurstRuns(limit, admits - 1, 0, c);
      BurstAdmits(limit, admits, c);
      var before, s := Burst(limit, admits - 1, 0, c), BurstState(limit, admits - 1, 0, c);
      var loaded, t := AdmitOne(before, s);
      WithinMore(before, s, LoadLimit, limit, k, c);
      WithinMore(loaded, t, Admit(s.config), limit, k, c);
    }
  }

  lemma WithinMore(run: Run, s: State, e: Event, limit: int, k: nat, c: nat)
    requires End(run) == Some(s) && RunWithin(run, limit, k, c) && Within(s, e, limit, k, c)
    ensures RunWithin(Then(run, e), limit, k, c)
  {}

  /** The bound cannot be tightened: for any limit, concurrency and request cost
      some run within the environment spends up to it. */
  lemma OverspendBoundIsReached(limit: int, k: nat, c: nat)
    requires limit > 0
    ensures var run := Burst(limit, k, k, c);
            && Inv(Origin(run)) && Bounded(Origin(run), limit, k, c) && RunWithin(run, limit, k, c)
            && End(run).Some? && End(run).value.windowCost == limit - 1 + k * c
  {
    assert k * c >= 0;
    BurstRuns(limit, k, k, c);
    BurstStaysWithin(limit, k, c, k, k);
  }

  // ---- The window start.

  /** The configuration a roll works from, up to the reset of the row. */
  predicate Rolling(p: Settle) {
    p.RollDue? || p.RollCostLoaded? || p.RollLoaded? || p.RollClosed?
  }

  /** Cached configuration and row name the same window, save between the two
      writes of a roll; `due` is when the roll under way found its window over. */
  predicate WindowAgrees(s: State, duration: int, due: int) {
    && (s.settle.RollReset? ==> s.row.refreshedAt == s.settle.target && s.settle.cfg.duration == duration)
    && (!s.settle.RollReset? ==> s.config.refreshedAt == s.row.refreshedAt)
    && s.config.duration == duration
    && (Rolling(s.settle) ==>
          && s.settle.cfg.refreshedAt == s.row.refreshedAt && s.settle.cfg.duration == duration
          && s.settle.target == Rolled(s.row.refreshedAt, duration, due))
  }

  /** Every publication carries the row's current window start and the duration. */
  ghost predicate FreshRun(run: Run, duration: int) {
    run.Then? ==>
      && FreshRun(run.prefix, duration)
      && (run.event.Publish? || run.event.Crash? ==> run.event.config.duration == duration)
      && (run.event.Publish? && End(run.prefix).Some? ==>
            run.event.config.refreshedAt == End(run.prefix).value.row.refreshedAt)
  }

  function LastDue(run: Run): int {
    match run
    case Start(_) => 0
    case Then(_, FindDue(now)) => now
    case Then(prefix, _) => LastDue(prefix)
  }

  /** The rolls of a run that went through, each at the time it was found due. */
  function Rolls(run: Run): seq<Tick> {
    match run
    case Start(_) => []
    case Then(prefix, ResetRow(true)) => Rolls(prefix) + [Tick(LastDue(prefix), true)]
    case Then(prefix, _) => Rolls(prefix)
  }

  lemma FreshStepKeepsWindow(s: State, e: Event, duration: int, due: int)
    requires WindowAgrees(s, duration, due) && Enabled(s, e)
    requires e.Publish? ==> e.config.refreshedAt == s.row.refreshedAt
    requires e.Publish? || e.Crash? ==> e.config.duration == duration
    ensures WindowAgrees(Step(s, e), duration, if e.FindDue? then e.now else due)
    ensures Step(s, e).row.refreshedAt
            == if e == ResetRow(true) then Rolled(s.row.refreshedAt, duration, due) else s.row.refreshedAt
  {
  }

  /** While no stale configuration is published, the row's window start is the fold
      of the completed rolls. */
  lemma {:induction false} RowHoldsTheFoldedWindow(run: Run, duration: int)
    requires End(run).Some? && WindowAgrees(Origin(run), duration, 0) && Origin(run).settle.Idle?
    requires FreshRun(run, duration)
    ensures WindowAgrees(End(run).value, duration, LastDue(run))
    ensures End(run).value.row.refreshedAt == WindowAfter(Origin(run).row.refreshedAt, duration, Rolls(run))
  {
    if run.Then? {
      var prefix, s, e := run.prefix, End(run.prefix).value, run.event;
      RowHoldsTheFoldedWindow(prefix, duration);
      FreshStepKeepsWindow(s, e, duration, LastDue(prefix));
      RollsGrow(prefix, e, Origin(run).row.refreshedAt, duration);
    }
  }

  lemma RollsGrow(prefix: Run, e: Event, start: int, duration: int)
    ensures WindowAfter(start, duration, Rolls(Then(prefix, e)))
            == if e == ResetRow(true)
              then Rolled(WindowAfter(start, duration, Rolls(prefix)), duration, LastDue(prefix))
               else WindowAfter(start, duration, Rolls(prefix))
    ensures LastDue(Then(prefix, e)) == if e.FindDue? then e.now else LastDue(prefix)
  {
    if e == ResetRow(true) {
      var rolls := Rolls(Then(prefix, e));
      assert rolls[..|rolls| - 1] == Rolls(prefix);
    }
  }

  /** So, with the rolls' times in order, it is one roll at the last of them. */
  lemma RowHoldsTheLastWindow(run: Run, duration: int)
    requires End(run).Some? && WindowAgrees(Origin(run), duration, 0) && Origin(run).settle.Idle?
    requires FreshRun(run, duration) && Rolls(run) != [] && InOrder(Rolls(run))
    ensures var rolls := Rolls(run);
            End(run).value.row.refreshedAt == Rolled(Origin(run).row.refreshedAt, duration, rolls[|rolls| - 1].now)
  {
    RowHoldsTheFoldedWindow(run, duration);
    CompletedRollsAreOk(run);
    RollsArePathIndependent(Origin(run).row.refreshedAt, duration, Rolls(run));
  }

  lemma CompletedRollsAreOk(run: Run)
    ensures forall i :: 0 <= i < |Rolls(run)| ==> Rolls(run)[i].ok
  {
  }

  // ---- The settle goroutine running alone.

  function Flush(run: Run, s: State): Run {
    var loaded := Then(Then(run, LoadFlushCost), LoadFlushReqs);
    if s.windowCost == s.lastFlushed && s.windowReqs == s.lastReqs then Then(loaded, SkipFlush)
    else Then(Then(Then(loaded, WriteTotals(true)), NoteCost), NoteReqs)
  }

  function RollRow(run: Run, now: int): Run {
    Then(Then(Then(Then(Then(run, FindDue(now)), LoadRollCost), LoadRollReqs), CloseWindow(true)), ResetRow(true))
  }

  function Roll(run: Run, now: int): Run {
    Then(Then(Then(Then(Then(RollRow(run, now), PublishWindow), TakeCost), TakeReqs), ClearCost), ClearReqs)
  }

  function SettleTick(run: Run, s: State, now: int): Run {
    if ResetTarget(s.config, now).Some? then Roll(Flush(run, s), now) else Flush(run, s)
  }

  /** One more event at the end of a run. */
  lemma More(run: Run, s: State, e: Event) returns (longer: Run, t: State)
    requires End(run) == Some(s) && Enabled(s, e)
    ensures longer == Then(run, e) && t == Step(s, e) && End(longer) == Some(t)
  {
    longer, t := Then(run, e), Step(s, e);
  }

  lemma RollResetsRow(run: Run, s: State, now: int)
    requires End(run) == Some(s) && s.settle.Idle? && ResetTarget(s.config, now).Some?
    ensures var target := ResetTarget(s.config, now).value;
            End(RollRow(run, now)) == Some(
              s.(row := Row(0, 0, target), settle := RollReset(s.config, target, s.windowCost, s.windowReqs)))
  {
    var r, t := More(run, s, FindDue(now));
    r, t := More(r, t, LoadRollCost);
    r, t := More(r, t, LoadRollReqs);
    r, t := More(r, t, CloseWindow(true));
    r, t := More(r, t, ResetRow(true));
  }

  function RolledState(s: State, target: int): State {
    s.(row := Row(0, 0, target), config := s.config.(refreshedAt := target),
       windowCost := 0, windowReqs := 0, lastFlushed := 0, lastReqs := 0,
       closedCost := s.closedCost + s.windowCost, closedReqs := s.closedReqs + s.windowReqs)
  }

  lemma RollRuns(run: Run, s: State, now: int)
    requires End(run) == Some(s) && s.settle.Idle? && ResetTarget(s.config, now).Some?
    ensures End(Roll(run, now)) == Some(RolledState(s, ResetTarget(s.config, now).value))
  {
    RollResetsRow(run, s, now);
    RollEmptiesCounters(RollRow(run, now), End(RollRow(run, now)).value);
  }

  lemma RollEmptiesCounters(run: Run, s: State)
    requires End(run) == Some(s) && s.settle.RollReset? && s.settle.cost == s.windowCost
        && s.settle.reqs == s.windowReqs
    ensures End(Then(Then(Then(Then(Then(run, PublishWindow), TakeCost), TakeReqs), ClearCost), ClearReqs)) ==
      Some(s.(config := s.settle.cfg.(refreshedAt := s.settle.target), settle := Idle,
              windowCost := 0, windowReqs := 0, lastFlushed := 0, lastReqs := 0,
              closedCost := s.closedCost + s.windowCost, closedReqs := s.closedReqs + s.windowReqs))
  {
    var r, t := More(run, s, PublishWindow);
    r, t := More(r, t, TakeCost);
    r, t := More(r, t, TakeReqs);
    r, t := More(r, t, ClearCost);
    r, t := More(r, t, ClearReqs);
  }

  lemma FlushRuns(run: Run, s: State)
    requires End(run) == Some(s) && Inv(s) && s.settle.Idle?
    ensures End(Flush(run, s)) == Some(s.(row := s.row.(cost := s.windowCost, reqs := s.windowReqs),
                                          lastFlushed := s.windowCost, lastReqs := s.windowReqs))
  {
    var r, t := More(run, s, LoadFlushCost);
    r, t := More(r, t, LoadFlushReqs);
    if !(s.windowCost == s.lastFlushed && s.windowReqs == s.lastReqs) {
      r, t := More(r, t, WriteTotals(true));
      r, t := More(r, t, NoteCost);
      r, t := More(r, t, NoteReqs);
    }
  }

  /** A last settle tick with no request running and every write succeeding leaves
      both stored totals equal to the counters, whether or not it rolls. */
  lemma FinalTickStoresEverything(run: Run, s: State, now: int)
    requires End(run) == Some(s) && Inv(s) && s.settle.Idle?
    ensures var end := End(SettleTick(run, s, now));
            && end.Some? && Inv(end.value) && end.value.settle.Idle? && end.value.spent == s.spent
            && end.value.row.cost == end.value.windowCost && end.value.row.reqs == end.value.windowReqs
            && (ResetTarget(s.config, now).None? ==> end.value.windowCost == s.windowCost)
  {
    FlushRuns(run, s);
    if ResetTarget(s.config, now).Some? {
      RollRuns(Flush(run, s), End(Flush(run, s)).value, now);
    }
  }

  // ---- Rolls that repeat a window.

  /** What the settle goroutine found when it last found a roll due. */
  datatype Found = Found(cfg: Config, rowStart: int, now: int)

  ghost function LastFound(run: Run): Option<Found> {
    match run
    case Start(_) => None
    case Then(prefix, FindDue(now)) =>
      if End(prefix).None? then None
      else Some(Found(End(prefix).value.config, End(prefix).value.row.refreshedAt, now))
    case Then(prefix, _) => LastFound(prefix)
  }

  predicate RollsTowards(s: State, f: Found) {
    s.settle.RollDue? || s.settle.RollCostLoaded? || s.settle.RollLoaded? || s.settle.RollClosed? ==>
      s.row.refreshedAt == f.rowStart && ResetTarget(f.cfg, f.now) == Some(s.settle.target)
  }

  predicate BeforeReset(s: State) {
    s.settle.RollDue? || s.settle.RollCostLoaded? || s.settle.RollLoaded? || s.settle.RollClosed?
  }

  /** Up to the reset of the row a roll keeps to what it found. */
  lemma {:induction false} RollKeepsToWhatItFound(run: Run)
    requires End(run).Some? && Origin(run).settle.Idle?
    ensures BeforeReset(End(run).value) ==> LastFound(run).Some? && RollsTowards(End(run).value, LastFound(run).value)
  {
    if run.Then? {
      RollKeepsToWhatItFound(run.prefix);
      StepKeepsToWhatItFound(End(run.prefix).value, run.event, LastFound(run.prefix));
    }
  }

  lemma StepKeepsToWhatItFound(s: State, e: Event, found: Option<Found>)
    requires BeforeReset(s) ==> found.Some? && RollsTowards(s, found.value)
    requires Enabled(s, e)
    ensures var now := if e.FindDue? then Some(Found(s.config, s.row.refreshedAt, e.now)) else found;
            BeforeReset(Step(s, e)) ==> now.Some? && RollsTowards(Step(s, e), now.value)
  {}

  /** Every completed roll moves the row to a later window. */
  ghost predicate AlwaysAdvances(run: Run)
    requires End(run).Some?
  {
    run.Then? ==>
      && AlwaysAdvances(run.prefix)
      && (run.event == ResetRow(true) ==> End(run.prefix).value.row.refreshedAt < End(run).value.row.refreshedAt)
  }

  /** No completed roll set out from a configuration whose window, the one with the
      row's start in it, was still running. */
  ghost predicate NoRollRepeats(run: Run) {
    run.Then? ==>
      && NoRollRepeats(run.prefix)
      && (run.event == ResetRow(true) && LastFound(run).Some? ==>
            var f := LastFound(run).value; !Repeats(f.cfg, f.rowStart, f.now))
  }

  /** Rolls close only windows that are over exactly when none of them repeats one. */
  lemma {:induction false} RollsAdvanceExactly(run: Run)
    requires End(run).Some? && Origin(run).settle.Idle?
    ensures AlwaysAdvances(run) <==> NoRollRepeats(run)
  {
    if run.Then? {
      RollsAdvanceExactly(run.prefix);
      if run.event == ResetRow(true) {
        RollKeepsToWhatItFound(run.prefix);
        var f := LastFound(run.prefix).value;
        TargetRepeatsExactly(f.cfg, f.rowStart, f.now);
      }
    }
  }

  /** A configuration read before a roll and published after it is such a one: one
      settle tick later the window that has just begun is closed, and its spend is
      taken out of the counter at once. */
  lemma StalePublishRollsTwice(s: State, spend: nat, now: int)
    requires Inv(s) && s.settle.Idle? && s.inFlight > 0 && ResetTarget(s.config, now).Some?
    ensures var once := Then(Then(Roll(Start(s), now), AddCost(spend)), Publish(s.config));
            var twice := Roll(once, now);
            && End(once).Some? && End(once).value.windowCost == spend
            && End(twice).Some? && End(twice).value.windowCost == 0
            && End(twice).value.closedCost == s.closedCost + s.windowCost + spend
            && End(twice).value.row.refreshedAt == End(once).value.row.refreshedAt
            && Repeats(s.config, End(once).value.row.refreshedAt, now)
  {
    TargetRepeatsExactly(s.config, ResetTarget(s.config, now).value, now);
    RollRuns(Start(s), s, now);
    var r, t := More(Roll(Start(s), now), RolledState(s, ResetTarget(s.config, now).value), AddCost(spend));
    var once, _ := More(r, t, Publish(s.config));
    RollRuns(once, End(once).value, now);
  }
}
