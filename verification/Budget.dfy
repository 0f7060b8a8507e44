/** The budget object itself: its atomics, its database row, and the goroutines
    that work on them (internal/governance/budget.go, governance.go). Each atomic
    operation and each write is logged as one event of the spend protocol, so what
    holds of every run of the protocol holds of every state of the object. */
module GovernedBudget {
  import opened Wrappers
  import opened BudgetWindow
  import opened SpendProtocol

  /** The events of the settle goroutine, in program order. */
  function SettleTrace(run: Run): seq<Event> {
    match run
    case Start(_) => []
    case Then(prefix, e) => SettleTrace(prefix) + if IsSettle(e) then [e] else []
  }

  const FLUSH_LOADS := [LoadFlushCost, LoadFlushReqs]
  const STORED := [WriteTotals(true), NoteCost, NoteReqs]

  const FLUSH_SKIPPED := FLUSH_LOADS + [SkipFlush]
  const FLUSH_FAILED := FLUSH_LOADS + [WriteTotals(false)]
  const FLUSH_DONE := FLUSH_LOADS + STORED

  /** What one pass over an overdue window does: everything, or up to the write
      that failed. */
  function RollDone(now: int): seq<Event> { [FindDue(now)] + CLOSED + STARTED }

  function CloseFailed(now: int): seq<Event> { [FindDue(now)] + CLOSE_FAILED }

  function ResetFailed(now: int): seq<Event> { [FindDue(now)] + RESET_FAILED }

  const LOADS := [LoadRollCost, LoadRollReqs]
  const CLOSED := [LoadRollCost, LoadRollReqs, CloseWindow(true), ResetRow(true)]
  const CLOSE_FAILED := [LoadRollCost, LoadRollReqs, CloseWindow(false)]
  const RESET_FAILED := [LoadRollCost, LoadRollReqs, CloseWindow(true), ResetRow(false)]
  const TAKES := [TakeCost, TakeReqs]
  const CLEARS := [ClearCost, ClearReqs]
  const STARTED := [PublishWindow, TakeCost, TakeReqs, ClearCost, ClearReqs]

  function RollTrace(closes: bool, resets: bool): seq<Event> {
    if closes && resets then CLOSED + STARTED else if closes then RESET_FAILED else CLOSE_FAILED
  }

  lemma JoinRoll(before: seq<Event>, now: int, closes: bool, resets: bool)
    ensures before + [Event.FindDue(now)] + RollTrace(closes, resets) == before +
      if closes && resets then RollDone(now) else if closes then ResetFailed(now) else CloseFailed(now)
  {
    Joined(before, [Event.FindDue(now)], RollTrace(closes, resets));
    Joined([Event.FindDue(now)], CLOSED, STARTED);
  }

  /** The target is the start of a later window, the one `now` is in. */
  lemma TargetIsLater(cfg: Config, now: int)
    requires ResetTarget(cfg, now).Some?
    ensures var target := ResetTarget(cfg, now).value;
            && target <= now < target + cfg.duration
            && exists k: nat :: k >= 1 && target == cfg.refreshedAt + k * cfg.duration
  {
    var k := (now - cfg.refreshedAt) / cfg.duration;
    assert k >= 1;
    assert ResetTarget(cfg, now).value == cfg.refreshedAt + k * cfg.duration;
  }

  lemma Joined(a: seq<Event>, b: seq<Event>, c: seq<Event>)
    ensures a + b + c == a + (b + c)
  {}

  ghost predicate Leads(origin: State, run: Run, state: State, trace: seq<Event>) {
    Origin(run) == origin && End(run) == Some(state) && SettleTrace(run) == trace
  }

  class Budget {
    var config: Config
    var windowCost: int
    var windowReqs: int
    var lastFlushed: int
    var lastReqs: int
    var row: Row

    // Request goroutines: the configurations that admission checks hold, requests
    // admitted and not settled, and those halfway through settling.
    var checking: multiset<Config>
    var inFlight: nat
    var halfway: nat

    // The protocol state this object is in, the run that led there from `origin`,
    // and the settle goroutine's share of it.
    ghost const origin: State
    ghost var state: State
    ghost var run: Run
    ghost var trace: seq<Event>

    ghost predicate Valid()
      reads this
    {
      && Inv(origin) && Leads(origin, run, state, trace)
      && state.config == config && state.row == row && state.inFlight == inFlight && state.halfway == halfway
      && state.checking == checking
      && state.windowCost == windowCost && state.windowReqs == windowReqs
      && state.lastFlushed == lastFlushed && state.lastReqs == lastReqs
    }

    /** A budget enters the cache seeded with its row's totals. */
    constructor (row: Row, config: Config)
      requires row.cost >= 0 && row.reqs >= 0
      ensures Valid() && state == Seeded(row, config) && origin == state && trace == []
    {
      this.config, this.row := config, row;
      windowCost, windowReqs, lastFlushed, lastReqs := row.cost, row.reqs, row.cost, row.reqs;
      checking, inFlight, halfway := multiset{}, 0, 0;
      origin, state, run, trace := Seeded(row, config), Seeded(row, config), Start(Seeded(row, config)), [];
    }

    ghost method Log(e: Event)
      requires Leads(origin, run, state, trace) && Enabled(state, e)
      modifies this`state, this`run, this`trace
      ensures Leads(origin, run, state, trace)
      ensures state.spent >= old(state.spent) && state.served >= old(state.served)
      ensures state == Step(old(state), e) && trace == old(trace) + if IsSettle(e) then [e] else []
    {
      state, run, trace := Step(state, e), Then(run, e), trace + if IsSettle(e) then [e] else [];
    }

    /** The admission check: load the configuration, and then, with other goroutines in
        between, the counter. A request that passes is in flight from here on. */
    method Admission() returns (ok: bool)
      requires Valid()
      modifies this
      ensures Valid() && trace == old(trace) && state.settle == old(state.settle)
      ensures ok <==> old(config).limit == 0 || old(config).enforce == Some(false) || windowCost < old(config).limit
      ensures state.spent >= old(state.spent) && state.served >= old(state.served)
    {
      var held := LoadLimit();
      Others(0, multiset{held});
      ok := Decide(held);
    }

    method LoadLimit() returns (held: Config)
      requires Valid()
      modifies this`checking, this`state, this`run, this`trace
      ensures Valid() && held == config && checking == old(checking) + multiset{held}
      ensures state == Step(old(state), Event.LoadLimit) && trace == old(trace)
    {
      held := config;
      checking := checking + multiset{held};
      Log(Event.LoadLimit);
    }

    method Decide(held: Config) returns (ok: bool)
      requires Valid() && held in checking
      modifies this`checking, this`inFlight, this`state, this`run, this`trace
      ensures Valid() && ok == Admits(held, windowCost) && checking == old(checking) - multiset{held}
      ensures state == Step(old(state), if ok then Admit(held) else Refuse(held)) && trace == old(trace)
    {
      ok := held.limit == 0;
      if !ok {
        ok := held.enforce == Some(false) || windowCost < held.limit;
      }
      checking := checking - multiset{held};
      if ok { inFlight := inFlight + 1; }
      Log(if ok then Admit(held) else Refuse(held));
    }

    /** A request that was admitted fails before it uses anything. */
    method GiveUp()
      requires Valid() && inFlight > 0
      modifies this`inFlight, this`state, this`run, this`trace
      ensures Valid() && state == Step(old(state), Abandon) && trace == old(trace)
    {
      inFlight := inFlight - 1;
      Log(Abandon);
    }

    /** A request settles: two atomic adds, other goroutines between them. */
    method RecordUsage(spend: nat)
      requires Valid() && inFlight > 0
      modifies this
      ensures Valid() && trace == old(trace)
      ensures state.spent >= old(state.spent) + spend && state.served >= old(state.served) + 1
    {
      AddCost(spend);
      Others(1, multiset{});
      AddReq();
    }

    /** Any number of steps of the request and publishing goroutines, which leave
        at least `reserved` settlements half done, and the checks `held` undecided. */
    method Others(reserved: nat, held: multiset<Config>)
      requires Valid() && halfway >= reserved && held <= checking
      modifies this
      ensures Valid() && halfway >= reserved && held <= checking
      ensures trace == old(trace) && state.settle == old(state.settle)
      ensures row == old(row) && lastFlushed == old(lastFlushed) && lastReqs == old(lastReqs)
      ensures state.spent >= old(state.spent) && state.served >= old(state.served)
      ensures windowCost >= old(windowCost) && windowReqs >= old(windowReqs)
    {
      var steps: nat := *;
      while steps > 0
        invariant Valid() && halfway >= reserved && held <= checking
        invariant trace == old(trace) && state.settle == old(state.settle)
        invariant row == old(row) && lastFlushed == old(lastFlushed) && lastReqs == old(lastReqs)
        invariant state.spent >= old(state.spent) && state.served >= old(state.served)
        invariant windowCost >= old(windowCost) && windowReqs >= old(windowReqs)
      {
        steps := steps - 1;
        if * {
          Check(held);
        } else {
          Work(reserved);
        }
      }
    }

    /** The other goroutines between two steps of the settle goroutine. */
    method Meanwhile()
      requires Valid()
      modifies this
      ensures Valid() && trace == old(trace) && state.settle == old(state.settle)
      ensures row == old(row) && lastFlushed == old(lastFlushed) && lastReqs == old(lastReqs)
      ensures windowCost >= old(windowCost) && windowReqs >= old(windowReqs)
    {
      Others(0, multiset{});
    }

    /** One step of a check or a publication. */
    method Check(held: multiset<Config>)
      requires Valid() && held <= checking
      modifies this`config, this`checking, this`inFlight, this`state, this`run, this`trace
      ensures Valid() && held <= checking && trace == old(trace) && state.settle == old(state.settle)
      ensures state.spent == old(state.spent) && state.served == old(state.served)
    {
      if * {
        var published: Config := *;
        config := published;
        Log(Publish(published));
      } else if * {
        var _ := LoadLimit();
      } else if checking - held != multiset{} {
        var other: Config :| other in checking - held;
        var _ := Decide(other);
      }
    }

    /** One step of a request in flight. */
    method Work(reserved: nat)
      requires Valid() && halfway >= reserved
      modifies this`windowCost, this`windowReqs, this`inFlight, this`halfway, this`state, this`run, this`trace
      ensures Valid() && halfway >= reserved && trace == old(trace) && state.settle == old(state.settle)
      ensures state.spent >= old(state.spent) && state.served >= old(state.served)
      ensures windowCost >= old(windowCost) && windowReqs >= old(windowReqs)
    {
      if * {
        if inFlight > 0 { GiveUp(); }
      } else if inFlight > 0 {
        var spend: nat :| spend >= 0;
        AddCost(spend);
      } else if halfway > reserved {
        AddReq();
      }
    }

    method AddCost(spend: nat)
      requires Valid() && inFlight > 0
      modifies this`windowCost, this`inFlight, this`halfway, this`state, this`run, this`trace
      ensures Valid() && halfway == old(halfway) + 1 && trace == old(trace) && state.settle == old(state.settle)
      ensures state.spent == old(state.spent) + spend && state.served == old(state.served)
      ensures windowCost == old(windowCost) + spend
    {
      windowCost, inFlight, halfway := windowCost + spend, inFlight - 1, halfway + 1;
      Log(Event.AddCost(spend));
    }

    method AddReq()
      requires Valid() && halfway > 0
      modifies this`windowReqs, this`halfway, this`state, this`run, this`trace
      ensures Valid() && halfway == old(halfway) - 1 && trace == old(trace) && state.settle == old(state.settle)
      ensures state.served == old(state.served) + 1 && state.spent == old(state.spent)
      ensures windowReqs == old(windowReqs) + 1
    {
      windowReqs, halfway := windowReqs + 1, halfway - 1;
      Log(Event.AddReq);
    }

    /** One write of the totals, which may fail and then changes nothing. */
    method WriteRow(cost: int, reqs: int, refreshedAt: int, ok: bool)
      modifies this`row
      ensures row == if ok then Row(cost, reqs, refreshedAt) else old(row)
    {
      if ok { row := Row(cost, reqs, refreshedAt); }
    }

    // ---- The settle goroutine, one atomic operation or write at a time.

    method LoadFlushCost() returns (cost: int)
      requires Valid() && state.settle.Idle?
      modifies this`state, this`run, this`trace
      ensures Valid() && state.settle == FlushCostLoaded(cost) && cost == windowCost
          && trace == old(trace) + [Event.LoadFlushCost]
    {
      cost := windowCost;
      Log(Event.LoadFlushCost);
    }

    method LoadFlushReqs(cost: int) returns (reqs: int)
      requires Valid() && state.settle == FlushCostLoaded(cost)
      modifies this`state, this`run, this`trace
      ensures Valid() && state.settle == FlushLoaded(cost, reqs) && reqs == windowReqs
          && trace == old(trace) + [Event.LoadFlushReqs]
    {
      reqs := windowReqs;
      Log(Event.LoadFlushReqs);
    }

    method NoteCost(cost: int, reqs: int)
      requires Valid() && state.settle == FlushWritten(cost, reqs)
      modifies this`lastFlushed, this`state, this`run, this`trace
      ensures Valid() && state.settle == FlushHalfNoted(cost, reqs) && lastFlushed == cost
          && trace == old(trace) + [Event.NoteCost]
    {
      lastFlushed := cost;
      Log(Event.NoteCost);
    }

    method NoteReqs(cost: int, reqs: int)
      requires Valid() && state.settle == FlushHalfNoted(cost, reqs)
      modifies this`lastReqs, this`state, this`run, this`trace
      ensures Valid() && state.settle.Idle? && lastReqs == reqs && trace == old(trace) + [Event.NoteReqs]
    {
      lastReqs := reqs;
      Log(Event.NoteReqs);
    }

    method LoadRollCost(cfg: Config, target: int) returns (cost: int)
      requires Valid() && state.settle == RollDue(cfg, target)
      modifies this`state, this`run, this`trace
      ensures Valid() && state.settle == RollCostLoaded(cfg, target, cost) && cost == windowCost
          && trace == old(trace) + [Event.LoadRollCost]
    {
      cost := windowCost;
      Log(Event.LoadRollCost);
    }

    method LoadRollReqs(cfg: Config, target: int, cost: int) returns (reqs: int)
      requires Valid() && state.settle == RollCostLoaded(cfg, target, cost)
      modifies this`state, this`run, this`trace
      ensures Valid() && state.settle == RollLoaded(cfg, target, cost, reqs) && reqs == windowReqs
          && trace == old(trace) + [Event.LoadRollReqs]
    {
      reqs := windowReqs;
      Log(Event.LoadRollReqs);
    }

    method WriteClosing(cfg: Config, target: int, cost: int, reqs: int, ok: bool)
      requires Valid() && state.settle == RollLoaded(cfg, target, cost, reqs)
      modifies this`row, this`state, this`run, this`trace
      ensures Valid() && state.settle == (if ok then RollClosed(cfg, target, cost, reqs) else Idle)
      ensures row == (if ok then Row(cost, reqs, old(row.refreshedAt)) else old(row))
      ensures trace == old(trace) + [Event.CloseWindow(ok)]
    {
      WriteRow(cost, reqs, row.refreshedAt, ok);
      Log(Event.CloseWindow(ok));
    }

    method WriteReset(cfg: Config, target: int, cost: int, reqs: int, ok: bool)
      requires Valid() && state.settle == RollClosed(cfg, target, cost, reqs)
      modifies this`row, this`state, this`run, this`trace
      ensures Valid() && state.settle == (if ok then RollReset(cfg, target, cost, reqs) else Idle)
      ensures row == (if ok then Row(0, 0, target) else old(row))
      ensures trace == old(trace) + [ResetRow(ok)]
    {
      WriteRow(0, 0, target, ok);
      Log(ResetRow(ok));
    }

    method PublishWindow(cfg: Config, target: int, cost: int, reqs: int)
      requires Valid() && state.settle == RollReset(cfg, target, cost, reqs)
      modifies this`config, this`state, this`run, this`trace
      ensures Valid() && state.settle == RollPublished(cost, reqs) && config == cfg.(refreshedAt := target)
          && trace == old(trace) + [Event.PublishWindow]
    {
      config := cfg.(refreshedAt := target);
      Log(Event.PublishWindow);
    }

    method TakeCost(cost: int, reqs: int)
      requires Valid() && state.settle == RollPublished(cost, reqs)
      modifies this`windowCost, this`state, this`run, this`trace
      ensures Valid() && state.settle == RollCostTaken(reqs) && windowCost == old(windowCost) - cost
          && trace == old(trace) + [Event.TakeCost]
    {
      windowCost := windowCost - cost;
      Log(Event.TakeCost);
    }

    method TakeReqs(reqs: int)
      requires Valid() && state.settle == RollCostTaken(reqs)
      modifies this`windowReqs, this`state, this`run, this`trace
      ensures Valid() && state.settle.RollTaken? && windowReqs == old(windowReqs) - reqs
          && trace == old(trace) + [Event.TakeReqs]
    {
      windowReqs := windowReqs - reqs;
      Log(Event.TakeReqs);
    }

    method ClearCost()
      requires Valid() && state.settle.RollTaken?
      modifies this`lastFlushed, this`state, this`run, this`trace
      ensures Valid() && state.settle.RollHalfCleared? && lastFlushed == 0 && trace == old(trace) + [Event.ClearCost]
    {
      lastFlushed := 0;
      Log(Event.ClearCost);
    }

    method ClearReqs()
      requires Valid() && state.settle.RollHalfCleared?
      modifies this`lastReqs, this`state, this`run, this`trace
      ensures Valid() && state.settle.Idle? && lastReqs == 0 && trace == old(trace) + [Event.ClearReqs]
    {
      lastReqs := 0;
      Log(Event.ClearReqs);
    }

    // ---- Its two passes.

    /** The flush pass: load both counters, skip when the marks already hold them,
        write absolute totals, and move the marks only after a write that succeeded.
        `written` is how the write ends if there is one. */
    method FlushBudgetUsage(written: bool) returns (flushed: bool)
      requires Valid() && state.settle.Idle?
      modifies this
      ensures Valid() && state.settle.Idle?
      ensures flushed ==> trace == old(trace) + FLUSH_DONE && written
      ensures flushed ==> row.cost == old(windowCost) && row.reqs >= old(windowReqs)
                          && row.refreshedAt == old(row.refreshedAt)
      ensures flushed ==> lastFlushed == row.cost && lastReqs == row.reqs
      ensures !flushed ==> row == old(row) && lastFlushed == old(lastFlushed) && lastReqs == old(lastReqs)
      ensures !flushed && !written ==> trace == old(trace) + FLUSH_SKIPPED || trace == old(trace) + FLUSH_FAILED
      ensures !flushed && written ==> trace == old(trace) + FLUSH_SKIPPED
      ensures written && (old(windowCost) != old(lastFlushed) || old(windowReqs) > old(lastReqs)) ==> flushed
    {
      var cost, reqs := LoadForFlush();
      if cost == lastFlushed && reqs == lastReqs {
        Skip(cost, reqs);
        flushed := false;
      } else {
        Store(cost, reqs, written);
        flushed := written;
      }
      Joined(old(trace), FLUSH_LOADS, [Event.SkipFlush]);
      Joined(old(trace), FLUSH_LOADS, [WriteTotals(false)]);
      Joined(old(trace), FLUSH_LOADS, STORED);
    }

    method Skip(cost: int, reqs: int)
      requires Valid() && state.settle == FlushLoaded(cost, reqs) && cost == lastFlushed && reqs == lastReqs
      modifies this`state, this`run, this`trace
      ensures Valid() && state.settle.Idle? && trace == old(trace) + [Event.SkipFlush]
    {
      Log(Event.SkipFlush);
    }

    /** Write the totals, and only then move the marks. */
    method Store(cost: int, reqs: int, ok: bool)
      requires Valid() && state.settle == FlushLoaded(cost, reqs) && !(cost == lastFlushed && reqs == lastReqs)
      modifies this
      ensures Valid() && state.settle.Idle?
      ensures ok ==> trace == old(trace) + STORED
      ensures ok ==> lastFlushed == cost && lastReqs == reqs && row == Row(cost, reqs, old(row.refreshedAt))
      ensures !ok ==> trace == old(trace) + [WriteTotals(false)]
      ensures !ok ==> row == old(row) && lastFlushed == old(lastFlushed) && lastReqs == old(lastReqs)
    {
      WriteFlush(cost, reqs, ok);
      if ok {
        NoteFlushed(cost, reqs);
        Joined(old(trace), [WriteTotals(true)], [Event.NoteCost, Event.NoteReqs]);
      }
    }

    method LoadForFlush() returns (cost: int, reqs: int)
      requires Valid() && state.settle.Idle?
      modifies this
      ensures Valid() && state.settle == FlushLoaded(cost, reqs)
      ensures row == old(row) && lastFlushed == old(lastFlushed) && lastReqs == old(lastReqs)
      ensures trace == old(trace) + FLUSH_LOADS
      ensures cost == old(windowCost) && reqs >= old(windowReqs)
    {
      cost := LoadFlushCost();
      Meanwhile();
      reqs := LoadFlushReqs(cost);
      Meanwhile();
    }

    method WriteFlush(cost: int, reqs: int, ok: bool)
      requires Valid() && state.settle == FlushLoaded(cost, reqs) && !(cost == lastFlushed && reqs == lastReqs)
      modifies this`row, this`state, this`run, this`trace
      ensures Valid() && state.settle == (if ok then FlushWritten(cost, reqs) else Idle)
      ensures row == (if ok then Row(cost, reqs, old(row.refreshedAt)) else old(row))
      ensures trace == old(trace) + [WriteTotals(ok)]
    {
      WriteRow(cost, reqs, row.refreshedAt, ok);
      Log(WriteTotals(ok));
    }

    method NoteFlushed(cost: int, reqs: int)
      requires Valid() && state.settle == FlushWritten(cost, reqs)
      modifies this
      ensures Valid() && state.settle.Idle?
      ensures row == old(row) && lastFlushed == cost && lastReqs == reqs
      ensures trace == old(trace) + [Event.NoteCost, Event.NoteReqs]
    {
      Meanwhile();
      NoteCost(cost, reqs);
      Meanwhile();
      NoteReqs(cost, reqs);
    }

    /** The roll pass: when the window is over, close it at its final total, reset
        the row, publish the new window, and take what was closed out of the
        counters. A failed write ends the pass with the window still open. `closes` and
        `resets` are how the two writes end. */
    method TrackBudgetWindow(now: int, closes: bool, resets: bool) returns (rolled: bool)
      requires Valid() && state.settle.Idle?
      modifies this
      ensures Valid() && state.settle.Idle?
      ensures var cfg := old(config);
              var over := cfg.duration > 0 && now >= cfg.refreshedAt + cfg.duration;
              && (rolled <==> over && closes && resets)
              && (!over <==> trace == old(trace))
              && (over && !closes ==> trace == old(trace) + CloseFailed(now))
              && (over && closes && !resets ==> trace == old(trace) + ResetFailed(now))
              && (rolled ==> trace == old(trace) + RollDone(now))
              && (rolled ==> row.refreshedAt <= now < row.refreshedAt + cfg.duration)
              && (rolled ==> exists k: nat :: k >= 1 && row.refreshedAt == cfg.refreshedAt + k * cfg.duration)
      ensures rolled ==> row.cost == 0 && row.reqs == 0 && lastFlushed == 0 && lastReqs == 0
      ensures !rolled ==> row.refreshedAt == old(row.refreshedAt)
                          && lastFlushed == old(lastFlushed) && lastReqs == old(lastReqs)
    {
      var due := FindDue(now);
      if due.None? { return false; }
      var (cfg, target) := due.value;
      RollOver(cfg, target, closes, resets);
      rolled := closes && resets;
      JoinRoll(old(trace), now, closes, resets);
      TargetIsLater(cfg, now);
    }

    method RollOver(cfg: Config, target: int, closes: bool, resets: bool)
      requires Valid() && state.settle == RollDue(cfg, target)
      modifies this
      ensures Valid() && state.settle.Idle?
      ensures trace == old(trace) + RollTrace(closes, resets)
      ensures if closes && resets then row == Row(0, 0, target) && lastFlushed == 0 && lastReqs == 0
              else row.refreshedAt == old(row.refreshedAt)
                   && lastFlushed == old(lastFlushed) && lastReqs == old(lastReqs)
    {
      var cost, reqs := CloseWindow(cfg, target, closes, resets);
      if closes && resets {
        StartWindow(cfg, target, cost, reqs);
        Joined(old(trace), CLOSED, STARTED);
      }
    }

    /** The cached configuration and, if its window is over, the start of the next. */
    method FindDue(now: int) returns (due: Option<(Config, int)>)
      requires Valid() && state.settle.Idle?
      modifies this`state, this`run, this`trace
      ensures Valid()
      ensures due.None? <==> config.duration <= 0 || now < config.refreshedAt + config.duration
      ensures due.None? ==> state == old(state) && trace == old(trace)
      ensures due.Some? ==>
        && due.value == (config, ResetTarget(config, now).value)
        && state.settle == RollDue(due.value.0, due.value.1) && trace == old(trace) + [Event.FindDue(now)]
    {
      var cfg := config;
      if ResetTarget(cfg, now).None? { return None; }
      Log(Event.FindDue(now));
      return Some((cfg, ResetTarget(cfg, now).value));
    }

    /** Close the window in the database: its final total, then the reset. */
    method CloseWindow(cfg: Config, target: int, closes: bool, resets: bool) returns (cost: int, reqs: int)
      requires Valid() && state.settle == RollDue(cfg, target)
      modifies this
      ensures Valid() && lastFlushed == old(lastFlushed) && lastReqs == old(lastReqs)
      ensures cost >= old(windowCost) && reqs >= old(windowReqs)
      ensures trace == old(trace) + if closes && resets then CLOSED else RollTrace(closes, resets)
      ensures state.settle == if closes && resets then RollReset(cfg, target, cost, reqs) else Idle
      ensures row == if closes && resets then Row(0, 0, target)
                     else if closes then Row(cost, reqs, old(row.refreshedAt)) else old(row)
    {
      cost, reqs := LoadForRoll(cfg, target);
      WriteWindow(cfg, target, cost, reqs, closes, resets);
      assert CLOSED == LOADS + [Event.CloseWindow(true), ResetRow(true)];
      assert RESET_FAILED == LOADS + [Event.CloseWindow(true), ResetRow(false)];
      assert CLOSE_FAILED == LOADS + [Event.CloseWindow(false)];
    }

    method WriteWindow(cfg: Config, target: int, cost: int, reqs: int, closes: bool, resets: bool)
      requires Valid() && state.settle == RollLoaded(cfg, target, cost, reqs)
      modifies this
      ensures Valid() && lastFlushed == old(lastFlushed) && lastReqs == old(lastReqs)
      ensures trace == old(trace) + [Event.CloseWindow(closes)] + if closes then [ResetRow(resets)] else []
      ensures state.settle == if closes && resets then RollReset(cfg, target, cost, reqs) else Idle
      ensures row == if closes && resets then Row(0, 0, target)
                     else if closes then Row(cost, reqs, old(row.refreshedAt)) else old(row)
    {
      WriteClosing(cfg, target, cost, reqs, closes);
      if closes {
        Meanwhile();
        WriteReset(cfg, target, cost, reqs, resets);
      }
    }

    method LoadForRoll(cfg: Config, target: int) returns (cost: int, reqs: int)
      requires Valid() && state.settle == RollDue(cfg, target)
      modifies this
      ensures Valid() && state.settle == RollLoaded(cfg, target, cost, reqs)
      ensures row == old(row) && lastFlushed == old(lastFlushed) && lastReqs == old(lastReqs)
      ensures trace == old(trace) + LOADS && cost >= old(windowCost) && reqs >= old(windowReqs)
    {
      Meanwhile();
      cost := LoadRollCost(cfg, target);
      Meanwhile();
      reqs := LoadRollReqs(cfg, target, cost);
      Meanwhile();
    }

    /** Publish the new window, subtract - not zero - what was closed, clear the marks. */
    method StartWindow(cfg: Config, target: int, cost: int, reqs: int)
      requires Valid() && state.settle == RollReset(cfg, target, cost, reqs)
      modifies this
      ensures Valid() && state.settle.Idle? && row == old(row) && lastFlushed == 0 && lastReqs == 0
      ensures trace == old(trace) + STARTED
    {
      Meanwhile();
      PublishWindow(cfg, target, cost, reqs);
      SubtractClosed(cost, reqs);
      ClearMarks();
    }

    method SubtractClosed(cost: int, reqs: int)
      requires Valid() && state.settle == RollPublished(cost, reqs)
      modifies this
      ensures Valid() && state.settle.RollTaken? && row == old(row)
      ensures trace == old(trace) + TAKES
    {
      Meanwhile();
      TakeCost(cost, reqs);
      Meanwhile();
      TakeReqs(reqs);
    }

    method ClearMarks()
      requires Valid() && state.settle.RollTaken?
      modifies this
      ensures Valid() && state.settle.Idle? && row == old(row) && lastFlushed == 0 && lastReqs == 0
      ensures trace == old(trace) + CLEARS
    {
      Meanwhile();
      ClearCost();
      Meanwhile();
      ClearReqs();
    }
  }
}
