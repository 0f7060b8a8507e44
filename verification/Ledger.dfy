/** The usage ledger: a bounded buffer that requests append to, a job that drains
    it into the database and re-enqueues what a failed insert left behind, and the
    hook that feeds both the ledger and the budget counters
    (internal/governance/usage.go, governance.go, hook_budget_usage_record.go). */
module Ledger {
  import opened Wrappers

  datatype Record = Record(id: nat, budget: string, cost: nat)

  /** Where the flush job stands: the batch it drained, or what is left to re-enqueue. */
  datatype Job =
    | Idle
    | Drained(batch: seq<Record>)
    | Requeueing(batch: seq<Record>)

  /** `paused` holds the records of hooks between their two writes; `spent` the
      counters of the cached budgets; `dropped` what found the buffer full. */
  datatype State = State(
    capacity: nat, buffer: seq<Record>, job: Job, table: seq<Record>, dropped: seq<Record>,
    paused: seq<Record>, spent: map<string, int>)

  datatype Event =
    | Offer(record: Record)  // the hook's append
    | Settle(hook: nat, record: Record)  // the same hook's addition to the budget
    | Drain
    | Insert(ok: bool)
    | Requeue(record: Record)

  datatype Run = Start(origin: State) | Then(prefix: Run, event: Event)

  function Origin(run: Run): State {
    match run
    case Start(s) => s
    case Then(prefix, _) => Origin(prefix)
  }

  function Appended(s: State, r: Record): State {
    if |s.buffer| >= s.capacity then s.(dropped := s.dropped + [r]) else s.(buffer := s.buffer + [r])
  }

  function Without(s: seq<Record>, i: nat): seq<Record>
    requires i < |s|
  {
    s[..i] + s[i + 1..]
  }

  predicate Enabled(s: State, e: Event) {
    match e
    case Offer(_) => true
    case Settle(i, r) => i < |s.paused| && s.paused[i] == r
    case Drain => s.job.Idle?
    case Insert(_) => s.job.Drained?
    case Requeue(r) => s.job.Requeueing? && s.job.batch != [] && s.job.batch[0] == r
  }

  function Step(s: State, e: Event): State
    requires Enabled(s, e)
  {
    match e
    case Offer(r) => Appended(s, r).(paused := s.paused + [r])
    case Settle(i, r) =>
      s.(paused := Without(s.paused, i),
         spent := if r.budget in s.spent then s.spent[r.budget := s.spent[r.budget] + r.cost] else s.spent)
    case Drain => s.(buffer := [], job := if s.buffer == [] then Idle else Drained(s.buffer))
    case Insert(ok) =>
      if ok then s.(table := s.table + s.job.batch, job := Idle)
      else s.(job := if s.job.batch == [] then Idle else Requeueing(s.job.batch))
    case Requeue(r) =>
      var rest := s.job.batch[1..];
      Appended(s, r).(job := if rest == [] then Idle else Requeueing(rest))
  }

  ghost function End(run: Run): Option<State> {
    match run
    case Start(s) => Some(s)
    case Then(prefix, e) =>
      match End(prefix)
      case None => None
      case Some(s) => if Enabled(s, e) then Some(Step(s, e)) else None
  }

  /** The records the hooks of a run offered, in order. */
  function Offered(run: Run): seq<Record> {
    match run
    case Start(_) => []
    case Then(prefix, Offer(r)) => Offered(prefix) + [r]
    case Then(prefix, _) => Offered(prefix)
  }

  /** The records whose hooks finished, in order. */
  function Settled(run: Run): seq<Record> {
    match run
    case Start(_) => []
    case Then(prefix, Settle(_, r)) => Settled(prefix) + [r]
    case Then(prefix, _) => Settled(prefix)
  }

  /** The records of failed batches that were offered to the buffer again, in order. */
  function Requeued(run: Run): seq<Record> {
    match run
    case Start(_) => []
    case Then(prefix, Requeue(r)) => Requeued(prefix) + [r]
    case Then(prefix, _) => Requeued(prefix)
  }

  function InFlight(job: Job): seq<Record> {
    match job
    case Idle => []
    case Drained(batch) => batch
    case Requeueing(batch) => batch
  }

  function CostOf(records: seq<Record>, budget: string): nat {
    if records == [] then 0
    else CostOf(records[..|records| - 1], budget)
         + if records[|records| - 1].budget == budget then records[|records| - 1].cost else 0
  }

  function Empty(capacity: nat, spent: map<string, int>): State {
    State(capacity, [], Idle, [], [], [], spent)
  }

  /** Everything offered is buffered, in flight, written or dropped - each once. */
  predicate Conserved(offered: seq<Record>, s: State) {
    && multiset(offered)
       == multiset(s.buffer) + multiset(InFlight(s.job)) + multiset(s.table) + multiset(s.dropped)
    && |s.buffer| <= s.capacity
  }

  lemma AppendKeeps(offered: seq<Record>, s: State, r: Record, rest: seq<Record>)
    requires |s.buffer| <= s.capacity
    requires multiset(offered)
             == multiset(s.buffer) + multiset{r} + multiset(rest) + multiset(s.table) + multiset(s.dropped)
    ensures var t := Appended(s, r);
            && |t.buffer| <= t.capacity && t.table == s.table
            && multiset(offered)
               == multiset(t.buffer) + multiset(rest) + multiset(t.table) + multiset(t.dropped)
  {
    assert multiset(s.dropped + [r]) == multiset(s.dropped) + multiset{r};
    assert multiset(s.buffer + [r]) == multiset(s.buffer) + multiset{r};
  }

  lemma RequeueConserves(offered: seq<Record>, s: State, r: Record)
    requires Conserved(offered, s) && Enabled(s, Requeue(r))
    ensures Conserved(offered, Step(s, Requeue(r)))
  {
    var batch := s.job.batch;
    assert batch == [r] + batch[1..];
    assert multiset(batch) == multiset{r} + multiset(batch[1..]);
    AppendKeeps(offered, s, r, batch[1..]);
  }

  lemma StepConserves(offered: seq<Record>, s: State, e: Event)
    requires Conserved(offered, s) && Enabled(s, e)
    ensures Conserved(if e.Offer? then offered + [e.record] else offered, Step(s, e))
  {
    match e {
      case Offer(r) =>
        assert multiset(offered + [r]) == multiset(offered) + multiset{r};
        AppendKeeps(offered + [r], s, r, InFlight(s.job));
      case Insert(ok) =>
        assert multiset(s.table + s.job.batch) == multiset(s.table) + multiset(s.job.batch);
      case Requeue(r) =>
        RequeueConserves(offered, s, r);
      case _ =>
    }
  }

  /** Ledger conservation, in every interleaving of appends, drains and inserts
      that fail and re-enqueue. */
  lemma {:induction false} LedgerIsConserved(run: Run, capacity: nat, spent: map<string, int>)
    requires Origin(run) == Empty(capacity, spent) && End(run).Some?
    ensures Conserved(Offered(run), End(run).value)
  {
    if run.Then? {
      LedgerIsConserved(run.prefix, capacity, spent);
      StepConserves(Offered(run.prefix), End(run.prefix).value, run.event);
    }
  }

  lemma {:induction false} CostOfConcat(a: seq<Record>, b: seq<Record>, budget: string)
    ensures CostOf(a + b, budget) == CostOf(a, budget) + CostOf(b, budget)
  {
    if b == [] {
      assert a + b == a;
    } else {
      assert (a + b)[..|a + b| - 1] == a + b[..|b| - 1];
      CostOfConcat(a, b[..|b| - 1], budget);
    }
  }

  lemma CostWithout(s: seq<Record>, i: nat, budget: string)
    requires i < |s|
    ensures CostOf(s, budget) == CostOf(Without(s, i), budget) + if s[i].budget == budget then s[i].cost else 0
  {
    assert s == s[..i] + [s[i]] + s[i + 1..];
    CostOfConcat(s[..i] + [s[i]], s[i + 1..], budget);
    CostOfConcat(s[..i], [s[i]], budget);
    CostOfConcat(s[..i], s[i + 1..], budget);
    assert [s[i]][..0] == [];
  }

  /** Ledger and counters agree: for a budget cached throughout, its seed plus the
      cost of every record offered for it is what it has recorded, plus the records
      of the hooks still between their two writes. A full buffer, which drops the
      record, does not drop the spend. */
  lemma {:induction false} LedgerAgreesWithBudgets(run: Run, capacity: nat, spent: map<string, int>, budget: string)
    requires Origin(run) == Empty(capacity, spent) && End(run).Some? && budget in spent
    ensures var s := End(run).value;
            && s.spent.Keys == spent.Keys
            && spent[budget] + CostOf(Offered(run), budget) == s.spent[budget] + CostOf(s.paused, budget)
  {
    if run.Then? {
      LedgerAgreesWithBudgets(run.prefix, capacity, spent, budget);
      StepAgrees(Offered(run.prefix), End(run.prefix).value, run.event, spent[budget], budget);
    }
  }

  predicate Agrees(offered: seq<Record>, s: State, seed: int, budget: string) {
    budget in s.spent && seed + CostOf(offered, budget) == s.spent[budget] + CostOf(s.paused, budget)
  }

  lemma StepAgrees(offered: seq<Record>, s: State, e: Event, seed: int, budget: string)
    requires Agrees(offered, s, seed, budget) && Enabled(s, e)
    ensures Agrees(if e.Offer? then offered + [e.record] else offered, Step(s, e), seed, budget)
    ensures Step(s, e).spent.Keys == s.spent.Keys
  {
    if e.Offer? {
      CostOfOneMore(s.paused, e.record, budget);
      CostOfOneMore(offered, e.record, budget);
    } else if e.Settle? {
      CostWithout(s.paused, e.hook, budget);
    }
  }

  lemma CostOfOneMore(records: seq<Record>, r: Record, budget: string)
    ensures CostOf(records + [r], budget) == CostOf(records, budget) + if r.budget == budget then r.cost else 0
  {
    assert (records + [r])[..|records|] == records;
  }

  /** From any state between two flushes a flush can empty the buffer into the table:
      what UsageShutdown proves of every last run is never out of reach. */
  lemma FlushCanSucceed(run: Run, s: State)
    requires End(run) == Some(s) && s.job.Idle?
    ensures var drained := Then(run, Drain);
            var end := End(if s.buffer == [] then drained else Then(drained, Insert(true)));
            end == Some(s.(buffer := [], table := s.table + s.buffer))
  {
    var drained := Then(run, Drain);
    assert End(drained) == Some(Step(s, Drain));
    if s.buffer == [] {
      assert s.table + s.buffer == s.table;
    } else {
      assert End(Then(drained, Insert(true))).Some?;
    }
  }

  /** The order of acceptance is not kept: after a failed insert the older records stand
      behind the newer ones. */
  lemma FailedInsertReorders(a: Record, b: Record, spent: map<string, int>)
    ensures var drained := Then(Then(Then(Start(Empty(2, spent)), Offer(a)), Drain), Offer(b));
            var end := End(Then(Then(Then(Then(drained, Insert(false)), Requeue(a)), Drain), Insert(true)));
            end.Some? && end.value.table == [b, a]
  {
    var r, s := Start(Empty(2, spent)), Empty(2, spent);
    r, s := Go(r, s, Offer(a));
    r, s := Go(r, s, Drain);
    r, s := Go(r, s, Offer(b));
    r, s := Go(r, s, Insert(false));
    r, s := Go(r, s, Requeue(a));
    r, s := Go(r, s, Drain);
    r, s := Go(r, s, Insert(true));
  }

  lemma Go(run: Run, s: State, e: Event) returns (longer: Run, t: State)
    requires End(run) == Some(s) && Enabled(s, e)
    ensures longer == Then(run, e) && t == Step(s, e) && End(longer) == Some(t)
  {
    longer, t := Then(run, e), Step(s, e);
  }

  /** The buffer object. */
  class UsageBuffer {
    const maxCapacity: nat
    var records: seq<Record>
    var dropped: nat

    constructor (capacity: int)
      ensures maxCapacity == (if capacity <= 0 then 100_000 else capacity)
      ensures records == [] && dropped == 0
    {
      maxCapacity := if capacity <= 0 then 100_000 else capacity;
      records, dropped := [], 0;
    }

    method Append(r: Record)
      modifies this
      ensures |old(records)| < maxCapacity ==> records == old(records) + [r] && dropped == old(dropped)
      ensures |old(records)| >= maxCapacity ==> records == old(records) && dropped == old(dropped) + 1
    {
      if |records| >= maxCapacity {
        dropped := dropped + 1;
        return;
      }
      records := records + [r];
    }

    method Drain() returns (out: seq<Record>)
      modifies this
      ensures out == old(records) && records == [] && dropped == old(dropped)
    {
      out, records := records, [];
    }
  }

  /** The buffer, the usage table and the cached budgets, with the hooks and the
      flush job that work on them. Each operation is one event of a run. */
  class Governance {
    const usage: UsageBuffer
    var table: seq<Record>
    var spent: map<string, int>
    var paused: seq<Record>

    // The ledger's state, and the run that led there from `origin`.
    ghost const origin: State
    ghost var state: State
    ghost var run: Run

    ghost predicate Valid()
      reads this, usage
    {
      && origin == Empty(usage.maxCapacity, origin.spent)
      && Origin(run) == origin && End(run) == Some(state)
      && state.capacity == usage.maxCapacity
      && state.buffer == usage.records && |state.dropped| == usage.dropped
      && state.table == table && state.spent == spent && state.paused == paused
    }

    constructor (budgets: map<string, int>, capacity: int)
      ensures Valid() && fresh(usage) && state == Empty(usage.maxCapacity, budgets) && state.spent == budgets
    {
      var buffer := new UsageBuffer(capacity);
      usage := buffer;
      table, spent, paused := [], budgets, [];
      origin, state := Empty(buffer.maxCapacity, budgets), Empty(buffer.maxCapacity, budgets);
      run := Start(Empty(buffer.maxCapacity, budgets));
    }

    ghost method Log(e: Event)
      requires Origin(run) == origin && End(run) == Some(state) && Enabled(state, e)
      modifies this`state, this`run
      ensures Origin(run) == origin && End(run) == Some(state)
      ensures state == Step(old(state), e)
      ensures Offered(run) == old(Offered(run)) + if e.Offer? then [e.record] else []
      ensures Settled(run) == old(Settled(run)) + if e.Settle? then [e.record] else []
      ensures Requeued(run) == old(Requeued(run)) + if e.Requeue? then [e.record] else []
    {
      state, run := Step(state, e), Then(run, e);
    }

    /** The usage hook: append to the ledger, then add to the budget - both, also
        when the buffer was full. Other hooks run in between. */
    method RecordUsage(r: Record)
      requires Valid()
      modifies this, usage
      ensures Valid() && state.job == old(state.job) && table == old(table)
      ensures old(Offered(run)) + [r] <= Offered(run) && old(usage.records) <= usage.records
      ensures old(Settled(run)) < Settled(run) && Settled(run)[|Settled(run)| - 1] == r
    {
      Append(r);
      assert r in multiset(paused);
      Hooks([r]);
      assert r in multiset{r} && r in multiset(paused);
      var i :| 0 <= i < |paused| && paused[i] == r;
      SettleHook(i);
    }

    /** The first write of a hook. */
    method Append(r: Record)
      requires Valid()
      modifies this, usage
      ensures Valid() && state.job == old(state.job) && table == old(table)
      ensures Settled(run) == old(Settled(run)) && Requeued(run) == old(Requeued(run))
      ensures Offered(run) == old(Offered(run)) + [r] && paused == old(paused) + [r]
      ensures old(usage.records) <= usage.records && spent == old(spent)
    {
      usage.Append(r);
      paused := paused + [r];
      Log(Offer(r));
    }

    /** The second write of a paused hook. */
    method SettleHook(i: nat)
      requires Valid() && i < |paused|
      modifies this
      ensures Valid() && state.job == old(state.job) && table == old(table)
      ensures Offered(run) == old(Offered(run)) && paused == Without(old(paused), i)
      ensures Requeued(run) == old(Requeued(run))
      ensures Settled(run) == old(Settled(run)) + [old(paused)[i]] && spent.Keys == old(spent.Keys)
      ensures forall b :: b in spent ==>
                spent[b] == old(spent)[b] + if b == old(paused)[i].budget then old(paused)[i].cost else 0
    {
      var r := paused[i];
      paused := Without(paused, i);
      if r.budget in spent {
        spent := spent[r.budget := spent[r.budget] + r.cost];
      }
      Log(Settle(i, r));
    }

    /** Any number of steps of the hooks of other requests; `mine` stay paused. */
    method Hooks(mine: seq<Record>)
      requires Valid() && multiset(mine) <= multiset(paused)
      modifies this, usage
      ensures Valid() && state.job == old(state.job) && table == old(table)
      ensures old(Offered(run)) <= Offered(run) && old(usage.records) <= usage.records
      ensures multiset(mine) <= multiset(paused) && old(Settled(run)) <= Settled(run)
      ensures Requeued(run) == old(Requeued(run))
    {
      var steps: nat := *;
      while steps > 0
        invariant Valid() && state.job == old(state.job) && table == old(table)
        invariant old(Offered(run)) <= Offered(run) && old(usage.records) <= usage.records
        invariant multiset(mine) <= multiset(paused) && old(Settled(run)) <= Settled(run)
        invariant Requeued(run) == old(Requeued(run))
      {
        steps := steps - 1;
        var i: nat := *;
        if i >= |paused| {
          var r: Record := *;
          ghost var before := paused;
          Append(r);
          assert multiset(before + [r]) == multiset(before) + multiset{r};
        } else if multiset(mine) <= multiset(Without(paused, i)) {
          SettleHook(i);
        }
      }
    }

    /** The flush job: drain, insert the whole batch or nothing. The batch of a failed
        insert is offered again, record by record; what a full buffer refuses then is
        dropped. The batch holds at least what was buffered when the job started, and
        `inserts` says how the insert ends if there is one. */
    method FlushUsageHistory(inserts: bool) returns (written: Result<nat, ()>, ghost batch: seq<Record>)
      requires Valid() && state.job.Idle?
      modifies this, usage
      ensures Valid() && state.job.Idle? && old(Offered(run)) <= Offered(run) && old(usage.records) <= batch
      ensures written.Ok? <==> inserts || batch == []
      ensures written.Ok? ==>
          written.value == |batch| && table == old(table) + batch && Requeued(run) == old(Requeued(run))
      ensures written.Err? ==> table == old(table) && Requeued(run) == old(Requeued(run)) + batch
    {
      var records := Take();
      batch := records;
      if |records| == 0 { return Ok(0), batch; }
      Hooks([]);
      InsertBatch(records, inserts);
      if inserts { return Ok(|records|), batch; }
      ReEnqueue(records);
      return Err(()), batch;
    }

    /** The insert takes the whole batch or nothing. */
    method InsertBatch(records: seq<Record>, ok: bool)
      requires Valid() && records != [] && state.job == Drained(records)
      modifies this`table, this`state, this`run
      ensures Valid() && Offered(run) == old(Offered(run)) && Requeued(run) == old(Requeued(run))
      ensures table == old(table) + (if ok then records else [])
      ensures state.job == if ok then Idle else Requeueing(records)
    {
      Log(Insert(ok));
      if ok { table := table + records; }
    }

    /** Take everything buffered, hooks running before. */
    method Take() returns (records: seq<Record>)
      requires Valid() && state.job.Idle?
      modifies this, usage
      ensures Valid() && table == old(table) && old(Offered(run)) <= Offered(run)
      ensures state.job == (if records == [] then Idle else Drained(records)) && old(usage.records) <= records
      ensures Requeued(run) == old(Requeued(run))
    {
      Hooks([]);
      records := usage.Drain();
      Log(Drain);
    }

    method ReEnqueue(records: seq<Record>)
      requires Valid() && records != [] && state.job == Requeueing(records)
      modifies this, usage
      ensures Valid() && state.job.Idle? && table == old(table) && old(Offered(run)) <= Offered(run)
      ensures Requeued(run) == old(Requeued(run)) + records
    {
      var i := 0;
      while i < |records|
        invariant 0 <= i <= |records| && Valid() && table == old(table) && old(Offered(run)) <= Offered(run)
        invariant state.job == if i < |records| then Requeueing(records[i..]) else Idle
        invariant Requeued(run) == old(Requeued(run)) + records[..i]
      {
        RequeueNext(records[i..]);
        assert records[..i + 1] == records[..i] + [records[i]] && records[i..][1..] == records[i + 1..];
        i := i + 1;
      }
    }

    method RequeueNext(left: seq<Record>)
      requires Valid() && left != [] && state.job == Requeueing(left)
      modifies this, usage
      ensures Valid() && table == old(table) && old(Offered(run)) <= Offered(run)
      ensures state.job == if |left| > 1 then Requeueing(left[1..]) else Idle
      ensures Requeued(run) == old(Requeued(run)) + [left[0]]
    {
      Hooks([]);
      usage.Append(left[0]);
      Log(Event.Requeue(left[0]));
    }
  }
}
