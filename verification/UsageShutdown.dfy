/** The usage records at shutdown: the ledger's machine with its flush job hosted by
    the worker (internal/governance/governance.go, internal/gateway/gateway.go). An
    execution drains once; it ends when its batch is stored or offered again. */
module UsageShutdown {
  import opened Wrappers
  import Worker
  import Hosted
  import Ledger

  /** `drained`: the execution under way, or the last one, has drained; `stored`: and
      what it drained is in the table; `since`: what was offered after it drained. */
  datatype State = State(
    host: Hosted.Host, ledger: Ledger.State, drained: bool, stored: bool, since: seq<Ledger.Record>)

  datatype Event =
    | Host(step: Hosted.Event)
    | Hook(write: Ledger.Event)
    | Flush(move: Ledger.Event)

  ghost predicate Enabled(s: State, e: Event) {
    match e
    case Host(step) =>
      Hosted.Enabled(s.host, step) && (Hosted.Ends(s.host, step) ==> s.drained && s.ledger.job.Idle?)
    case Hook(w) => Ledger.Enabled(s.ledger, w) && ((w.Offer? && s.host.open) || w.Settle?)
    case Flush(m) =>
      && Ledger.Enabled(s.ledger, m) && !m.Offer? && !m.Settle?
      && Hosted.Busy(s.host) && (m.Drain? ==> !s.drained)
  }

  ghost function Step(s: State, e: Event): State
    requires Enabled(s, e)
  {
    match e
    case Host(step) =>
      var t := s.(host := Hosted.Step(s.host, step));
      if Hosted.Begins(s.host, step) then t.(drained := false, stored := false) else t
    case Hook(w) =>
      s.(ledger := Ledger.Step(s.ledger, w), since := if w.Offer? then s.since + [w.record] else s.since)
    case Flush(m) =>
      var t := s.(ledger := Ledger.Step(s.ledger, m));
      match m
      case Drain => t.(drained := true, stored := s.ledger.buffer == [], since := [])
      case Insert(ok) => t.(stored := ok)
      case _ => t
  }

  datatype Run = Start(capacity: nat, spent: map<string, int>) | Then(prefix: Run, event: Event)

  ghost function End(run: Run): Option<State> {
    match run
    case Start(capacity, spent) => 
      Some(State(Hosted.Initial(false, true), Ledger.Empty(capacity, spent), false, false, []))
    case Then(prefix, e) =>
      match End(prefix)
      case None => None
      case Some(s) => if Enabled(s, e) then Some(Step(s, e)) else None
  }

  /** The ledger's part of a run, which is a run of the ledger. */
  function LedgerRun(run: Run): Ledger.Run {
    match run
    case Start(capacity, spent) => Ledger.Start(Ledger.Empty(capacity, spent))
    case Then(prefix, Host(_)) => LedgerRun(prefix)
    case Then(prefix, Hook(w)) => Ledger.Then(LedgerRun(prefix), w)
    case Then(prefix, Flush(m)) => Ledger.Then(LedgerRun(prefix), m)
  }

  function Origin(run: Run): (nat, map<string, int>) {
    if run.Start? then (run.capacity, run.spent) else Origin(run.prefix)
  }

  lemma {:induction false} LedgerRunIsARun(run: Run)
    requires End(run).Some?
    ensures Ledger.End(LedgerRun(run)) == Some(End(run).value.ledger)
    ensures Ledger.Origin(LedgerRun(run)) == Ledger.Empty(Origin(run).0, Origin(run).1)
  {
    if run.Then? { LedgerRunIsARun(run.prefix); }
  }

  /** The records a buffer of that capacity has room for. */
  function FirstOf(records: seq<Ledger.Record>, capacity: nat): seq<Ledger.Record> {
    if |records| <= capacity then records else records[..capacity]
  }

  /** Once the buffer is drained it holds what was offered since, as far as it fits, until
      a failed batch comes back. */
  ghost predicate Inv(s: State) {
    && Hosted.Inv(s.host) && s.host.worker.runAtStop
    && (!Hosted.Busy(s.host) || !s.drained ==> s.ledger.job.Idle?)
    && (s.stored ==> s.ledger.job.Idle?)
    && (s.stored || s.ledger.job.Drained? ==> s.ledger.buffer == FirstOf(s.since, s.ledger.capacity))
    && (Hosted.Returned(s.host) ==> s.drained)
    && (Hosted.Leaving(s.host) && s.host.closedAtStop && s.drained ==> s.since == [])
  }

  lemma HostKeepsInv(s: State, e: Event)
    requires Inv(s) && Enabled(s, e) && e.Host?
    ensures Inv(Step(s, e))
  {
    Hosted.StepKeepsInv(s.host, e.step);
    Hosted.Phases(s.host, e.step);
  }

  lemma HookKeepsInv(s: State, e: Event)
    requires Inv(s) && Enabled(s, e) && e.Hook?
    ensures Inv(Step(s, e))
  {}

  lemma FlushKeepsInv(s: State, e: Event)
    requires Inv(s) && Enabled(s, e) && e.Flush?
    ensures Inv(Step(s, e))
  {}

  lemma {:induction false} RunKeepsInv(run: Run)
    requires End(run).Some?
    ensures Inv(End(run).value)
  {
    if run.Then? {
      RunKeepsInv(run.prefix);
      var s := End(run.prefix).value;
      match run.event
      case Host(_) => HostKeepsInv(s, run.event);
      case Hook(_) => HookKeepsInv(s, run.event);
      case Flush(_) => FlushKeepsInv(s, run.event);
    }
  }

  /** When the flush job has stopped nothing is in flight: every record ever offered is
      stored, dropped by a full buffer, or still buffered. If the last insert succeeded the
      buffer holds just what was offered after the last drain, as far as it fits; and that
      is nothing if the server was closed at the stop. */
  lemma ShutdownDrains(run: Run)
    requires End(run).Some? && Hosted.Stopped(End(run).value.host)
    ensures var t := End(run).value; var s := t.ledger;
            && s.job.Idle?
            && multiset(Ledger.Offered(LedgerRun(run))) == multiset(s.buffer) + multiset(s.table) + multiset(s.dropped)
            && (t.stored ==> s.buffer == FirstOf(t.since, s.capacity))
            && (t.stored && t.host.closedAtStop ==>
                  s.buffer == [] && multiset(Ledger.Offered(LedgerRun(run))) == multiset(s.table) + multiset(s.dropped))
  {
    RunKeepsInv(run);
    LedgerRunIsARun(run);
    Ledger.LedgerIsConserved(LedgerRun(run), Origin(run).0, Origin(run).1);
    Hosted.StoppedHasReturned(End(run).value.host);
  }
}
