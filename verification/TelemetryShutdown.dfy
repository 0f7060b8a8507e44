/** The telemetry events at shutdown: the pipeline's machine with its flush job hosted by
    the worker (internal/metrics-engine/metrics-engine.go, internal/gateway/gateway.go).
    An execution takes once what is pending and writes it once; requests go on finishing
    for as long as the server has not been closed. */
module TelemetryShutdown {
  import opened Wrappers
  import opened Metrics
  import Worker
  import Hosted

  /** `taken`: the execution under way, or the last one, has taken its batch; `kept`: and
      has kept it after a failed write; `late`: what was accepted after it was taken. */
  datatype World = World(host: Hosted.Host, pipe: Pipeline, taken: bool, kept: bool, late: seq<Content>)

  datatype Event =
    | Host(step: Hosted.Event)
    | Request(move: Move)
    | Job(move: Move)

  ghost predicate Enabled(s: World, e: Event) {
    match e
    case Host(step) =>
      Hosted.Enabled(s.host, step) && (Hosted.Ends(s.host, step) ==> s.taken && s.pipe.batch == [])
    case Request(m) => s.host.open && Can(s.pipe, m) && (m.Accept? || m.Refuse?)
    case Job(m) =>
      && Hosted.Busy(s.host) && Can(s.pipe, m)
      && ((m.Take? && !s.taken) || (m.Write? && s.taken))
  }

  ghost function Step(s: World, e: Event): World
    requires Enabled(s, e)
  {
    match e
    case Host(step) =>
      var t := s.(host := Hosted.Step(s.host, step));
      if Hosted.Begins(s.host, step) then t.(taken := false, kept := false) else t
    case Request(m) =>
      s.(pipe := After(s.pipe, m), late := if m.Accept? then s.late + [m.content] else s.late)
    case Job(m) =>
      var t := s.(pipe := After(s.pipe, m));
      if m.Take? then t.(taken := true, late := []) else t.(kept := Keeps(s.pipe, m.outcome))
  }

  datatype Run = Start(capacity: nat, runAtStop: bool) | Then(prefix: Run, event: Event)

  ghost function End(run: Run): Option<World> {
    match run
    case Start(capacity, runAtStop) =>
      Some(World(Hosted.Initial(false, runAtStop), Pipeline(capacity, [], [], [], [], [], 0), false, false, []))
    case Then(prefix, e) =>
      match End(prefix)
      case None => None
      case Some(s) => if Enabled(s, e) then Some(Step(s, e)) else None
  }

  /** The order of acceptance, and what an execution has left of what it took. */
  ghost predicate Inv(s: World) {
    && Hosted.Inv(s.host)
    && InOrder(s.pipe.accepted, Contents(s.pipe.disposed), s.pipe.batch, s.pipe.retry, s.pipe.buffer)
    && (!s.taken || !Hosted.Busy(s.host) ==> s.pipe.batch == [])
    && (s.taken ==> s.pipe.buffer == s.late && (!s.kept ==> s.pipe.retry == []))
    && (s.taken && s.pipe.batch != [] ==> s.pipe.retry == [])
    && (Hosted.Returned(s.host) ==> s.taken)
    && (Hosted.Leaving(s.host) && s.host.worker.runAtStop && s.host.closedAtStop && s.taken ==> s.late == [])
  }

  lemma RequestKeepsInv(s: World, e: Event)
    requires Inv(s) && Enabled(s, e) && e.Request?
    ensures Inv(Step(s, e))
  {
    var p := s.pipe;
    if e.move.Accept? {
      var c := e.move.content;
      assert Contents(p.disposed) + p.batch + p.retry + (p.buffer + [c])
          == Contents(p.disposed) + p.batch + p.retry + p.buffer + [c];
    }
  }

  lemma JobKeepsInv(s: World, e: Event)
    requires Inv(s) && Enabled(s, e) && e.Job?
    ensures Inv(Step(s, e))
  {
    var p := s.pipe;
    if e.move.Take? {
      TakingKeepsOrder(p.accepted, Contents(p.disposed), p.retry, p.buffer);
    } else {
      LeavingKeepsOrder(p.accepted, Contents(p.disposed), p.batch, p.buffer);
      DisposeBatch(p.disposed, e.move.outcome, p.batch);
    }
  }

  lemma HostKeepsInv(s: World, e: Event)
    requires Inv(s) && Enabled(s, e) && e.Host?
    ensures Inv(Step(s, e))
  {
    Hosted.StepKeepsInv(s.host, e.step);
    Hosted.Phases(s.host, e.step);
  }

  lemma {:induction false} RunKeepsInv(run: Run)
    requires End(run).Some?
    ensures Inv(End(run).value)
  {
    if run.Then? {
      RunKeepsInv(run.prefix);
      var s := End(run.prefix).value;
      match run.event
      case Host(_) => HostKeepsInv(s, run.event);
      case Request(_) => RequestKeepsInv(s, run.event);
      case Job(_) => JobKeepsInv(s, run.event);
    }
  }

  /** When the flush job has stopped, every event ever accepted has left in order, but for
      the batch the last run kept and what was accepted after it took its batch. So nothing
      stays exactly when the last run kept none and no request finished too late; and none
      does if the server was closed at the stop. */
  lemma ShutdownDrains(run: Run)
    requires End(run).Some? && Hosted.Stopped(End(run).value.host)
    ensures var s := End(run).value;
            && s.pipe.accepted == Contents(s.pipe.disposed) + s.pipe.retry + s.late
            && (!s.kept ==> s.pipe.retry == [])
            && (!s.kept ==> (s.pipe.accepted == Contents(s.pipe.disposed) <==> s.late == []))
            && (s.host.closedAtStop ==> s.late == [])
  {
    RunKeepsInv(run);
    var s := End(run).value;
    Hosted.StoppedHasReturned(s.host);
    Remainder(Contents(s.pipe.disposed), s.pipe.retry, s.late);
  }

  lemma Remainder(gone: seq<Content>, retry: seq<Content>, late: seq<Content>)
    ensures gone + [] + retry + late == gone + retry + late
    ensures retry == [] ==> (gone + retry + late == gone <==> late == [])
  {
    assert |gone + retry + late| == |gone| + |retry| + |late|;
  }

  /** Without the run at stop events can stay behind. */
  lemma WithoutLastRunEventsStay(c: Content)
    ensures var open := Then(Then(Start(1, false), Group(Worker.StartGroup)), Group(Worker.Launch(0)));
            var closed := Then(Then(open, Request(Accept(c))), Host(Hosted.CloseServer));
            var run := Then(Then(closed, Group(Worker.StopGroup)), Group(Worker.SeeStop(0)));
            && End(run).Some? && Worker.AllOver(End(run).value.host.worker.loops) && End(run).value.pipe.buffer == [c]
  {
    var closed := Closed(c);
    var r, s := Go(closed, End(closed).value, Group(Worker.StopGroup));
    assert s.host.worker.loops == [Worker.Loop(Worker.Waiting, true)] && s.pipe.buffer == [c];
    r, s := Go(r, s, Group(Worker.SeeStop(0)));
    assert s.host.worker.loops == [Worker.Loop(Worker.Exited, true)] && s.pipe.buffer == [c];
  }

  lemma Closed(c: Content) returns (closed: Run)
    ensures var open := Then(Then(Start(1, false), Group(Worker.StartGroup)), Group(Worker.Launch(0)));
            closed == Then(Then(open, Request(Accept(c))), Host(Hosted.CloseServer))
    ensures End(closed).Some?
    ensures var s := End(closed).value;
            && s.host.worker.loops == [Worker.Loop(Worker.Waiting, false)]
            && s.host.worker.started && !s.host.worker.runAtStop && s.pipe.buffer == [c]
  {
    var r, s := Go(Start(1, false), End(Start(1, false)).value, Group(Worker.StartGroup));
    assert s.host.worker.loops == [Worker.Loop(Worker.Ready, false)];
    r, s := Go(r, s, Group(Worker.Launch(0)));
    assert s.host.worker.loops == [Worker.Loop(Worker.Waiting, false)];
    r, s := Go(r, s, Request(Accept(c)));
    closed, s := Go(r, s, Host(Hosted.CloseServer));
  }

  function Group(step: Worker.Event): Event { Host(Hosted.Group(step)) }

  lemma Go(run: Run, s: World, e: Event) returns (longer: Run, t: World)
    requires End(run) == Some(s) && Enabled(s, e)
    ensures longer == Then(run, e) && t == Step(s, e) && End(longer) == Some(t)
  {
    longer, t := Then(run, e), Step(s, e);
  }
}
