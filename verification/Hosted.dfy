/** A job inside the gateway: the server takes requests, the gateway closes it and then
    stops the job's group. The closing can fail or time out with requests still running,
    and the group is stopped all the same (internal/gateway/gateway.go). Starts find the
    earlier loops over. */
module Hosted {
  import Worker

  /** `closedAtStop`: no request was running any more when a loop last saw the stop. */
  datatype Host = Host(worker: Worker.State, open: bool, closedAtStop: bool)

  datatype Event = CloseServer | Group(step: Worker.Event)

  ghost predicate Enabled(h: Host, e: Event) {
    match e
    case CloseServer => true
    case Group(step) =>
      && Worker.Enabled(h.worker, step)
      && (step.StartGroup? ==> Worker.AllOver(h.worker.loops))
  }

  ghost function Step(h: Host, e: Event): Host
    requires Enabled(h, e)
  {
    match e
    case CloseServer => h.(open := false)
    case Group(step) =>
      var t := h.(worker := Worker.Step(h.worker, step));
      if step.SeeStop? then t.(closedAtStop := !h.open) else t
  }

  /** Where the latest loop is. */
  function Latest(h: Host): Worker.Pc {
    if h.worker.loops == [] then Worker.Failed else h.worker.loops[|h.worker.loops| - 1].pc
  }

  /** The job is being executed. */
  predicate Busy(h: Host) { Latest(h).Starting? || Latest(h).Running? || Latest(h).LastRun? }

  /** The latest loop of a job that runs at stop has returned. */
  predicate Returned(h: Host) { h.worker.runAtStop && Latest(h).Exited? }

  ghost predicate Begins(h: Host, e: Event)
    requires Enabled(h, e)
  {
    !Busy(h) && Busy(Step(h, e))
  }

  ghost predicate Ends(h: Host, e: Event)
    requires Enabled(h, e)
  {
    Busy(h) && !Busy(Step(h, e))
  }

  function Initial(runAtStart: bool, runAtStop: bool): Host {
    Host(Worker.Initial(runAtStart, runAtStop), true, false)
  }

  /** Only the latest loop is alive; a server closed at the stop stays closed. */
  ghost predicate Inv(h: Host) {
    Worker.OnlyLatestLives(h.worker) && (Leaving(h) && h.closedAtStop ==> !h.open)
  }

  /** The latest loop has seen the stop. */
  predicate Leaving(h: Host) { Latest(h).LastRun? || Latest(h).Exited? }

  lemma OnlyLatestMoves(h: Host, e: Event)
    requires Inv(h) && Enabled(h, e) && e.Group?
    ensures match e.step
            case StartGroup => true
            case StopGroup => true
            case Trigger => true
            case _ => e.step.loop == |h.worker.loops| - 1
  {}

  lemma StepKeepsInv(h: Host, e: Event)
    requires Inv(h) && Enabled(h, e)
    ensures Inv(Step(h, e))
  {
    if e.Group? {
      OnlyLatestMoves(h, e);
      var t := Step(h, e);
      forall i | 0 <= i < |t.worker.loops| - 1 ensures Worker.Over(t.worker.loops[i]) {
        Worker.StepKeepsOver(h.worker, e.step, i);
      }
      Phases(h, e);
    }
  }

  /** A job that runs at stop returns only from its last run, which begins when it sees
      the stop; and only seeing the stop makes a loop leave. */
  lemma Phases(h: Host, e: Event)
    requires Inv(h) && Enabled(h, e)
    ensures Step(h, e).worker.runAtStop == h.worker.runAtStop
    ensures Returned(Step(h, e)) && !Returned(h) ==> Latest(h).LastRun? && Ends(h, e)
    ensures Latest(Step(h, e)).LastRun? && !Latest(h).LastRun? ==> Begins(h, e) && Step(h, e).closedAtStop == !h.open
    ensures Latest(h).LastRun? ==> Latest(Step(h, e)).LastRun? || Ends(h, e)
    ensures Leaving(Step(h, e)) && !Leaving(h) ==> e.Group? && e.step.SeeStop?
    ensures Leaving(h) && Leaving(Step(h, e)) ==> Step(h, e).closedAtStop == h.closedAtStop
  {
    if e.Group? { OnlyLatestMoves(h, e); }
  }

  /** A shutdown that returned nil, of a group that was started: every loop is over, and
      the latest was launched. */
  ghost predicate Stopped(h: Host) {
    h.worker.runAtStop && Worker.AllOver(h.worker.loops) && !Latest(h).Failed?
  }

  lemma StoppedHasReturned(h: Host)
    requires Stopped(h)
    ensures Returned(h)
  {
    assert Worker.Over(h.worker.loops[|h.worker.loops| - 1]);
  }
}
