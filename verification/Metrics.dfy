/** The telemetry pipeline: pooled event objects, a bounded buffer, and a flush job
    that carries a failed batch over and gives it up after the third failure
    (internal/metrics-engine/metrics-engine.go, EventsBuffer.go, event-pool.go). */
module Metrics {
  import opened Wrappers

  const MAX_WRITE_ATTEMPTS := 3

  /** What `fill` puts into an event; only its identity matters here. */
  datatype Content = Content(id: nat)

  /** How an accepted event left the pipeline. A write that panics takes its batch
      with it: the worker recovers, but nothing holds the events any more. */
  datatype Disposal = Written(content: Content) | Lost(content: Content) | Leaked(content: Content)

  datatype WriteOutcome = WriteOk | WriteFailed | WritePanicked

  datatype FlushResult = Flushed(written: nat) | Retrying(pending: nat) | GivenUp(dropped: nat) | Panicked

  function Contents(ds: seq<Disposal>): seq<Content> {
    if ds == [] then [] else Contents(ds[..|ds| - 1]) + [ds[|ds| - 1].content]
  }

  /** The rows the disposals put into the store, in order. */
  function Rows(ds: seq<Disposal>): seq<Content> {
    if ds == [] then []
    else Rows(ds[..|ds| - 1]) + if ds[|ds| - 1].Written? then [ds[|ds| - 1].content] else []
  }

  function LostCount(ds: seq<Disposal>): nat {
    if ds == [] then 0 else LostCount(ds[..|ds| - 1]) + if ds[|ds| - 1].Lost? then 1 else 0
  }

  function LeakedCount(ds: seq<Disposal>): nat {
    if ds == [] then 0 else LeakedCount(ds[..|ds| - 1]) + if ds[|ds| - 1].Leaked? then 1 else 0
  }

  /** Where in the acceptance order each row of the store came from. */
  function Positions(ds: seq<Disposal>): seq<nat> {
    if ds == [] then []
    else Positions(ds[..|ds| - 1]) + if ds[|ds| - 1].Written? then [|ds| - 1] else []
  }

  /** Every disposal is exactly one of written, lost and leaked, and the rows are
      the written events in acceptance order, none of them twice. */
  lemma {:induction false} RowsFollowAcceptance(ds: seq<Disposal>)
    ensures var at := Positions(ds);
            && |at| == |Rows(ds)|
            && |Rows(ds)| + LostCount(ds) + LeakedCount(ds) == |ds|
            && (forall i :: 0 <= i < |at| ==> at[i] < |ds| && ds[at[i]] == Written(Rows(ds)[i]))
            && (forall i, j :: 0 <= i < j < |at| ==> at[i] < at[j])
  {
    if ds != [] { RowsFollowAcceptance(ds[..|ds| - 1]); }
  }

  lemma {:induction false} ContentsLength(ds: seq<Disposal>)
    ensures |Contents(ds)| == |ds|
  {
    if ds != [] { ContentsLength(ds[..|ds| - 1]); }
  }

  function Fate(kind: WriteOutcome, c: Content): Disposal {
    match kind
    case WriteOk => Written(c)
    case WriteFailed => Lost(c)
    case WritePanicked => Leaked(c)
  }

  function Disposed(kind: WriteOutcome, cs: seq<Content>): seq<Disposal> {
    if cs == [] then []
    else
      Disposed(kind, cs[..|cs| - 1]) + [Fate(kind, cs[|cs| - 1])]
  }

  /** Disposing of one more batch adds exactly its events, all in the same way. */
  lemma {:induction false} DisposeBatch(ds: seq<Disposal>, kind: WriteOutcome, cs: seq<Content>)
    ensures var all := ds + Disposed(kind, cs);
            && Contents(all) == Contents(ds) + cs
            && Rows(all) == Rows(ds) + (if kind.WriteOk? then cs else [])
            && LostCount(all) == LostCount(ds) + (if kind.WriteFailed? then |cs| else 0)
            && LeakedCount(all) == LeakedCount(ds) + (if kind.WritePanicked? then |cs| else 0)
  {
    var all := ds + Disposed(kind, cs);
    if cs == [] {
      assert all == ds;
    } else {
      var init, c := cs[..|cs| - 1], cs[|cs| - 1];
      DisposeBatch(ds, kind, init);
      var d := Fate(kind, c);
      assert all == ds + Disposed(kind, init) + [d];
      DisposeOne(ds + Disposed(kind, init), d);
      assert cs == init + [c];
    }
  }

  lemma DisposeOne(ds: seq<Disposal>, d: Disposal)
    ensures var all := ds + [d];
            && Contents(all) == Contents(ds) + [d.content]
            && Rows(all) == Rows(ds) + (if d.Written? then [d.content] else [])
            && LostCount(all) == LostCount(ds) + (if d.Lost? then 1 else 0)
            && LeakedCount(all) == LeakedCount(ds) + (if d.Leaked? then 1 else 0)
  {
    assert (ds + [d])[..|ds|] == ds;
  }

  // ---- The pipeline as a machine; the engine below takes its steps.

  /** What was accepted and how it left, and what each holder contains. */
  datatype Pipeline = Pipeline(
    capacity: nat, accepted: seq<Content>, disposed: seq<Disposal>,
    batch: seq<Content>, retry: seq<Content>, buffer: seq<Content>, attempts: nat)

  datatype Move =
    | Accept(content: Content)
    | Refuse(content: Content)
    | Take
    | Write(outcome: WriteOutcome)

  predicate Can(p: Pipeline, m: Move) {
    match m
    case Accept(_) => |p.buffer| < p.capacity
    case Refuse(_) => |p.buffer| >= p.capacity
    case Take => p.batch == []
    case Write(_) => p.batch != [] && p.retry == []
  }

  /** A failed write keeps its batch for the next flush, twice. */
  predicate Keeps(p: Pipeline, outcome: WriteOutcome) {
    outcome.WriteFailed? && p.attempts + 1 < MAX_WRITE_ATTEMPTS
  }

  function After(p: Pipeline, m: Move): Pipeline {
    match m
    case Accept(c) => p.(accepted := p.accepted + [c], buffer := p.buffer + [c])
    case Refuse(_) => p
    case Take => p.(batch := p.retry + p.buffer, retry := [], buffer := [])
    case Write(outcome) =>
      if Keeps(p, outcome) then p.(retry := p.batch, batch := [], attempts := p.attempts + 1)
      else p.(disposed := p.disposed + Disposed(outcome, p.batch), batch := [],
              attempts := if outcome.WritePanicked? then p.attempts else 0)
  }

  /** The most `k` failures' worth of buffers can carry over. */
  function Buffers(k: nat, capacity: nat): nat {
    k * capacity
  }

  /** A pooled event object; empty while it sits in the pool. */
  class Event {
    var content: Option<Content>

    constructor ()
      ensures content == None
    {
      content := None;
    }
  }

  ghost predicate Holds(events: seq<Event>, cs: seq<Content>)
    reads events
  {
    |events| == |cs| && forall i :: 0 <= i < |events| ==> events[i].content == Some(cs[i])
  }

  ghost function Elems(events: seq<Event>): set<Event> {
    set e | e in events
  }

  ghost predicate Distinct(events: seq<Event>) {
    forall i, j :: 0 <= i < j < |events| ==> events[i] != events[j]
  }

  lemma Joined(a: seq<Event>, inA: seq<Content>, b: seq<Event>, inB: seq<Content>)
    requires Holds(a, inA) && Holds(b, inB) && Distinct(a) && Distinct(b) && Elems(a) !! Elems(b)
    ensures Holds(a + b, inA + inB) && Distinct(a + b) && Elems(a + b) == Elems(a) + Elems(b)
  {
    forall i, j | 0 <= i < j < |a + b| ensures (a + b)[i] != (a + b)[j] {
      if i < |a| <= j {
        assert a[i] in Elems(a) && b[j - |a|] in Elems(b);
      }
    }
  }

  /** What was accepted, in order: what has left, then what each holder contains. */
  ghost predicate InOrder(accepted: seq<Content>, gone: seq<Content>, batch: seq<Content>, retry: seq<Content>,
                          buffer: seq<Content>)
  {
    accepted == gone + batch + retry + buffer
  }

  lemma TakingKeepsOrder(accepted: seq<Content>, gone: seq<Content>, retry: seq<Content>, buffer: seq<Content>)
    requires InOrder(accepted, gone, [], retry, buffer)
    ensures InOrder(accepted, gone, retry + buffer, [], [])
  {
    assert gone + [] + retry + buffer == gone + (retry + buffer) + [] + [];
  }

  lemma LeavingKeepsOrder(accepted: seq<Content>, gone: seq<Content>, batch: seq<Content>, buffer: seq<Content>)
    requires InOrder(accepted, gone, batch, [], buffer)
    ensures InOrder(accepted, gone + batch, [], [], buffer)
    ensures InOrder(accepted, gone, [], batch, buffer)
  {
    assert gone + batch + [] + buffer == gone + batch + [] + [] + buffer;
    assert gone + batch + [] + buffer == gone + [] + batch + buffer;
  }

  lemma PrefixOfJoin(a: seq<Content>, b: seq<Content>, c: seq<Content>)
    requires b <= c
    ensures a + b <= a + c
  {}

  class EventsBuffer {
    const maxCapacity: nat
    var events: seq<Event>
    var dropped: nat

    constructor (capacity: int)
      ensures maxCapacity == (if capacity <= 0 then 5000 else capacity)
      ensures events == [] && dropped == 0
    {
      maxCapacity := if capacity <= 0 then 5000 else capacity;
      events, dropped := [], 0;
    }

    method Append(e: Event) returns (ok: bool)
      modifies this
      ensures ok == (|old(events)| < maxCapacity)
      ensures ok ==> events == old(events) + [e] && dropped == old(dropped)
      ensures !ok ==> events == old(events) && dropped == old(dropped) + 1
    {
      if |events| >= maxCapacity {
        dropped := dropped + 1;
        return false;
      }
      events := events + [e];
      ok := true;
    }

    method Drain() returns (out: seq<Event>)
      modifies this
      ensures out == old(events) && events == [] && dropped == old(dropped)
    {
      out, events := events, [];
    }
  }

  class MetricsEngine {
    const buffer: EventsBuffer
    var open: bool  // the server still takes requests
    var free: set<Event>
    var retry: seq<Event>
    var attempts: nat
    var lost: nat
    var stored: seq<Content>

    // The flush job's batch, before and after its write is decided; what the events
    // of each holder contain; and the history: everything accepted, and how it
    // left, both in order.
    ghost var batch: seq<Event>
    ghost var spent: seq<Event>
    ghost var inBatch: seq<Content>
    ghost var inRetry: seq<Content>
    ghost var inBuffer: seq<Content>
    ghost var accepted: seq<Content>
    ghost var disposed: seq<Disposal>
    ghost var panics: nat  // writes that panicked

    /** Where the pipeline stands. */
    ghost function Now(): Pipeline
      reads this, buffer
    {
      Pipeline(buffer.maxCapacity, accepted, disposed, inBatch, inRetry, inBuffer, attempts)
    }

    /** Every event object the engine knows. */
    ghost function Objects(): set<Event>
      reads this, buffer
    {
      free + Elems(spent) + Elems(batch) + Elems(retry) + Elems(buffer.events)
    }

    /** Each object is pooled or held in exactly one place; pooled ones are empty,
        and those still to be written contain what was accepted. */
    ghost predicate Owned()
      reads this, buffer, Objects()
    {
      && free !! Elems(spent) !! Elems(batch) !! Elems(retry) !! Elems(buffer.events)
      && Distinct(spent) && Distinct(batch) && Distinct(retry) && Distinct(buffer.events)
      && (forall e :: e in free ==> e.content == None)
      && Holds(batch, inBatch) && Holds(retry, inRetry) && Holds(buffer.events, inBuffer)
    }

    /** Everything accepted has been disposed of or is still held, in order; and the
        carried-over batch fits its number of failures. */
    ghost predicate Accounted()
      reads this, buffer
    {
      && InOrder(accepted, Contents(disposed), inBatch, inRetry, inBuffer)
      && Tallied()
      && |buffer.events| <= buffer.maxCapacity
      && attempts < MAX_WRITE_ATTEMPTS
      && (retry != [] ==> attempts > 0)
      && |retry| <= Buffers(attempts, buffer.maxCapacity)
      && |batch| <= Buffers(attempts + 1, buffer.maxCapacity)
      && (attempts > 0 && retry == [] && batch == [] ==> panics > 0)
    }

    /** The tallies are those of the disposals. */
    ghost predicate Tallied()
      reads this
    {
      stored == Rows(disposed) && lost == LostCount(disposed) && (panics == 0 <==> LeakedCount(disposed) == 0)
    }

    ghost predicate Valid()
      reads this, buffer, Objects()
    {
      Owned() && Accounted()
    }

    constructor (capacity: int)
      ensures Valid() && fresh(buffer) && Objects() == {} && accepted == [] && disposed == []
    {
      buffer := new EventsBuffer(capacity);
      open, free, retry, attempts, lost, stored := true, {}, [], 0, 0, [];
      batch, spent, inBatch, inRetry, inBuffer, accepted, disposed, panics := [], [], [], [], [], [], [], 0;
    }

    /** A pooled object, or a new one. */
    method AcquireEvent() returns (e: Event)
      requires Valid()
      modifies this`free
      ensures Valid() && e.content == None && e !in Objects()
      ensures free <= old(free) && (fresh(e) || e in old(free))
    {
      if free != {} {
        e :| e in free;
        free := free - {e};
      } else {
        e := new Event();
      }
    }

    /** Empty an event nobody holds any more and put it back into the pool. */
    method ReleaseEvent(e: Event)
      requires Valid() && e !in Objects()
      modifies e, this`free
      ensures Valid() && e.content == None && free == old(free) + {e}
    {
      e.content := None;
      free := free + {e};
    }

    ghost function Offered(c: Content, kept: bool): Move { if kept then Accept(c) else Refuse(c) }

    /** Buffer a filled event that nobody else holds. */
    method Keep(e: Event, c: Content) returns (ok: bool)
      requires Valid() && e !in Objects() && e.content == Some(c)
      modifies this`accepted, this`inBuffer, buffer
      ensures Valid() && ok == (|old(buffer.events)| < buffer.maxCapacity)
      ensures ok ==> buffer.events == old(buffer.events) + [e] && buffer.dropped == old(buffer.dropped)
                     && accepted == old(accepted) + [c] && inBuffer == old(inBuffer) + [c]
      ensures !ok ==> buffer.events == old(buffer.events) && buffer.dropped == old(buffer.dropped) + 1
                      && accepted == old(accepted) && inBuffer == old(inBuffer)
      ensures Can(old(Now()), Offered(c, ok)) && Now() == After(old(Now()), Offered(c, ok))
    {
      ok := buffer.Append(e);
      if ok {
        accepted, inBuffer := accepted + [c], inBuffer + [c];
        assert Elems(buffer.events) == old(Elems(buffer.events)) + {e};
      }
    }

    /** One finished request: fill a pooled event and buffer it, or release it again
        when the buffer is full. `trigger` asks for an early flush. */
    method AddEvent(c: Content) returns (kept: bool, trigger: bool)
      requires Valid()
      modifies this`free, this`accepted, this`inBuffer, buffer, free
      ensures Valid() && fresh(Objects() - old(Objects())) && fresh(free - old(free))
      ensures kept == (|old(buffer.events)| < buffer.maxCapacity)
      ensures accepted == old(accepted) + (if kept then [c] else [])
      ensures inBuffer == old(inBuffer) + (if kept then [c] else [])
      ensures old(buffer.events) <= buffer.events
      ensures buffer.dropped == old(buffer.dropped) + (if kept then 0 else 1)
      ensures trigger == (kept && |buffer.events| >= buffer.maxCapacity / 2)
      ensures Can(old(Now()), Offered(c, kept)) && Now() == After(old(Now()), Offered(c, kept))
    {
      kept := FillAndKeep(c);
      trigger := kept && |buffer.events| >= buffer.maxCapacity / 2;
    }

    method FillAndKeep(c: Content) returns (kept: bool)
      requires Valid()
      modifies this`free, this`accepted, this`inBuffer, buffer, free
      ensures Valid() && fresh(Objects() - old(Objects())) && fresh(free - old(free))
      ensures kept == (|old(buffer.events)| < buffer.maxCapacity)
      ensures accepted == old(accepted) + (if kept then [c] else [])
      ensures inBuffer == old(inBuffer) + (if kept then [c] else [])
      ensures old(buffer.events) <= buffer.events
      ensures buffer.dropped == old(buffer.dropped) + (if kept then 0 else 1)
    {
      var e := AcquireEvent();
      e.content := Some(c);
      kept := Keep(e, c);
      if !kept {
        ReleaseEvent(e);
      }
    }

    /** Any number of requests finishing meanwhile, while the server is open. */
    method Producers()
      requires Valid()
      modifies this`free, this`accepted, this`inBuffer, buffer, free
      ensures Valid() && fresh(Objects() - old(Objects()))
      ensures old(accepted) <= accepted && old(inBuffer) <= inBuffer && old(buffer.events) <= buffer.events
      ensures !open ==> accepted == old(accepted) && inBuffer == old(inBuffer)
    {
      var requests: nat := *;
      while open && requests > 0
        invariant Valid() && fresh(Objects() - old(Objects())) && fresh(free - old(free))
        invariant old(accepted) <= accepted && old(inBuffer) <= inBuffer && old(buffer.events) <= buffer.events
        invariant !open ==> accepted == old(accepted) && inBuffer == old(inBuffer)
      {
        requests := requests - 1;
        var c: Content := *;
        var _, _ := AddEvent(c);
      }
    }

    /** The store reads every event of the batch; a write that fails or panics adds
        no row. */
    method Write(events: seq<Event>, outcome: WriteOutcome, ghost cs: seq<Content>) returns (rows: seq<Content>)
      requires Holds(events, cs)
      ensures rows == if outcome.WriteOk? then cs else []
    {
      rows := [];
      if outcome.WriteOk? {
        for i := 0 to |events|
          invariant rows == cs[..i]
        {
          rows := rows + [events[i].content.value];
        }
      }
    }

    /** Release the next event of the batch whose write is decided. */
    method ReleaseNext(e: Event)
      requires Valid() && spent != [] && spent[0] == e
      modifies this`free, this`spent, e
      ensures Valid() && spent == old(spent)[1..] && Objects() == old(Objects()) && free == old(free) + {e}
    {
      assert Elems(spent) == Elems(spent[1..]) + {e};
      spent := spent[1..];
      ReleaseEvent(e);
    }

    /** Release the batch, one event after another, while requests already reuse
        what is back in the pool. */
    method ReleaseAll(events: seq<Event>)
      requires Valid() && spent == events
      modifies this`free, this`accepted, this`inBuffer, this`spent, buffer, free, events
      ensures Valid() && spent == [] && fresh(Objects() - old(Objects()))
      ensures old(accepted) <= accepted && old(inBuffer) <= inBuffer && old(buffer.events) <= buffer.events
      ensures !open ==> accepted == old(accepted) && inBuffer == old(inBuffer)
    {
      for i := 0 to |events|
        invariant Valid() && spent == events[i..]
        invariant fresh(Objects() - old(Objects())) && fresh(free - old(free) - Elems(events))
        invariant old(accepted) <= accepted && old(inBuffer) <= inBuffer && old(buffer.events) <= buffer.events
        invariant !open ==> accepted == old(accepted) && inBuffer == old(inBuffer)
      {
        ReleaseHead(events[i]);
      }
    }

    method ReleaseHead(e: Event)
      requires Valid() && spent != [] && spent[0] == e
      modifies this`free, this`accepted, this`inBuffer, this`spent, buffer, free, e
      ensures Valid() && spent == old(spent)[1..] && fresh(Objects() - old(Objects())) && fresh(free - old(free) - {e})
      ensures old(accepted) <= accepted && old(inBuffer) <= inBuffer && old(buffer.events) <= buffer.events
      ensures !open ==> accepted == old(accepted) && inBuffer == old(inBuffer)
    {
      ReleaseNext(e);
      Producers();
    }

    /** Take everything pending: the batch carried over, then the buffer. */
    method TakeBatch() returns (events: seq<Event>)
      requires Valid() && batch == [] && spent == []
      modifies this`retry, this`batch, this`inBatch, this`inRetry, this`inBuffer, buffer
      ensures Valid() && batch == events && retry == [] && buffer.events == []
      ensures events == old(retry) + old(buffer.events) && inBatch == old(inRetry) + old(inBuffer)
      ensures inRetry == [] && inBuffer == [] && Objects() == old(Objects())
      ensures Can(old(Now()), Take) && Now() == After(old(Now()), Take)
    {
      events := HandOver();
    }

    /** The carried-over batch before the buffer's events. */
    method HandOver() returns (events: seq<Event>)
      requires Valid() && batch == [] && spent == []
      modifies this`retry, this`batch, this`inBatch, this`inRetry, this`inBuffer, buffer
      ensures Valid() && batch == events && retry == [] && buffer.events == []
      ensures events == old(retry) + old(buffer.events) && inBatch == old(inRetry) + old(inBuffer)
      ensures inRetry == [] && inBuffer == [] && Objects() == old(Objects())
    {
      Joined(retry, inRetry, buffer.events, inBuffer);
      TakingKeepsOrder(accepted, Contents(disposed), inRetry, inBuffer);
      assert Buffers(attempts + 1, buffer.maxCapacity) == Buffers(attempts, buffer.maxCapacity) + buffer.maxCapacity;
      var drained := buffer.Drain();
      events := retry + drained;
      retry := [];
      batch, inBatch, inRetry, inBuffer := events, inRetry + inBuffer, [], [];
      assert Owned();
    }

    /** Write the batch and decide what becomes of it. */
    method WriteBatch(events: seq<Event>, outcome: WriteOutcome) returns (result: FlushResult)
      requires Valid() && batch == events && events != [] && spent == [] && retry == [] && inRetry == []
      modifies this`retry, this`attempts, this`lost, this`stored,
               this`batch, this`spent, this`inBatch, this`inRetry, this`disposed, this`panics
      ensures Valid() && batch == [] && Objects() <= old(Objects())
      ensures Can(old(Now()), Move.Write(outcome)) && Now() == After(old(Now()), Move.Write(outcome))
      ensures Follows(result, outcome, old(attempts))
      ensures panics == old(panics) + if result.Panicked? then 1 else 0
      ensures match result
              case Flushed(n) =>
                disposed == old(disposed) + Disposed(WriteOk, old(inBatch)) && n == |events|
                && attempts == 0 && spent == events && retry == []
              case Retrying(n) =>
                disposed == old(disposed) && n == |events|
                && attempts == old(attempts) + 1 && spent == [] && retry == events && inRetry == old(inBatch)
              case GivenUp(n) =>
                disposed == old(disposed) + Disposed(WriteFailed, old(inBatch)) && n == |events|
                && old(attempts) == MAX_WRITE_ATTEMPTS - 1 && attempts == 0 && spent == events && retry == []
              case Panicked =>
                disposed == old(disposed) + Disposed(WritePanicked, old(inBatch))
                && attempts == old(attempts) && spent == [] && retry == []
    {
      var rows := Write(events, outcome, inBatch);
      result := Decide(events, outcome, rows);
    }

    method Decide(events: seq<Event>, outcome: WriteOutcome, rows: seq<Content>) returns (result: FlushResult)
      requires Valid() && batch == events && events != [] && spent == [] && retry == [] && inRetry == []
      requires rows == if outcome.WriteOk? then inBatch else []
      modifies this`retry, this`attempts, this`lost, this`stored,
               this`batch, this`spent, this`inBatch, this`inRetry, this`disposed, this`panics
      ensures Valid() && batch == [] && Objects() <= old(Objects())
      ensures Follows(result, outcome, old(attempts))
      ensures panics == old(panics) + if result.Panicked? then 1 else 0
      ensures match result
              case Flushed(n) =>
                disposed == old(disposed) + Disposed(WriteOk, old(inBatch)) && n == |events|
                && attempts == 0 && spent == events && retry == []
              case Retrying(n) =>
                disposed == old(disposed) && n == |events|
                && attempts == old(attempts) + 1 && spent == [] && retry == events && inRetry == old(inBatch)
              case GivenUp(n) =>
                disposed == old(disposed) + Disposed(WriteFailed, old(inBatch)) && n == |events|
                && old(attempts) == MAX_WRITE_ATTEMPTS - 1 && attempts == 0 && spent == events && retry == []
              case Panicked =>
                disposed == old(disposed) + Disposed(WritePanicked, old(inBatch))
                && attempts == old(attempts) && spent == [] && retry == []
    {
      if outcome.WriteFailed? && attempts + 1 < MAX_WRITE_ATTEMPTS {
        CarryOver(events);
        return Retrying(|events|);
      }
      LetGo(events, outcome, rows);
      if outcome.WritePanicked? { return Panicked; }
      result := if outcome.WriteOk? then Flushed(|events|) else GivenUp(|events|);
    }

    method CarryOver(events: seq<Event>)
      requires Valid() && batch == events && events != [] && retry == [] && inRetry == []
      requires attempts + 1 < MAX_WRITE_ATTEMPTS
      modifies this`retry, this`attempts, this`batch, this`inBatch, this`inRetry
      ensures Valid() && batch == [] && Objects() == old(Objects())
      ensures attempts == old(attempts) + 1 && retry == events && inRetry == old(inBatch)
    {
      LeavingKeepsOrder(accepted, Contents(disposed), inBatch, inBuffer);
      attempts := attempts + 1;
      retry, inRetry, batch, inBatch := events, inBatch, [], [];
      assert Owned();
    }

    /** The batch leaves the pipeline; after a panic its objects leave with it. */
    method LetGo(events: seq<Event>, outcome: WriteOutcome, rows: seq<Content>)
      requires Valid() && batch == events && events != [] && spent == [] && retry == [] && inRetry == []
      requires rows == if outcome.WriteOk? then inBatch else []
      modifies this`attempts, this`lost, this`stored, this`batch, this`spent, this`inBatch, this`disposed, this`panics
      ensures panics == old(panics) + if outcome.WritePanicked? then 1 else 0
      ensures Valid() && batch == [] && Objects() <= old(Objects())
      ensures disposed == old(disposed) + Disposed(outcome, old(inBatch))
      ensures attempts == (if outcome.WritePanicked? then old(attempts) else 0)
      ensures spent == (if outcome.WritePanicked? then [] else events)
    {
      Book(|events|, outcome, rows);
      Retire(events, !outcome.WritePanicked?);
    }

    /** The books of a batch that is written, lost or leaked. */
    method Book(n: nat, outcome: WriteOutcome, rows: seq<Content>)
      requires InOrder(accepted, Contents(disposed), inBatch, [], inBuffer)
      requires Tallied()
      requires n == |inBatch| > 0 && rows == if outcome.WriteOk? then inBatch else []
      modifies this`attempts, this`lost, this`stored, this`disposed, this`panics
      ensures panics == old(panics) + if outcome.WritePanicked? then 1 else 0
      ensures InOrder(accepted, Contents(disposed), [], [], inBuffer)
      ensures Tallied()
      ensures disposed == old(disposed) + Disposed(outcome, inBatch)
      ensures outcome.WritePanicked? ==> LeakedCount(disposed) > 0
      ensures attempts == (if outcome.WritePanicked? then old(attempts) else 0)
    {
      DisposeBatch(disposed, outcome, inBatch);
      LeavingKeepsOrder(accepted, Contents(disposed), inBatch, inBuffer);
      stored := stored + rows;
      lost := lost + if outcome.WriteFailed? then n else 0;
      attempts := if outcome.WritePanicked? then attempts else 0;
      disposed := disposed + Disposed(outcome, inBatch);
      panics := panics + if outcome.WritePanicked? then 1 else 0;
    }

    /** The batch's objects wait for their release, or are no longer held at all. */
    method Retire(events: seq<Event>, released: bool)
      requires Owned() && Tallied() && InOrder(accepted, Contents(disposed), [], [], inBuffer)
      requires batch == events && spent == [] && retry == [] && inRetry == []
      requires |buffer.events| <= buffer.maxCapacity && attempts < MAX_WRITE_ATTEMPTS && (attempts > 0 ==> panics > 0)
      modifies this`batch, this`spent, this`inBatch
      ensures Valid() && batch == [] && inBatch == [] && Objects() <= old(Objects())
      ensures spent == if released then events else []
    {
      spent := if released then events else [];
      batch, inBatch := [], [];
    }

    /** What is pending when the flush job takes it, requests finishing around it. */
    method Gather() returns (events: seq<Event>)
      requires Valid() && batch == [] && spent == []
      modifies this`free, this`accepted, this`retry, this`batch, this`inBatch, this`inRetry, this`inBuffer, buffer, free
      ensures Valid() && batch == events && retry == [] && inRetry == [] && fresh(Objects() - old(Objects()))
      ensures old(inRetry) + old(inBuffer) <= inBatch
      ensures !open ==> inBatch == old(inRetry) + old(inBuffer) && inBuffer == [] && accepted == old(accepted)
    {
      events := TakePending();
      Producers();
    }

    method TakePending() returns (events: seq<Event>)
      requires Valid() && batch == [] && spent == []
      modifies this`free, this`accepted, this`retry, this`batch, this`inBatch, this`inRetry, this`inBuffer, buffer, free
      ensures Valid() && batch == events && retry == [] && inRetry == [] && inBuffer == []
      ensures fresh(Objects() - old(Objects())) && fresh(free - old(free))
      ensures old(inRetry) + old(inBuffer) <= inBatch
      ensures !open ==> inBatch == old(inRetry) + old(inBuffer) && accepted == old(accepted)
    {
      Producers();
      PrefixOfJoin(old(inRetry), old(inBuffer), inBuffer);
      events := TakeBatch();
    }

    /** The flush job, with requests finishing at any moment. A failed batch is kept
        for the next run, twice; the third failure gives it up. The batch `cs` holds
        at least what was pending when the job started, and shares one fate. Once the
        server is closed, a flush that does not retry leaves nothing pending. */
    method Flush(outcome: WriteOutcome) returns (result: FlushResult, ghost cs: seq<Content>)
      requires Valid() && batch == [] && spent == []
      modifies this`free, this`retry, this`attempts, this`lost, this`stored, this`batch, this`spent, this`inBatch,
               this`inRetry, this`inBuffer, this`accepted, this`disposed, this`panics, buffer, Objects()
      ensures Valid() && batch == [] && spent == [] && old(inRetry) + old(inBuffer) <= cs
      ensures fresh(Objects() - old(Objects()))
      ensures Settled(result, cs, old(disposed), old(attempts))
      ensures cs != [] ==> Follows(result, outcome, old(attempts))
      ensures stored == old(stored) + (if outcome.WriteOk? then cs else [])
      ensures lost == old(lost) + (if outcome.WriteFailed? && old(attempts) == 2 then |cs| else 0)
      ensures cs != [] ==> inRetry == if outcome.WriteFailed? && old(attempts) < 2 then cs else []
      ensures panics == old(panics) + if result.Panicked? then 1 else 0
      ensures old(attempts > 0 <==> retry != []) ==>
        ((attempts > 0 <==> retry != []) <==> !(result.Panicked? && old(attempts) > 0))
      ensures !open && !result.Retrying? ==> buffer.events == [] && accepted == Contents(disposed)
    {
      ghost var tried, waited := attempts, inRetry != [];
      ghost var before := disposed;
      assert waited <==> retry != [];
      result, cs := FlushPending(outcome);
      PanicsUnsettleAttempts(result, cs, before, tried, waited);
      TalliesFollow(result, outcome, cs, before, tried);
    }

    /** A successful write stores the batch and the third failure in a row loses it. */
    lemma TalliesFollow(result: FlushResult, outcome: WriteOutcome, cs: seq<Content>, before: seq<Disposal>, tried: nat)
      requires Settled(result, cs, before, tried) && (cs != [] ==> Follows(result, outcome, tried))
      requires tried < 3 && Valid() && (cs == [] ==> !result.Panicked?)
      ensures stored == Rows(before) + (if outcome.WriteOk? then cs else [])
      ensures lost == LostCount(before) + (if outcome.WriteFailed? && tried == 2 then |cs| else 0)
      ensures cs != [] ==> inRetry == if outcome.WriteFailed? && tried < 2 then cs else []
    {
      assert disposed == before || disposed == before + Disposed(outcome, cs);
      DisposeBatch(before, outcome, cs);
      if cs == [] { assert before + Disposed(outcome, cs) == before; }
    }

    method FlushPending(outcome: WriteOutcome) returns (result: FlushResult, ghost cs: seq<Content>)
      requires Valid() && batch == [] && spent == []
      modifies this`free, this`retry, this`attempts, this`lost, this`stored, this`batch, this`spent, this`inBatch,
               this`inRetry, this`inBuffer, this`accepted, this`disposed, this`panics, buffer, Objects()
      ensures Valid() && batch == [] && spent == [] && old(inRetry) + old(inBuffer) <= cs
      ensures fresh(Objects() - old(Objects()))
      ensures Settled(result, cs, old(disposed), old(attempts))
      ensures cs != [] ==> Follows(result, outcome, old(attempts))
      ensures panics == old(panics) + if result.Panicked? then 1 else 0
      ensures !open && !result.Retrying? ==> buffer.events == [] && accepted == Contents(disposed)
    {
      var events := Gather();
      cs := inBatch;
      result := FlushBatch(events, outcome);
    }

    lemma NothingPending()
      requires Valid() && batch == [] && inRetry == [] && inBuffer == []
      ensures buffer.events == [] && accepted == Contents(disposed)
    {}

    method FlushBatch(events: seq<Event>, outcome: WriteOutcome) returns (result: FlushResult)
      requires Valid() && batch == events && spent == [] && retry == [] && inRetry == []
      modifies this`free, this`retry, this`attempts, this`lost, this`stored, this`batch, this`spent, this`inBatch,
               this`inRetry, this`inBuffer, this`accepted, this`disposed, this`panics, buffer, Objects()
      ensures Valid() && batch == [] && spent == [] && fresh(Objects() - old(Objects()))
      ensures Settled(result, old(inBatch), old(disposed), old(attempts))
      ensures old(inBatch) != [] ==> Follows(result, outcome, old(attempts))
      ensures panics == old(panics) + if result.Panicked? then 1 else 0
      ensures !open && old(inBuffer) == [] && !result.Retrying? ==>
          buffer.events == [] && accepted == Contents(disposed)
    {
      if |events| == 0 {
        assert Disposed(WriteOk, inBatch) == [];
        result := Flushed(0);
      } else {
        result := Conclude(events, outcome);
      }
      if inRetry == [] && inBuffer == [] { NothingPending(); }
    }

    /** Attempts are on the books exactly while something waits for a retry - unless a
        write panics during a retry, and then they are not. */
    lemma PanicsUnsettleAttempts(result: FlushResult, cs: seq<Content>, before: seq<Disposal>, tried: nat, waited: bool)
      requires Settled(result, cs, before, tried) && (waited ==> cs != [])
      ensures (tried > 0 <==> waited) ==> ((attempts > 0 <==> retry != []) <==> !(result.Panicked? && tried > 0))
    {}

    /** Write the batch, and release its objects if that settled it. */
    method Conclude(events: seq<Event>, outcome: WriteOutcome) returns (result: FlushResult)
      requires Valid() && batch == events && events != [] && spent == [] && retry == [] && inRetry == []
      modifies this`free, this`retry, this`attempts, this`lost, this`stored, this`batch, this`spent, this`inBatch,
               this`inRetry, this`inBuffer, this`accepted, this`disposed, this`panics, buffer, free, events
      ensures Valid() && batch == [] && spent == [] && fresh(Objects() - old(Objects()))
      ensures Settled(result, old(inBatch), old(disposed), old(attempts))
      ensures Follows(result, outcome, old(attempts))
      ensures panics == old(panics) + if result.Panicked? then 1 else 0
      ensures !open && old(inBuffer) == [] && !result.Retrying? ==> inBuffer == [] && inRetry == []
    {
      result := WriteBatch(events, outcome);
      if !result.Retrying? && !result.Panicked? {
        ReleaseAll(events);
      }
    }

    /** What a flush of batch `cs` has done, by its result. */
    ghost predicate Settled(result: FlushResult, cs: seq<Content>, before: seq<Disposal>, tried: nat)
      reads this
    {
      match result
      case Flushed(n) =>
        && n == |cs| && retry == [] && disposed == before + Disposed(WriteOk, cs)
        && attempts == if n > 0 then 0 else tried
      case Retrying(n) =>
        n == |cs| > 0 && attempts == tried + 1 && retry != [] && inRetry == cs && disposed == before
      case GivenUp(n) =>
        && n == |cs| > 0 && tried == MAX_WRITE_ATTEMPTS - 1 && attempts == 0 && retry == []
        && disposed == before + Disposed(WriteFailed, cs)
      case Panicked =>
        cs != [] && attempts == tried && retry == [] && disposed == before + Disposed(WritePanicked, cs)
    }

    /** The result a write outcome leads to, when there is something to write. */
    ghost predicate Follows(result: FlushResult, outcome: WriteOutcome, tried: nat) {
      match outcome
      case WriteOk => result.Flushed?
      case WriteFailed => if tried + 1 < MAX_WRITE_ATTEMPTS then result.Retrying? else result.GivenUp?
      case WritePanicked => result.Panicked?
    }

    /** Events pending, stored and lost are all that was accepted exactly when no write
        has ever panicked. */
    lemma EveryEventIsCounted()
      requires Valid()
      ensures |accepted| == |inBatch| + |inRetry| + |inBuffer| + |stored| + lost <==> panics == 0
    {
      RowsFollowAcceptance(disposed);
      ContentsLength(disposed);
    }

    /** The state the code does not allow for: one failed write, then one that panics,
        and an attempt is on the books with nothing to retry. */
    method FailThenPanic(c: Content)
      requires Valid() && batch == [] && spent == [] && retry == [] && attempts == 0 && open
      requires |buffer.events| < buffer.maxCapacity
      modifies this`free, this`retry, this`attempts, this`lost, this`stored, this`batch, this`spent, this`inBatch,
               this`inRetry, this`inBuffer, this`accepted, this`disposed, this`panics, buffer, Objects()
      ensures Valid() && attempts == 1 && retry == [] && panics == old(panics) + 1
    {
      var _, _ := AddEvent(c);
      var first, cs := Flush(WriteFailed);
      assert first.Retrying?;
      var second, ds := Flush(WritePanicked);
      assert cs <= ds;
    }
  }
}
