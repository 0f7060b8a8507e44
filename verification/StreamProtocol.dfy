/** One streamed completion: the goroutine that decodes the provider's stream into a
    bounded channel (internal/providers/openai/handler.go) and the handler that
    takes chunks off it and writes them to the client (internal/server/chat.go),
    under a request that may be cancelled and a connection that may fail at any
    moment. A run is any interleaving of their steps. */
module StreamProtocol {
  import opened Wrappers

  const CHANNEL_CAPACITY: nat := 256

  /** A decoded chunk, with the output tokens of its usage when it carries one. */
  datatype Chunk = Chunk(id: nat, outputTokens: Option<nat>)

  /** What decoding makes of one payload: a chunk, nothing to report, or an error. */
  datatype Decoded = Delta(chunk: Chunk) | Ignored | Fault

  datatype Message = Data(chunk: Chunk) | Failure

  datatype Output = OutChunk(chunk: Chunk) | OutError | OutDone

  datatype Producer = Reading(next: nat) | Offering(message: Message, next: nat) | Finished

  datatype Consumer = Receiving | Holding(message: Message) | Closing | Draining | Ended

  /** `payloads` is what the upstream will send and `closed` whether it then ends
      with the closing marker. `offered` is everything ever put on the channel and
      `taken` what came off it; `written` and `consumed` are what the client got and
      the chunks whose usage counted. */
  datatype State = State(
    payloads: seq<Decoded>, closed: bool,
    producer: Producer, channel: seq<Message>, offered: seq<Message>, taken: seq<Message>,
    consumer: Consumer, cancelled: bool,
    consumed: seq<Chunk>, written: seq<Output>, usage: Option<Chunk>,
    completed: bool, failed: bool, aborted: bool, priced: nat, billed: Option<Chunk>)

  datatype Event =
    | Cancel
    // producer
    | Decode
    | ReadCancelled
    | EndOfStream
    | Send
    | DropOnCancel
    // consumer
    | Receive
    | SeeClosed
    | Handle(wrote: bool)
    | Drain
    | PriceAfterDrain
    | Close(wrote: bool)

  predicate Enabled(s: State, e: Event) {
    match e
    case Cancel => !s.cancelled
    case Decode => s.producer.Reading? && s.producer.next < |s.payloads|
    case ReadCancelled => s.producer.Reading? && s.cancelled
    case EndOfStream => s.producer.Reading? && s.producer.next >= |s.payloads|
    case Send => s.producer.Offering? && |s.channel| < CHANNEL_CAPACITY
    case DropOnCancel => s.producer.Offering? && s.cancelled
    case Receive => s.consumer.Receiving? && s.channel != []
    case SeeClosed => s.consumer.Receiving? && s.channel == [] && s.producer.Finished?
    case Handle(_) => s.consumer.Holding?
    case Drain => s.consumer.Draining? && s.channel != []
    case PriceAfterDrain => s.consumer.Draining? && s.channel == [] && s.producer.Finished?
    case Close(_) => s.consumer.Closing?
  }

  /** The usage kept after a chunk: the later of two with equal output tokens. */
  function Kept(usage: Option<Chunk>, chunk: Chunk): Option<Chunk> {
    if chunk.outputTokens.None? then usage
    else if usage.None? || usage.value.outputTokens.None?
         || chunk.outputTokens.value >= usage.value.outputTokens.value then Some(chunk)
    else usage
  }

  /** A chunk is offered, a fault ends the stream, anything else is passed over. */
  function AfterDecoding(d: Decoded, next: nat): Producer {
    match d
    case Delta(c) => Offering(Data(c), next)
    case Ignored => Reading(next)
    case Fault => Offering(Failure, next)
  }

  function Handled(s: State, wrote: bool): State
    requires s.consumer.Holding?
  {
    if s.cancelled then s.(aborted := true, consumer := Draining)
    else
      match s.consumer.message
      case Failure =>
        s.(written := if wrote then s.written + [OutError] else s.written, failed := true, consumer := Draining)
      case Data(c) =>
        var kept := s.(consumed := s.consumed + [c], usage := Kept(s.usage, c));
        if wrote then kept.(written := s.written + [OutChunk(c)], consumer := Receiving)
        else kept.(aborted := true, consumer := Draining)
  }

  function Priced(s: State): State {
    s.(priced := s.priced + 1, billed := s.usage, consumer := Ended)
  }

  function Step(s: State, e: Event): State
    requires Enabled(s, e)
  {
    match e
    case Cancel => s.(cancelled := true)
    case Decode =>
      s.(producer := AfterDecoding(s.payloads[s.producer.next], s.producer.next + 1))
    case ReadCancelled => s.(producer := Finished)
    case EndOfStream =>
      s.(producer := if s.cancelled || s.closed then Finished else Offering(Failure, s.producer.next))
    case Send =>
      s.(channel := s.channel + [s.producer.message], offered := s.offered + [s.producer.message],
         producer := if s.producer.message.Failure? then Finished else Reading(s.producer.next))
    case DropOnCancel => s.(producer := Finished)
    case Receive =>
      s.(channel := s.channel[1..], taken := s.taken + [s.channel[0]], consumer := Holding(s.channel[0]))
    case SeeClosed => s.(consumer := Closing)
    case Handle(wrote) => Handled(s, wrote)
    case Drain => s.(channel := s.channel[1..], taken := s.taken + [s.channel[0]])
    case PriceAfterDrain => Priced(s)
    case Close(wrote) =>
      Priced(if s.cancelled || !wrote then s.(aborted := true)
             else s.(completed := true, written := s.written + [OutDone]))
  }

  function Initial(payloads: seq<Decoded>, closed: bool): State {
    State(payloads, closed, Reading(0), [], [], [], Receiving, false, [], [], None, false, false, false, 0, None)
  }

  // ---- What the steps keep.

  /** The chunks among the payloads, in order. */
  function Chunks(payloads: seq<Decoded>): seq<Chunk> {
    if payloads == [] then []
    else Chunks(payloads[..|payloads| - 1])
         + match payloads[|payloads| - 1] case Delta(c) => [c] case _ => []
  }

  /** The chunks among channel messages, in order. */
  function Carried(messages: seq<Message>): seq<Chunk> {
    if messages == [] then []
    else Carried(messages[..|messages| - 1])
         + match messages[|messages| - 1] case Data(c) => [c] case Failure => []
  }

  function Outputs(chunks: seq<Chunk>): seq<Output> {
    if chunks == [] then [] else Outputs(chunks[..|chunks| - 1]) + [OutChunk(chunks[|chunks| - 1])]
  }

  function UsageOf(chunks: seq<Chunk>): Option<Chunk> {
    if chunks == [] then None else Kept(UsageOf(chunks[..|chunks| - 1]), chunks[|chunks| - 1])
  }

  predicate FaultFree(payloads: seq<Decoded>) {
    forall i :: 0 <= i < |payloads| ==> !payloads[i].Fault?
  }

  predicate AllData(messages: seq<Message>) {
    forall i :: 0 <= i < |messages| ==> messages[i].Data?
  }

  /** The producer's side: the channel carries the decoded chunks in order, and a
      failure is the last thing offered, with nothing but the close after it. */
  predicate ProducerInv(s: State) {
    && s.offered == s.taken + s.channel && |s.channel| <= CHANNEL_CAPACITY
    && match s.producer
       case Reading(next) =>
         && next <= |s.payloads| && FaultFree(s.payloads[..next])
         && AllData(s.offered) && Carried(s.offered) == Chunks(s.payloads[..next])
       case Offering(Data(c), next) =>
         && next <= |s.payloads| && FaultFree(s.payloads[..next])
         && AllData(s.offered) && Carried(s.offered) + [c] == Chunks(s.payloads[..next])
       case Offering(Failure, next) => AllData(s.offered) && !(s.closed && FaultFree(s.payloads))
       case Finished =>
         || (s.cancelled && AllData(s.offered))
         || (s.offered != [] && s.offered[|s.offered| - 1].Failure? && AllData(s.offered[..|s.offered| - 1])
             && !(s.closed && FaultFree(s.payloads)))
         || (s.closed && FaultFree(s.payloads) && AllData(s.offered) && Carried(s.offered) == Chunks(s.payloads))
  }

  predicate Undecided(s: State) {
    !s.completed && !s.failed && !s.aborted && s.priced == 0 && s.written == Outputs(s.consumed)
  }

  /** The consumer's side: everything taken so far was written, in order, until one
      of the three endings is decided; the price is charged on the way out. */
  predicate ConsumerInv(s: State) {
    && s.usage == UsageOf(s.consumed)
    && match s.consumer
       case Receiving => Undecided(s) && AllData(s.taken) && s.consumed == Carried(s.taken)
       case Holding(m) => Undecided(s) && s.taken != [] && s.taken[|s.taken| - 1] == m
                          && AllData(s.taken[..|s.taken| - 1]) && s.consumed == Carried(s.taken[..|s.taken| - 1])
       case Closing => Undecided(s) && AllData(s.taken) && s.consumed == Carried(s.taken)
                       && s.channel == [] && s.producer.Finished?
       case Draining => !s.completed && (s.failed != s.aborted) && s.priced == 0 && Ending(s)
       case Ended => OneEnding(s) && s.priced == 1 && s.billed == s.usage
                     && s.channel == [] && s.producer.Finished? && Ending(s)
  }

  predicate OneEnding(s: State) {
    || (s.completed && !s.failed && !s.aborted)
    || (!s.completed && s.failed && !s.aborted)
    || (!s.completed && !s.failed && s.aborted)
  }

  /** What the client has received once the ending is decided. */
  predicate Ending(s: State) {
    && (s.completed ==> s.closed && FaultFree(s.payloads) && s.consumed == Chunks(s.payloads)
                        && s.written == Outputs(s.consumed) + [OutDone])
    && (s.failed ==> !(s.closed && FaultFree(s.payloads))
                     && (s.written == Outputs(s.consumed) || s.written == Outputs(s.consumed) + [OutError]))
    && (s.aborted ==> s.written == Outputs(s.consumed)
                      || (s.consumed != [] && s.written == Outputs(s.consumed[..|s.consumed| - 1])))
  }

  predicate Inv(s: State) {
    ProducerInv(s) && ConsumerInv(s)
  }

  predicate IsProducer(e: Event) {
    e.Decode? || e.ReadCancelled? || e.EndOfStream? || e.Send? || e.DropOnCancel?
  }

  lemma OneMorePayload(payloads: seq<Decoded>, next: nat)
    requires next < |payloads|
    ensures FaultFree(payloads[..next + 1]) <==> FaultFree(payloads[..next]) && !payloads[next].Fault?
    ensures Chunks(payloads[..next + 1]) == Chunks(payloads[..next])
        + (if payloads[next].Delta? then [payloads[next].chunk] else [])
  {
    var longer := payloads[..next + 1];
    assert longer[..next] == payloads[..next] && longer[next] == payloads[next];
    assert FaultFree(longer) ==> forall i :: 0 <= i < next ==> payloads[..next][i] == longer[i];
  }

  lemma DecodeKeepsInv(s: State)
    requires ProducerInv(s) && Enabled(s, Decode)
    ensures ProducerInv(Step(s, Decode))
  {
    OneMorePayload(s.payloads, s.producer.next);
    assert s.payloads[s.producer.next].Fault? ==> !FaultFree(s.payloads);
  }

  lemma SendKeepsInv(s: State)
    requires ProducerInv(s) && Enabled(s, Send)
    ensures ProducerInv(Step(s, Send))
  {
    var m := s.producer.message;
    assert (s.offered + [m])[..|s.offered|] == s.offered;
    assert s.taken + s.channel + [m] == s.taken + (s.channel + [m]);
  }

  lemma StopKeepsInv(s: State, e: Event)
    requires ProducerInv(s) && Enabled(s, e) && (e.ReadCancelled? || e.EndOfStream? || e.DropOnCancel?)
    ensures ProducerInv(Step(s, e))
  {
    if e.EndOfStream? { assert s.payloads[..s.producer.next] == s.payloads; }
  }

  lemma ProducerStepKeepsInv(s: State, e: Event)
    requires Inv(s) && Enabled(s, e) && IsProducer(e)
    ensures Inv(Step(s, e))
  {
    match e {
      case Decode => DecodeKeepsInv(s);
      case Send => SendKeepsInv(s);
      case _ => StopKeepsInv(s, e);
    }
  }

  /** Taking a message off the channel leaves the producer's books alone. */
  lemma TakeKeepsOrder(s: State, t: State)
    requires ProducerInv(s) && s.channel != []
    requires t == s.(channel := s.channel[1..], taken := s.taken + [s.channel[0]], consumer := t.consumer)
    ensures ProducerInv(t) && t.taken[..|t.taken| - 1] == s.taken && t.taken[|s.taken|] == s.channel[0]
  {
    assert s.taken + s.channel == s.taken + [s.channel[0]] + s.channel[1..];
  }

  /** A failure taken off the channel was the last message of a stream cut short. */
  lemma FailureMeansCutShort(s: State)
    requires ProducerInv(s) && s.taken != [] && s.taken[|s.taken| - 1].Failure?
    ensures !(s.closed && FaultFree(s.payloads)) && s.producer.Finished? && s.channel == []
  {
    assert s.offered[|s.taken| - 1].Failure?;
  }

  lemma HandleDataKeepsInv(s: State, wrote: bool)
    requires Inv(s) && s.consumer.Holding? && s.consumer.message.Data? && !s.cancelled
    ensures Inv(Handled(s, wrote))
  {
    assert (s.consumed + [s.consumer.message.chunk])[..|s.consumed|] == s.consumed;
    assert AllData(s.taken);
  }

  lemma HandleKeepsInv(s: State, wrote: bool)
    requires Inv(s) && s.consumer.Holding?
    ensures Inv(Handled(s, wrote))
  {
    var init, m := s.taken[..|s.taken| - 1], s.consumer.message;
    if !s.cancelled {
      match m {
        case Failure => FailureMeansCutShort(s);
        case Data(c) => HandleDataKeepsInv(s, wrote);
      }
    }
  }

  lemma CloseKeepsInv(s: State, wrote: bool)
    requires Inv(s) && s.consumer.Closing?
    ensures Inv(Step(s, Close(wrote)))
  {
    assert s.offered == s.taken;
  }

  lemma TakeKeepsInv(s: State, e: Event)
    requires Inv(s) && Enabled(s, e) && (e.Receive? || e.Drain?)
    ensures Inv(Step(s, e))
  {
    TakeKeepsOrder(s, Step(s, e));
  }

  lemma LeaveKeepsInv(s: State, e: Event)
    requires Inv(s) && Enabled(s, e) && !IsProducer(e) && !e.Receive? && !e.Drain? && !e.Handle? && !e.Close?
    ensures Inv(Step(s, e))
  {
  }

  lemma ConsumerStepKeepsInv(s: State, e: Event)
    requires Inv(s) && Enabled(s, e) && !IsProducer(e)
    ensures Inv(Step(s, e))
  {
    match e {
      case Receive => TakeKeepsInv(s, e);
      case Drain => TakeKeepsInv(s, e);
      case Handle(wrote) => HandleKeepsInv(s, wrote);
      case Close(wrote) => CloseKeepsInv(s, wrote);
      case _ => LeaveKeepsInv(s, e);
    }
  }

  datatype Run = Start(payloads: seq<Decoded>, closed: bool) | Then(prefix: Run, event: Event)

  ghost function End(run: Run): Option<State> {
    match run
    case Start(payloads, closed) => Some(Initial(payloads, closed))
    case Then(prefix, e) =>
      match End(prefix)
      case None => None
      case Some(s) => if Enabled(s, e) then Some(Step(s, e)) else None
  }

  lemma {:induction false} RunKeepsInv(run: Run)
    requires End(run).Some?
    ensures Inv(End(run).value)
  {
    if run.Then? {
      RunKeepsInv(run.prefix);
      if IsProducer(run.event) {
        ProducerStepKeepsInv(End(run.prefix).value, run.event);
      } else {
        ConsumerStepKeepsInv(End(run.prefix).value, run.event);
      }
    }
  }

  // ---- What holds of every run.

  /** Only the last message ever offered can be a failure, and then the producer is done. */
  lemma FailureIsTheLastMessage(run: Run)
    requires End(run).Some? && End(run).value.offered != []
    ensures var s := End(run).value; var last := |s.offered| - 1;
            AllData(s.offered[..last]) && (s.offered[last].Failure? ==> s.producer.Finished?)
  {
    RunKeepsInv(run);
    FailureEndsProducer(End(run).value);
  }

  lemma FailureEndsProducer(s: State)
    requires ProducerInv(s) && s.offered != []
    ensures var last := |s.offered| - 1;
            AllData(s.offered[..last]) && (s.offered[last].Failure? ==> s.producer.Finished?)
  {
    var last := |s.offered| - 1;
    if AllData(s.offered) {
      assert s.offered[last].Data?;
      assert forall i :: 0 <= i < last ==> s.offered[..last][i] == s.offered[i];
    } else {
      assert s.producer.Finished?;
    }
  }

  /** A finished consumer ended in exactly one way, charged the price once, for the
      usage it kept, and left neither a message nor a running producer behind. */
  lemma EndsInExactlyOneWay(run: Run)
    requires End(run).Some? && End(run).value.consumer.Ended?
    ensures var s := End(run).value;
            && OneEnding(s) && s.priced == 1 && s.billed == UsageOf(s.consumed)
            && s.channel == [] && s.producer.Finished?
  {
    RunKeepsInv(run);
  }

  /** Completed means: the upstream closed properly, no payload was faulty, and the
      client got every chunk in order and then the closing marker. */
  lemma CompletedDeliversEverything(run: Run)
    requires End(run).Some? && End(run).value.completed
    ensures var s := End(run).value;
            && s.closed && FaultFree(s.payloads)
            && s.consumed == Chunks(s.payloads)
            && s.written == Outputs(Chunks(s.payloads)) + [OutDone]
  {
    RunKeepsInv(run);
  }

  /** And a proper upstream is only ever left incomplete by the client's side. */
  lemma ProperStreamsCompleteOrAbort(run: Run)
    requires End(run).Some? && End(run).value.consumer.Ended?
    requires End(run).value.closed && FaultFree(End(run).value.payloads)
    ensures End(run).value.completed <==> !End(run).value.aborted
  {
    RunKeepsInv(run);
  }

  /** Chunk k carries usage, at least as many output tokens as any, and more than any later one. */
  predicate LastMaximum(chunks: seq<Chunk>, k: int) {
    && 0 <= k < |chunks| && chunks[k].outputTokens.Some?
    && forall j :: 0 <= j < |chunks| && chunks[j].outputTokens.Some? ==>
         if j > k then chunks[j].outputTokens.value < chunks[k].outputTokens.value
         else chunks[j].outputTokens.value <= chunks[k].outputTokens.value
  }

  /** The usage kept has the most output tokens of all chunks consumed, and is the
      last to have that many; there is none only if no chunk carried usage. */
  lemma {:induction false} UsageIsMaximal(chunks: seq<Chunk>)
    ensures Billable(chunks, UsageOf(chunks))
  {
    if chunks != [] {
      var init, last := chunks[..|chunks| - 1], chunks[|chunks| - 1];
      UsageIsMaximal(init);
      KeptIsBillable(init, UsageOf(init), last);
      assert chunks == init + [last];
    }
  }

  /** The usage to bill for some chunks: none if none carries usage, else the last maximum. */
  ghost predicate Billable(chunks: seq<Chunk>, usage: Option<Chunk>) {
    if usage.None? then forall c :: c in chunks ==> c.outputTokens.None?
    else exists k :: LastMaximum(chunks, k) && chunks[k] == usage.value
  }

  lemma KeptIsBillable(chunks: seq<Chunk>, usage: Option<Chunk>, c: Chunk)
    requires Billable(chunks, usage)
    ensures Billable(chunks + [c], Kept(usage, c))
  {
    var all := chunks + [c];
    assert forall j :: 0 <= j < |chunks| ==> all[j] == chunks[j] && chunks[j] in chunks;
    if Kept(usage, c) == Some(c) && c.outputTokens.Some? {
      if usage.Some? { var k :| LastMaximum(chunks, k) && chunks[k] == usage.value; }
      assert LastMaximum(all, |chunks|);
    } else if usage.Some? {
      var k :| LastMaximum(chunks, k) && chunks[k] == usage.value;
      assert LastMaximum(all, k);
    }
  }

  datatype Outcome = ClientAbort | Completed | GatewayError | UpstreamError

  /** How the finished request is reported; every failure of a stream is the provider's. */
  function Classify(s: State): Outcome {
    if s.aborted then ClientAbort
    else if !s.failed && s.completed then Completed
    else if !s.failed then GatewayError
    else UpstreamError
  }

  lemma ClassificationAgreesWithEnding(run: Run)
    requires End(run).Some? && End(run).value.consumer.Ended?
    ensures var s := End(run).value;
            && (Classify(s) == Completed <==> s.completed) && (Classify(s) == UpstreamError <==> s.failed)
            && (Classify(s) == ClientAbort <==> s.aborted) && Classify(s) != GatewayError
  {
    RunKeepsInv(run);
  }

  // ---- A client that leaves.

  /** Where the run stood when the client left. */
  ghost function AtCancel(run: Run): Option<State> {
    match run
    case Start(_, _) => None
    case Then(prefix, e) => if e.Cancel? then End(prefix) else AtCancel(prefix)
  }

  /** From then on nothing more is written to the client, and the request neither
      completes nor fails any more. */
  lemma {:induction false} NothingAfterCancel(run: Run)
    requires End(run).Some?
    ensures End(run).value.cancelled <==> AtCancel(run).Some?
    ensures AtCancel(run).Some? ==>
              var (left, now) := (AtCancel(run).value, End(run).value);
              && now.written == left.written && now.consumed == left.consumed
              && now.completed == left.completed && now.failed == left.failed
  {
    if run.Then? {
      NothingAfterCancel(run.prefix);
      SilentStep(End(run.prefix).value, run.event);
    }
  }

  ghost predicate SameAnswer(s: State, t: State) {
    s.written == t.written && s.consumed == t.consumed && s.completed == t.completed && s.failed == t.failed
  }

  lemma SilentStep(s: State, e: Event)
    requires Enabled(s, e)
    ensures Step(s, e).cancelled == (s.cancelled || e.Cancel?)
    ensures s.cancelled || e.Cancel? ==> SameAnswer(s, Step(s, e))
  {
    if IsProducer(e) { SilentProducer(s, e); } else { SilentConsumer(s, e); }
  }

  lemma SilentProducer(s: State, e: Event)
    requires Enabled(s, e) && IsProducer(e)
    ensures Step(s, e).cancelled == s.cancelled && SameAnswer(s, Step(s, e))
  {
  }

  lemma SilentConsumer(s: State, e: Event)
    requires Enabled(s, e) && !IsProducer(e)
    ensures Step(s, e).cancelled == (s.cancelled || e.Cancel?)
    ensures s.cancelled || e.Cancel? ==> SameAnswer(s, Step(s, e))
  {
    match e
    case Handle(wrote) => assert s.cancelled ==> Handled(s, wrote) == s.(aborted := true, consumer := Draining);
    case Close(_) =>
    case _ =>
  }

  // ---- No deadlock, and every run ends.

  /** A step of the producer or the consumer that can be taken now. */
  function Progress(s: State): Event {
    match s.consumer
    case Holding(_) => Handle(true)
    case Closing => Close(true)
    case _ =>
      if s.channel != [] then (if s.consumer.Draining? then Drain else Receive)
      else
        match s.producer
        case Reading(next) => if next < |s.payloads| then Decode else EndOfStream
        case Offering(_, _) => Send
        case Finished => if s.consumer.Draining? then PriceAfterDrain else SeeClosed
  }

  /** Producer and consumer never wait for each other. */
  lemma NeverDeadlocks(run: Run)
    requires End(run).Some? && !End(run).value.consumer.Ended?
    ensures Enabled(End(run).value, Progress(End(run).value)) && !Progress(End(run).value).Cancel?
  {
  }

  function ProducerWork(s: State): nat
    requires s.producer.Finished? || s.producer.next <= |s.payloads|
  {
    match s.producer
    case Reading(next) => 4 * (|s.payloads| - next) + 4
    case Offering(Data(_), next) => 4 * (|s.payloads| - next) + 7
    case Offering(Failure, _) => 3
    case Finished => 0
  }

  /** Steps still possible, at most. */
  function Work(s: State): nat
    requires s.producer.Finished? || s.producer.next <= |s.payloads|
  {
    ProducerWork(s) + 2 * |s.channel| +
    match s.consumer
    case Holding(_) => 3
    case Receiving => 2
    case Closing => 1
    case Draining => 1
    case Ended => 0
  }

  predicate InBounds(s: State) {
    s.producer.Finished? || s.producer.next <= |s.payloads|
  }

  lemma ProducerStepsDoWork(s: State, e: Event)
    requires InBounds(s) && Enabled(s, e) && IsProducer(e)
    ensures InBounds(Step(s, e)) && Work(Step(s, e)) < Work(s)
  {
  }

  lemma ConsumerStepsDoWork(s: State, e: Event)
    requires InBounds(s) && Enabled(s, e) && !IsProducer(e) && !e.Cancel?
    ensures InBounds(Step(s, e)) && Work(Step(s, e)) < Work(s)
  {
  }

  lemma StepsDoWork(s: State, e: Event)
    requires InBounds(s) && Enabled(s, e)
    ensures InBounds(Step(s, e))
    ensures if e.Cancel? then Work(Step(s, e)) == Work(s) else Work(Step(s, e)) < Work(s)
  {
    if IsProducer(e) { ProducerStepsDoWork(s, e); } else if !e.Cancel? { ConsumerStepsDoWork(s, e); }
  }

  function StepsTaken(run: Run): nat {
    match run
    case Start(_, _) => 0
    case Then(prefix, e) => StepsTaken(prefix) + if e.Cancel? then 0 else 1
  }

  /** Whatever the interleaving, the two sides take at most so many steps; with no
      deadlock, every stream ends. */
  lemma {:induction false} RunsAreBounded(run: Run, payloads: seq<Decoded>, closed: bool)
    requires End(run).Some? && Origin(run) == (payloads, closed)
    ensures InBounds(End(run).value)
    ensures StepsTaken(run) + Work(End(run).value) <= 4 * |payloads| + 6
  {
    if run.Then? {
      RunsAreBounded(run.prefix, payloads, closed);
      StepsDoWork(End(run.prefix).value, run.event);
    }
  }

  function Origin(run: Run): (seq<Decoded>, bool) {
    match run
    case Start(payloads, closed) => (payloads, closed)
    case Then(prefix, _) => Origin(prefix)
  }
}
