/** The two goroutines of a streamed completion as code: the producer that turns
    decoded payloads into channel messages (internal/providers/openai/handler.go)
    and the handler that ranges over the channel, updates its request context and
    writes to the client (internal/server/chat.go). Each step is logged as an event
    of the stream protocol. */
module ChatStream {
  import opened Wrappers
  import opened StreamProtocol

  class Stream {
    const payloads: seq<Decoded>
    const closed: bool
    var cancelled: bool

    // How the client's connection takes each write, and the writes tried so far.
    const link: nat -> bool
    var attempts: nat

    // The channel and the producer at its other end.
    var channel: seq<Message>
    var producer: Producer

    // The request context, and what the client has received.
    var usage: Option<Chunk>
    var streamChunks: nat
    var streamAborted: bool
    var failed: bool
    var requestCompleted: bool
    var written: seq<Output>

    ghost var state: State
    ghost var run: Run

    ghost predicate Valid()
      reads this
    {
      && End(run) == Some(state) && InBounds(state)
      && state.payloads == payloads && state.closed == closed && state.cancelled == cancelled
      && state.channel == channel && state.producer == producer
      && state.usage == usage && |state.consumed| == streamChunks
      && state.aborted == streamAborted && state.failed == failed && state.completed == requestCompleted
      && state.written == written
      && (streamAborted ==> cancelled || Broke())
    }

    /** Some write to the client failed. */
    ghost predicate Broke()
      reads this`attempts
    {
      exists k: nat :: k < attempts && !link(k)
    }

    constructor (payloads: seq<Decoded>, closed: bool, link: nat -> bool)
      ensures Valid() && state == Initial(payloads, closed) && this.link == link
      ensures this.payloads == payloads && this.closed == closed && !cancelled && attempts == 0
    {
      this.payloads, this.closed, cancelled := payloads, closed, false;
      this.link, attempts := link, 0;
      channel, producer := [], Reading(0);
      usage, streamChunks, streamAborted, failed, requestCompleted, written := None, 0, false, false, false, [];
      state, run := Initial(payloads, closed), Start(payloads, closed);
    }

    ghost method Log(e: Event)
      requires End(run) == Some(state) && InBounds(state) && Enabled(state, e)
      modifies this`state, this`run
      ensures End(run) == Some(state) && InBounds(state)
      ensures state == Step(old(state), e)
      ensures if e.Cancel? then Work(state) == old(Work(state)) else Work(state) < old(Work(state))
    {
      StepsDoWork(state, e);
      state, run := Step(state, e), Then(run, e);
    }

    /** One step of the producer, which a cancellation may race. */
    method Produce()
      requires Valid() && !producer.Finished?
      requires producer.Offering? ==> cancelled || |channel| < CHANNEL_CAPACITY
      modifies this`channel, this`producer, this`state, this`run
      ensures Valid() && Work(state) < old(Work(state))
      ensures state.consumer == old(state.consumer) && state.taken == old(state.taken)
    {
      if producer.Reading? { ReadNext(producer.next); } else { Offer(producer.message, producer.next); }
    }

    /** Decode the next payload, or decide how the stream ended. */
    method ReadNext(next: nat)
      requires Valid() && producer == Reading(next)
      modifies this`producer, this`state, this`run
      ensures Valid() && Work(state) < old(Work(state))
      ensures state.consumer == old(state.consumer) && state.taken == old(state.taken)
    {
      var readFailed := *;
      if cancelled && readFailed {
        producer := Finished;
        Log(ReadCancelled);
      } else if next < |payloads| {
        producer := AfterDecoding(payloads[next], next + 1);
        Log(Decode);
      } else {
        EndStream(next);
      }
    }

    /** The stream is over: in order, or - unless the client left - cut short. */
    method EndStream(next: nat)
      requires Valid() && producer == Reading(next) && next >= |payloads|
      modifies this`producer, this`state, this`run
      ensures Valid() && Work(state) < old(Work(state))
      ensures state.consumer == old(state.consumer) && state.taken == old(state.taken)
    {
      producer := if cancelled || closed then Finished else Offering(Failure, next);
      Log(EndOfStream);
    }

    /** Send the message held, or drop it because the client is gone. */
    method Offer(message: Message, next: nat)
      requires Valid() && producer == Offering(message, next)
      requires cancelled || |channel| < CHANNEL_CAPACITY
      modifies this`channel, this`producer, this`state, this`run
      ensures Valid() && Work(state) < old(Work(state))
      ensures state.consumer == old(state.consumer) && state.taken == old(state.taken)
      ensures if state.offered == old(state.offered)
              then cancelled && producer.Finished? && channel == old(channel)
              else state.offered == old(state.offered) + [message] && channel == old(channel) + [message]
                   && producer == if message.Failure? then Finished else Reading(next)
    {
      var dropped := *;
      if cancelled && (dropped || |channel| >= CHANNEL_CAPACITY) {
        producer := Finished;
        Log(DropOnCancel);
      } else {
        Send(message, next);
      }
    }

    method Send(message: Message, next: nat)
      requires Valid() && producer == Offering(message, next) && |channel| < CHANNEL_CAPACITY
      modifies this`channel, this`producer, this`state, this`run
      ensures Valid() && Work(state) < old(Work(state))
      ensures state.consumer == old(state.consumer) && state.taken == old(state.taken)
      ensures state.offered == old(state.offered) + [message] && channel == old(channel) + [message]
      ensures producer == if message.Failure? then Finished else Reading(next)
    {
      channel := channel + [message];
      producer := if message.Failure? then Finished else Reading(next);
      Log(Event.Send);
    }

    /** What happens around the handler: the client may go away, the producer may
        take a step. */
    method Others()
      requires Valid()
      modifies this`channel, this`producer, this`cancelled, this`state, this`run
      ensures Valid() && Work(state) <= old(Work(state))
      ensures state.consumer == old(state.consumer) && state.taken == old(state.taken)
      ensures old(cancelled) ==> cancelled
      ensures old(producer.Finished? && channel == []) ==> producer.Finished? && channel == []
    {
      var gone := *;
      if gone && !cancelled {
        cancelled := true;
        Log(Cancel);
      }
      var produce := *;
      if produce && !producer.Finished? && (producer.Offering? ==> |channel| < CHANNEL_CAPACITY) {
        Produce();
      }
    }

    /** Block until the channel has a message or is closed. */
    method Await()
      requires Valid()
      modifies this`channel, this`producer, this`cancelled, this`state, this`run
      ensures Valid() && Work(state) <= old(Work(state))
      ensures state.consumer == old(state.consumer) && state.taken == old(state.taken)
      ensures channel != [] || producer.Finished?
    {
      Others();
      while channel == [] && !producer.Finished?
        invariant Valid() && Work(state) <= old(Work(state))
        invariant state.consumer == old(state.consumer) && state.taken == old(state.taken)
        decreases Work(state)
      {
        Produce();
        Others();
      }
    }

    /** Discard the rest of the stream until the producer closes the channel. */
    method AwaitStreamEnd()
      requires Valid() && state.consumer.Draining?
      modifies this`channel, this`producer, this`cancelled, this`state, this`run
      ensures Valid() && state.consumer.Draining? && channel == [] && producer.Finished?
    {
      Await();
      while channel != []
        invariant Valid() && state.consumer.Draining? && (channel != [] || producer.Finished?)
        decreases Work(state)
      {
        channel := channel[1..];
        Log(Drain);
        Await();
      }
    }

    /** The client write, which may fail. */
    method WriteSSE(out: Output) returns (ok: bool)
      modifies this`written, this`attempts
      ensures attempts == old(attempts) + 1 && ok == link(old(attempts))
      ensures written == if ok then old(written) + [out] else old(written)
      ensures old(Broke()) || !ok ==> Broke()
    {
      ok := link(attempts);
      attempts := attempts + 1;
      if ok { written := written + [out]; }
    }

    /** A stream that fails has the error as the last write tried, and - when the
        connection took it - as the last thing the client received. */
    ghost predicate ErrorIsLast()
      reads this`attempts, this`written
    {
      attempts > 0 && (link(attempts - 1) ==> written != [] && written[|written| - 1] == OutError)
    }

    /** One message: give up if the client is gone, pass an error on and stop, or
        keep the usage and write the chunk. */
    method HandleChunk(chunk: Message) returns (more: bool)
      requires Valid() && state.consumer == Holding(chunk)
      modifies this
      ensures Valid() && (if more then state.consumer.Receiving? && Work(state) < old(Work(state))
                          else state.consumer.Ended?)
      ensures failed ==> old(failed) || (!more && ErrorIsLast())
    {
      if cancelled {
        streamAborted := true;
        Log(Handle(false));
        StopEarly();
        return false;
      }
      match chunk
      case Failure =>
        PassError();
        more := false;
      case Data(c) =>
        more := PassChunk(c);
    }

    method PassError()
      requires Valid() && state.consumer == Holding(Failure) && !cancelled
      modifies this
      ensures Valid() && state.consumer.Ended? && ErrorIsLast()
    {
      SendError();
      StopEarly();
    }

    method SendError()
      requires Valid() && state.consumer == Holding(Failure) && !cancelled
      modifies this`written, this`attempts, this`failed, this`state, this`run
      ensures Valid() && state.consumer.Draining? && ErrorIsLast()
    {
      var wrote := WriteError();
      Log(Handle(wrote));
    }

    method WriteError() returns (wrote: bool)
      modifies this`written, this`attempts, this`failed
      ensures failed && ErrorIsLast() && (old(Broke()) ==> Broke())
      ensures written == old(written) + if wrote then [OutError] else []
    {
      wrote := WriteSSE(OutError);
      failed := true;
    }

    method PassChunk(c: Chunk) returns (more: bool)
      requires Valid() && state.consumer == Holding(Data(c)) && !cancelled
      modifies this
      ensures Valid() && (if more then state.consumer.Receiving? && Work(state) < old(Work(state))
                          else state.consumer.Ended?)
      ensures failed == old(failed)
    {
      more := Deliver(c);
      if !more { StopEarly(); }
    }

    /** Count and write the chunk; a write that fails aborts the stream. */
    method Deliver(c: Chunk) returns (wrote: bool)
      requires Valid() && state.consumer == Holding(Data(c)) && !cancelled
      modifies this`usage, this`streamChunks, this`written, this`attempts, this`streamAborted, this`state, this`run
      ensures Valid() && state.consumer == (if wrote then Receiving else Draining)
      ensures Work(state) < old(Work(state))
    {
      wrote := WriteChunk(c);
      Log(Handle(wrote));
    }

    method WriteChunk(c: Chunk) returns (wrote: bool)
      requires Valid()
      modifies this`usage, this`streamChunks, this`written, this`attempts, this`streamAborted
      ensures usage == Kept(old(usage), c) && streamChunks == old(streamChunks) + 1
      ensures written == old(written) + if wrote then [OutChunk(c)] else []
      ensures streamAborted == (old(streamAborted) || !wrote) && (streamAborted ==> cancelled || Broke())
    {
      TakeUsage(c);
      streamChunks := streamChunks + 1;
      wrote := WriteSSE(OutChunk(c));
      if !wrote { streamAborted := true; }
    }

    method TakeUsage(c: Chunk)
      requires End(run) == Some(state) && state.usage == usage
      modifies this`usage
      ensures usage == Kept(old(usage), c)
    {
      RunKeepsInv(run);
      UsageIsMaximal(state.consumed);
      KeepUsage(c, state.consumed);
    }

    /** The context always holds the usage to bill for the chunks so far. */
    method KeepUsage(c: Chunk, ghost chunks: seq<Chunk>)
      requires Billable(chunks, usage)
      modifies this`usage
      ensures Billable(chunks + [c], usage)
      ensures usage == Kept(old(usage), c)
    {
      KeptIsBillable(chunks, usage, c);
      if c.outputTokens.Some? {
        if usage.None? || usage.value.outputTokens.None?
           || c.outputTokens.value >= usage.value.outputTokens.value {
          usage := Some(c);
        }
      }
    }

    /** Let the producer finish, then charge the price. */
    method StopEarly()
      requires Valid() && state.consumer.Draining?
      modifies this`channel, this`producer, this`cancelled, this`state, this`run
      ensures Valid() && state.consumer.Ended?
    {
      AwaitStreamEnd();
      Log(PriceAfterDrain);
    }

    /** The channel closed: complete the stream unless the client is gone. */
    method Finish()
      requires Valid() && state.consumer.Closing?
      modifies this
      ensures Valid() && state.consumer.Ended? && failed == old(failed)
    {
      Others();
      if cancelled {
        streamAborted := true;
        Log(Close(false));
      } else {
        SendDone();
      }
    }

    method SendDone()
      requires Valid() && state.consumer.Closing? && !cancelled
      modifies this
      ensures Valid() && state.consumer.Ended? && failed == old(failed)
    {
      var wrote := WriteSSE(OutDone);
      if wrote { requestCompleted := true; } else { streamAborted := true; }
      Log(Close(wrote));
    }

    /** Take one message off the channel and handle it. */
    method Next() returns (more: bool)
      requires Valid() && state.consumer.Receiving? && channel != []
      modifies this
      ensures Valid() && (if more then state.consumer.Receiving? && Work(state) < old(Work(state))
                          else state.consumer.Ended?)
      ensures failed ==> old(failed) || (!more && ErrorIsLast())
    {
      var chunk := channel[0];
      channel := channel[1..];
      Log(Receive);
      Others();
      more := HandleChunk(chunk);
    }

    /** Range over the channel until a message ends the stream or the channel closes. */
    method Range()
      requires Valid() && state == Initial(payloads, closed)
      modifies this
      ensures Valid() && state.consumer.Ended? && (failed ==> ErrorIsLast())
    {
      Await();
      while channel != []
        invariant Valid() && state.consumer.Receiving? && (channel != [] || producer.Finished?)
        invariant !failed
        decreases Work(state)
      {
        var more := Next();
        if !more { return; }
        Await();
      }
      Log(SeeClosed);
      Finish();
    }

    /** The handler: however the stream, the client and the connection behave, it
        ends in exactly one of the three ways, with the price charged once. It gives
        up only on a client that left or a write that failed. */
    method ChatCompletion()
      requires Valid() && state == Initial(payloads, closed)
      modifies this
      ensures Valid() && state.consumer.Ended?
      ensures requestCompleted ==> written == Outputs(Chunks(payloads)) + [OutDone]
                                   && closed && FaultFree(payloads)
      ensures OneEnding(state) && Ending(state) && state.priced == 1 && state.billed == usage
      ensures streamAborted ==> cancelled || exists k: nat :: k < attempts && !link(k)
      ensures !cancelled && (forall k: nat :: k < attempts ==> link(k)) ==>
                requestCompleted == (closed && FaultFree(payloads)) && failed == !requestCompleted
      ensures failed ==> attempts > 0 && (link(attempts - 1) ==>
                written != [] && written[|written| - 1] == OutError)
    {
      Range();
      RunKeepsInv(run);
    }
  }
}
