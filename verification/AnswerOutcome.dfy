/** How an answer ends: the first of four events decides, and what it stores. */
module AnswerOutcome {
  import opened Collections
  import opened Rows
  import opened AnswerStream

  /** The events that end an answer. */
  datatype Cause =
    | ByScan     // the scan for stale messages finds it STREAMING
    | ByLeaving  // the client disconnects, or the consumer raises an exception, before the consumer has an outcome
    | ByFailing  // the consumer takes the failure of the generation
    | ByStoring  // the consumer has taken the end of the stream and completes the message

  function CauseOf(s: Stream, event: Event): Option<Cause> {
    if event == StaleScan && s.message.status == Streaming then Some(ByScan)
    else if event == Leave
            && (s.consumer == Starting || s.consumer == Previewing || s.consumer == Consuming || s.consumer == Finishing)
    then Some(ByLeaving)
    else if event == Take && s.consumer == Consuming && s.queue != [] && s.queue[0] == Failure then Some(ByFailing)
    else if event == Store && s.consumer == Finishing then Some(ByStoring)
    else None
  }

  /** The first such event of a run. */
  function FirstCause(s: Stream, run: seq<Event>): Option<Cause> {
    if run == [] then None
    else
      var before := FirstCause(s, run[..|run| - 1]);
      if before.Some? then before else CauseOf(Run(s, run[..|run| - 1]), run[|run| - 1])
  }

  /** The reason the model gave last; `stop` if it gave none. */
  function LastReason(deltas: seq<Delta>): FinishReason {
    if deltas == [] then Stop
    else if deltas[|deltas| - 1].reason.Some? then deltas[|deltas| - 1].reason.value
    else LastReason(deltas[..|deltas| - 1])
  }

  predicate HasOutcome(s: Stream) {
    s.consumer.Reporting? || s.consumer.Ended?
  }

  ghost predicate OutcomeInv(s: Stream, cause: Option<Cause>, content: string) {
    && s.evidence
    && match cause
       case None => s.message == Message(Streaming, None, content) && !HasOutcome(s)
       case Some(ByScan) => s.message == Message(FailedAnswer, Some(Error), content)
       case Some(ByFailing) => s.message == Message(FailedAnswer, Some(Error), content) && HasOutcome(s)
       case Some(ByLeaving) => s.message == Message(CancelledAnswer, Some(CancelledReason), content) && HasOutcome(s)
       case Some(ByStoring) => s.message.status == CompletedAnswer && s.message.reason == Some(s.reason) && HasOutcome(s)
  }

  function Later(before: Option<Cause>, s: Stream, event: Event): Option<Cause> {
    if before.Some? then before else CauseOf(s, event)
  }

  lemma TakeOutcome(s: Stream, cause: Option<Cause>, content: string)
    requires OutcomeInv(s, cause, content)
    ensures OutcomeInv(ConsumerStep(s, Take), Later(cause, s, Take), content)
  {
  }

  lemma NextOutcome(s: Stream, event: Event, cause: Option<Cause>, content: string)
    requires OutcomeInv(s, cause, content)
    ensures OutcomeInv(Next(s, event), Later(cause, s, event), content)
  {
    if event.Take? {
      TakeOutcome(s, cause, content);
    }
  }

  lemma {:induction false} RunOutcome(content: string, run: seq<Event>)
    ensures OutcomeInv(Reached(true, content, run), FirstCause(Start(true, content), run), content)
  {
    if run != [] {
      var front := run[..|run| - 1];
      RunOutcome(content, front);
      NextOutcome(Reached(true, content, front), run[|run| - 1], FirstCause(Start(true, content), front), content);
    }
  }

  // ---------------------------------------------------------------------------------------------
  // The reason
  // ---------------------------------------------------------------------------------------------

  lemma LastReasonAppend(items: seq<Item>, item: Item)
    ensures LastReason(Deltas(items + [item]))
            == if item.More? && item.delta.reason.Some? then item.delta.reason.value else LastReason(Deltas(items))
  {
    DeltasAppend(items, item);
    if item.More? {
      assert (Deltas(items) + [item.delta])[..|Deltas(items)|] == Deltas(items);
    }
  }

  ghost predicate ReasonInv(s: Stream) {
    s.reason == LastReason(Deltas(Taken(s)))
  }

  /** Only taking an item changes the reason or what has been taken. */
  lemma ReasonStays(s: Stream, event: Event)
    requires QueueInv(s) && !event.Take?
    ensures Next(s, event).reason == s.reason && Taken(Next(s, event)) == Taken(s)
  {
  }

  lemma TakeReason(s: Stream)
    requires StreamInv(s) && ReasonInv(s) && s.consumer.Consuming? && s.queue != []
    ensures ReasonInv(Act(TakeNext(s), s.queue[0]))
  {
    TakenQueue(s);
    ActSame(TakeNext(s), s.queue[0]);
    LastReasonAppend(Taken(s), s.queue[0]);
  }

  lemma {:induction false} RunReason(evidence: bool, content: string, run: seq<Event>)
    ensures ReasonInv(Reached(evidence, content, run))
  {
    if run != [] {
      var front, event := run[..|run| - 1], run[|run| - 1];
      var s := Reached(evidence, content, front);
      RunReason(evidence, content, front);
      RunKeeps(evidence, content, front);
      if !event.Take? {
        ReasonStays(s, event);
      } else if s.consumer.Consuming? && s.queue != [] {
        TakeReason(s);
      }
    }
  }

  // ---------------------------------------------------------------------------------------------
  // The outcome
  // ---------------------------------------------------------------------------------------------

  /** In every run with evidence the message is STREAMING until the first of the four events, and is from then on exactly
      what that event stores, whatever comes later. */
  lemma OutcomeExactly(content: string, run: seq<Event>)
    ensures var s := Reached(true, content, run);
            match FirstCause(Start(true, content), run)
            case None => s.message == Message(Streaming, None, content)
            case Some(ByScan) => s.message == Message(FailedAnswer, Some(Error), content)
            case Some(ByFailing) => s.message == Message(FailedAnswer, Some(Error), content)
            case Some(ByLeaving) => s.message == Message(CancelledAnswer, Some(CancelledReason), content)
            case Some(ByStoring) =>
              s.message == Message(CompletedAnswer, Some(LastReason(s.generated)), Concat(Texts(s.frames)))
  {
    RunOutcome(content, run);
    if Reached(true, content, run).message.status.CompletedAnswer? {
      CompletedContent(content, run);
      RunReason(true, content, run);
      RunKeeps(true, content, run);
      AllTaken(Reached(true, content, run));
    }
  }

  /** The end is the last item, or the one before the sentinel. */
  lemma EndIsLast(s: Stream)
    requires StreamInv(s) && TookEnd(s)
    ensures s.generated == Deltas(s.put)
    ensures s.taken == |s.put| || (s.taken == |s.put| - 1 && !s.put[|s.put| - 1].More?)
  {
  }

  lemma DeltasOfFront(items: seq<Item>, n: nat)
    requires n == |items| || (n == |items| - 1 && !items[|items| - 1].More?)
    ensures Deltas(items[..n]) == Deltas(items)
  {
    if n == |items| {
      assert items[..n] == items;
    }
  }

  /** When the end has been taken all deltas have. */
  lemma AllTaken(s: Stream)
    requires StreamInv(s) && TookEnd(s)
    ensures Deltas(Taken(s)) == s.generated
  {
    EndIsLast(s);
    DeltasOfFront(s.put, s.taken);
  }

  /** Once the consumer has come to its end, one of the four has happened. */
  lemma EndedHasCause(content: string, run: seq<Event>)
    requires Reached(true, content, run).consumer == Ended
    ensures FirstCause(Start(true, content), run) != None
  {
    RunOutcome(content, run);
  }

  // ---------------------------------------------------------------------------------------------
  // The last frame
  // ---------------------------------------------------------------------------------------------

  /** The consumer has taken the failure of the generation. */
  predicate TookFailure(s: Stream, run: seq<Event>) {
    run != [] && (TookFailure(s, run[..|run| - 1]) || CauseOf(Run(s, run[..|run| - 1]), run[|run| - 1]) == Some(ByFailing))
  }

  /** The consumer has come to completing the message. */
  predicate CameToStore(s: Stream, run: seq<Event>) {
    run != [] && (CameToStore(s, run[..|run| - 1]) || CauseOf(Run(s, run[..|run| - 1]), run[|run| - 1]) == Some(ByStoring))
  }

  /** The last frame that has been sent or is about to be. */
  function LastFrame(s: Stream): Option<Frame> {
    if s.consumer.Reporting? then Some(s.consumer.frame)
    else if s.frames != [] && (s.frames[|s.frames| - 1].MessageEnd? || s.frames[|s.frames| - 1].ErrorFrame?)
    then Some(s.frames[|s.frames| - 1])
    else None
  }

  ghost predicate FrameInv(s: Stream, failed: bool, stored: bool) {
    && s.evidence
    && (failed || stored ==> HasOutcome(s)) && !(failed && stored)
    && (LastFrame(s).Some? ==>
          && HasOutcome(s)
          && (failed || stored) && LastFrame(s).value == if failed then ErrorFrame else MessageEnd(s.reason))
    && (s.consumer.Reporting? ==> s.frames == [] || (!s.frames[|s.frames| - 1].MessageEnd? && !s.frames[|s.frames| - 1].ErrorFrame?))
  }

  lemma TakeFrame(s: Stream, failed: bool, stored: bool)
    requires FrameInv(s, failed, stored)
    ensures FrameInv(ConsumerStep(s, Take), failed || CauseOf(s, Take) == Some(ByFailing), stored)
  {
  }

  lemma NextFrame(s: Stream, event: Event, failed: bool, stored: bool)
    requires FrameInv(s, failed, stored) && !event.Take?
    ensures FrameInv(Next(s, event), failed, stored || CauseOf(s, event) == Some(ByStoring))
  {
  }

  lemma {:induction false} RunFrame(content: string, run: seq<Event>)
    ensures FrameInv(Reached(true, content, run), TookFailure(Start(true, content), run), CameToStore(Start(true, content), run))
  {
    if run != [] {
      var front, event := run[..|run| - 1], run[|run| - 1];
      var s, failed, stored :=
        Reached(true, content, front), TookFailure(Start(true, content), front), CameToStore(Start(true, content), front);
      RunFrame(content, front);
      if event.Take? {
        TakeFrame(s, failed, stored);
      } else {
        NextFrame(s, event, failed, stored);
      }
    }
  }

  /** In every run with evidence the frame that ends the stream is `error` exactly after the failure has been taken, and
      `message_end`, with the reason the model gave last, exactly after the consumer has come to completing the message. */
  lemma LastFrameExactly(content: string, run: seq<Event>)
    requires LastFrame(Reached(true, content, run)).Some?
    ensures var s, frame := Reached(true, content, run), LastFrame(Reached(true, content, run)).value;
            && (frame == ErrorFrame <==> TookFailure(Start(true, content), run))
            && (frame == MessageEnd(LastReason(Deltas(Taken(s)))) <==> CameToStore(Start(true, content), run))
  {
    RunFrame(content, run);
    RunReason(true, content, run);
  }

  /** The client goes away, or the last frame cannot be sent, when the consumer is about to send it. */
  predicate LeftReporting(s: Stream, run: seq<Event>) {
    run != [] && (LeftReporting(s, run[..|run| - 1])
                  || (run[|run| - 1] == Leave && Run(s, run[..|run| - 1]).consumer.Reporting?))
  }

  /** Once it has taken the failure or come to completing the message, the consumer sends its last frame unless the client
      goes away at that very moment. */
  lemma {:induction false} LastFrameComes(content: string, run: seq<Event>)
    requires TookFailure(Start(true, content), run) || CameToStore(Start(true, content), run)
    ensures LastFrame(Reached(true, content, run)).Some? || LeftReporting(Start(true, content), run)
  {
    var front, event := run[..|run| - 1], run[|run| - 1];
    var s := Reached(true, content, front);
    if TookFailure(Start(true, content), front) || CameToStore(Start(true, content), front) {
      LastFrameComes(content, front);
      if LastFrame(s).Some? && !LeftReporting(Start(true, content), run) {
        IsLastFrame(content, front);
        LastFrameStays(s, event);
      }
    } else {
      FrameOfCause(s, event);
    }
  }

  lemma IsLastFrame(content: string, run: seq<Event>)
    requires LastFrame(Reached(true, content, run)).Some?
    ensures var s := Reached(true, content, run);
            HasOutcome(s) && (LastFrame(s).value.MessageEnd? || LastFrame(s).value.ErrorFrame?)
  {
    RunFrame(content, run);
  }

  lemma FrameOfCause(s: Stream, event: Event)
    requires CauseOf(s, event) == Some(ByFailing) || CauseOf(s, event) == Some(ByStoring)
    ensures LastFrame(Next(s, event)).Some?
  {
    if event.Take? {
      TakenFailure(s);
    }
  }

  lemma TakenFailure(s: Stream)
    requires CauseOf(s, Take) == Some(ByFailing)
    ensures LastFrame(Next(s, Take)) == Some(ErrorFrame)
  {
  }

  lemma LastFrameStays(s: Stream, event: Event)
    requires LastFrame(s).Some? && HasOutcome(s)
    requires s.consumer.Reporting? ==> event != Leave && (s.consumer.frame.MessageEnd? || s.consumer.frame.ErrorFrame?)
    ensures LastFrame(Next(s, event)).Some?
  {
  }

  // ---------------------------------------------------------------------------------------------
  // What the model did
  // ---------------------------------------------------------------------------------------------

  /** The generation has come to this end while the thread was reading from the model. */
  predicate Happened(s: Stream, run: seq<Event>, event: Event) {
    run != [] && (Happened(s, run[..|run| - 1], event)
                  || (run[|run| - 1] == event && Run(s, run[..|run| - 1]).producer == Generating))
  }

  /** The item is on its way or has been put. */
  predicate Sent(s: Stream, item: Item) {
    s.producer == Offering(item) || s.producer == Putting(item) || item in s.put
  }

  lemma NextSent(s: Stream, event: Event, item: Item, cause: Event)
    requires (item == EndOfStream && cause == Finish) || (item == Failure && cause == Break)
    ensures Sent(Next(s, event), item) ==> Sent(s, item) || (event == cause && s.producer == Generating)
  {
  }

  /** `EndOfStream` is sent only after the model has finished, `Failure` only after it has failed. */
  lemma {:induction false} SentAfter(evidence: bool, content: string, run: seq<Event>, item: Item, cause: Event)
    requires (item == EndOfStream && cause == Finish) || (item == Failure && cause == Break)
    requires Sent(Reached(evidence, content, run), item)
    ensures Happened(Start(evidence, content), run, cause)
  {
    if run != [] {
      var front := run[..|run| - 1];
      NextSent(Reached(evidence, content, front), run[|run| - 1], item, cause);
      if Sent(Reached(evidence, content, front), item) {
        SentAfter(evidence, content, front, item, cause);
      }
    }
  }

  /** A completed answer is one the model has finished. */
  lemma CompletedIsFinished(content: string, run: seq<Event>)
    requires Reached(true, content, run).message.status == CompletedAnswer
    ensures Happened(Start(true, content), run, Finish)
  {
    RunKeeps(true, content, run);
    EvidenceStays(true, content, run);
    var s := Reached(true, content, run);
    assert s.put[s.taken - 1] == EndOfStream;
    SentAfter(true, content, run, EndOfStream, Finish);
  }

  /** The consumer takes a failure only if the generation has failed. */
  lemma {:induction false} TakenIsFailed(content: string, run: seq<Event>)
    requires TookFailure(Start(true, content), run)
    ensures Happened(Start(true, content), run, Break)
  {
    var front := run[..|run| - 1];
    if TookFailure(Start(true, content), front) {
      TakenIsFailed(content, front);
    } else {
      RunKeeps(true, content, front);
      var s := Reached(true, content, front);
      assert s.queue[0] == s.put[s.taken + s.dropped + 0];
      SentAfter(true, content, front, Failure, Break);
    }
  }

  // ---------------------------------------------------------------------------------------------
  // Without evidence
  // ---------------------------------------------------------------------------------------------

  /** Without evidence the message stays as it was completed before, and the frames are the two opening ones and
      `message_end` with `stop`. */
  lemma NoEvidence(content: string, run: seq<Event>)
    ensures var s := Reached(false, content, run);
            && s.message == Message(CompletedAnswer, Some(Stop), content)
            && s.frames <= [MessageStart, RetrievalDone, MessageEnd(Stop)]
            && s.generated == [] && s.put == []
  {
    NoEvidenceStage(content, run);
  }

  /** Where the consumer is tells which of these frames have been sent. */
  lemma {:induction false} NoEvidenceStage(content: string, run: seq<Event>)
    ensures var s := Reached(false, content, run);
            && !s.evidence && s.message == Message(CompletedAnswer, Some(Stop), content)
            && s.producer == Idle && s.generated == [] && s.put == [] && s.queue == []
            && match s.consumer
               case Starting => s.frames == []
               case Previewing => s.frames == [MessageStart]
               case Reporting(frame) => s.frames == [MessageStart, RetrievalDone] && frame == MessageEnd(Stop)
               case Ended => s.frames <= [MessageStart, RetrievalDone, MessageEnd(Stop)]
               case _ => false
  {
    if run != [] {
      NoEvidenceStage(content, run[..|run| - 1]);
    }
  }
}
