/** What the last frame of an answer says about the stored message. */
module AnswerEnd {
  import opened Collections
  import opened Rows
  import opened AnswerStream

  predicate IsEnd(frames: seq<Frame>) {
    frames != [] && frames[|frames| - 1].MessageEnd?
  }

  /** The scan for stale messages fails a message that is still STREAMING. */
  predicate Hits(s: Stream, event: Event) {
    event.StaleScan? && s.message.status.Streaming?
  }

  predicate WasHit(s: Stream, run: seq<Event>) {
    run != [] && (WasHit(s, run[..|run| - 1]) || Hits(Run(s, run[..|run| - 1]), run[|run| - 1]))
  }

  /** The reason of the end frame that has been sent or is about to be. */
  function EndReason(s: Stream): Option<FinishReason> {
    if s.consumer.Reporting? && s.consumer.frame.MessageEnd? then Some(s.consumer.frame.reason)
    else if IsEnd(s.frames) then Some(s.frames[|s.frames| - 1].reason)
    else None
  }

  /** With an end frame the message is COMPLETED for that reason, unless the scan was first. */
  ghost predicate EndInv(s: Stream, hit: bool) {
    && s.evidence && (!s.consumer.Ended? ==> !IsEnd(s.frames))
    && (hit ==> s.message.status.FailedAnswer?)
    && (EndReason(s).Some? && !hit ==> s.message.status.CompletedAnswer? && s.message.reason == EndReason(s))
    && (!hit && (s.consumer.Starting? || s.consumer.Previewing? || s.consumer.Consuming? || s.consumer.Finishing?) ==>
          s.message.status.Streaming?)
  }

  lemma TakeEnd(s: Stream, hit: bool)
    requires EndInv(s, hit)
    ensures EndInv(ConsumerStep(s, Take), hit)
  {
  }

  lemma WriteEnd(s: Stream, hit: bool)
    requires EndInv(s, hit)
    ensures EndInv(WriteStep(s), hit)
  {
  }

  lemma NextEnd(s: Stream, event: Event, hit: bool)
    requires EndInv(s, hit)
    ensures EndInv(Next(s, event), hit || Hits(s, event))
  {
    match event {
      case Take => TakeEnd(s, hit);
      case Write => WriteEnd(s, hit);
      case _ =>
    }
  }

  lemma {:induction false} RunEnd(content: string, run: seq<Event>)
    ensures EndInv(Reached(true, content, run), WasHit(Start(true, content), run))
  {
    if run != [] {
      RunEnd(content, run[..|run| - 1]);
      NextEnd(Reached(true, content, run[..|run| - 1]), run[|run| - 1], WasHit(Start(true, content), run[..|run| - 1]));
    }
  }

  /** In every run with evidence: when `message_end` has been sent the message is COMPLETED, for the reason sent and with
      the text of the delta frames, if and only if no scan found it STREAMING; otherwise it is FAILED. */
  lemma EndFrameExactly(content: string, run: seq<Event>)
    requires IsEnd(Reached(true, content, run).frames)
    ensures var s := Reached(true, content, run);
            && (s.message.status.CompletedAnswer? <==> !WasHit(Start(true, content), run))
            && (s.message.status.FailedAnswer? <==> WasHit(Start(true, content), run))
            && (s.message.status.CompletedAnswer? ==>
                  s.message.reason == Some(s.frames[|s.frames| - 1].reason) && s.message.content == Concat(Texts(s.frames)))
  {
    RunEnd(content, run);
    if Reached(true, content, run).message.status.CompletedAnswer? {
      CompletedContent(content, run);
    }
  }

  ghost predicate Comes(s: Stream) {
    exists run :: Reached(true, "", run) == s
  }

  lemma ComesNext(s: Stream, event: Event) returns (t: Stream)
    requires Comes(s)
    ensures t == Next(s, event) && Comes(t)
  {
    var run :| Reached(true, "", run) == s;
    t := Next(s, event);
    assert (run + [event])[..|run + [event]| - 1] == run;
    assert Reached(true, "", run + [event]) == t;
  }

  /** The scan runs while the answer streams, and the normal end frame is sent all the same. */
  lemma EndAfterScan()
    ensures exists run :: IsEnd(Reached(true, "", run).frames) && Reached(true, "", run).message.status.FailedAnswer?
  {
    var s := Start(true, "");
    assert Reached(true, "", []) == s;
    s := ComesNext(s, Write);
    s := ComesNext(s, Write);
    s := ComesNext(s, StaleScan);
    EndsAfterHit(s);
  }

  lemma EndsAfterHit(before: Stream)
    requires Comes(before) && before.consumer.Consuming? && before.producer.Generating? && before.queue == []
             && !before.stop
    requires before.message.status.FailedAnswer?
    ensures exists run :: IsEnd(Reached(true, "", run).frames) && Reached(true, "", run).message.status.FailedAnswer?
  {
    var s := ComesNext(before, Finish);
    s := ComesNext(s, Look);
    s := ComesNext(s, Put);
    EndsAfterPut(s);
  }

  lemma EndsAfterPut(before: Stream)
    requires Comes(before) && before.consumer.Consuming? && before.queue == [EndOfStream]
    requires before.message.status.FailedAnswer?
    ensures exists run :: IsEnd(Reached(true, "", run).frames) && Reached(true, "", run).message.status.FailedAnswer?
  {
    var s := ComesNext(before, Take);
    s := ComesNext(s, Store);
    s := ComesNext(s, Write);
    assert IsEnd(s.frames);
  }
}
