/** One streamed answer: the generation thread, the bounded queue, the consumer that writes frames, the
    client that may go away, and the scan for stale messages. */
module AnswerStream {
  import opened Collections
  import opened Rows

  const QUEUE_SIZE: nat := 8

  datatype MessageStatus = Streaming | CompletedAnswer | FailedAnswer | CancelledAnswer

  datatype FinishReason = Stop | Length | Error | CancelledReason

  datatype Message = Message(status: MessageStatus, reason: Option<FinishReason>, content: string)

  /** The one-way writer: only a message still STREAMING is rewritten. */
  function SetTerminal(m: Message, status: MessageStatus, reason: FinishReason, content: Option<string>): Message {
    if !m.status.Streaming? then m
    else Message(status, Some(reason), if content.Some? then content.value else m.content)
  }

  function Complete(m: Message, content: string, reason: FinishReason): Message {
    SetTerminal(m, CompletedAnswer, reason, Some(content))
  }

  function Fail(m: Message): Message {
    SetTerminal(m, FailedAnswer, Error, None)
  }

  function Cancel(m: Message): Message {
    SetTerminal(m, CancelledAnswer, CancelledReason, None)
  }

  /** A generation delta: text, or the finish reason of the last one. */
  datatype Delta = Delta(text: string, reason: Option<FinishReason>)

  datatype Item = More(delta: Delta) | EndOfStream | Failure | Sentinel

  datatype Producer =
    | Idle                  // the thread has not been started
    | Generating
    | Offering(item: Item)  // about to look at the stop flag
    | Putting(item: Item)   // saw the flag unset, waits for room in the queue
    | Closing               // leaving; puts a sentinel if the flag is set
    | Exited

  datatype Frame = MessageStart | RetrievalDone | DeltaFrame(text: string) | MessageEnd(reason: FinishReason) | ErrorFrame

  datatype Consumer =
    | Starting                 // its body has been entered: a generator that is never read from runs nothing at all
    | Previewing
    | Consuming
    | Finishing                // has taken the end of the stream, is about to complete the message
    | Reporting(frame: Frame)  // converged; has this last frame to send
    | Ended

  /** `collected` and `reason` are the consumer's variables, `stop` is the flag, and `blocked` says that an
      abandoned thread still waits for an item.  `generated` and `put` record what the generation thread got
      from the model and put into the queue; the consumer has taken the first `taken` of those items and
      the abandoned thread the next `dropped`. */
  datatype Stream = Stream(
    evidence: bool,
    message: Message,
    producer: Producer,
    queue: seq<Item>,
    stop: bool,
    blocked: bool,
    consumer: Consumer,
    collected: seq<string>,
    reason: FinishReason,
    frames: seq<Frame>,
    generated: seq<Delta>,
    put: seq<Item>,
    taken: nat,
    dropped: nat)

  datatype Event =
    | Generate(delta: Delta)  // the model yields a delta
    | Finish                  // the model has finished
    | Break                   // the generation fails, classified or not
    | Look                    // the thread looks at the stop flag
    | Put
    | TimeOut                 // the queue stayed full
    | Close                   // the thread leaves
    | Write                   // the consumer sends an opening frame or its last frame
    | Take                    // the consumer takes an item and acts on it
    | Store                   // the consumer completes the message
    | Leave                   // the client disconnects, or the consumer raises an exception
    | Release                 // the abandoned generator is finalised: the flag is set
    | Drop                    // the abandoned thread gets its item
    | StaleScan

  // ---------------------------------------------------------------------------------------------
  // Texts
  // ---------------------------------------------------------------------------------------------

  /** The texts of the deltas that become frames. */
  function Visible(deltas: seq<Delta>): seq<string> {
    if deltas == [] then []
    else
      var before := Visible(deltas[..|deltas| - 1]);
      var last := deltas[|deltas| - 1];
      if last.reason.Some? || last.text == "" then before else before + [last.text]
  }

  /** The texts of the delta frames. */
  function Texts(frames: seq<Frame>): seq<string> {
    if frames == [] then []
    else
      var before := Texts(frames[..|frames| - 1]);
      if frames[|frames| - 1].DeltaFrame? then before + [frames[|frames| - 1].text] else before
  }

  function Deltas(items: seq<Item>): seq<Delta> {
    if items == [] then []
    else
      var before := Deltas(items[..|items| - 1]);
      if items[|items| - 1].More? then before + [items[|items| - 1].delta] else before
  }

  // ---------------------------------------------------------------------------------------------
  // Steps
  // ---------------------------------------------------------------------------------------------

  /** A stream as it is set up; without evidence the message has been completed before. */
  function Start(evidence: bool, content: string): Stream {
    var message := if evidence then Message(Streaming, None, content) else Message(CompletedAnswer, Some(Stop), content);
    Stream(evidence, message, Idle, [], false, false, Starting, [], Stop, [], [], [], 0, 0)
  }

  function Enqueued(s: Stream, item: Item, next: Producer): Stream {
    s.(queue := s.queue + [item], put := s.put + [item], producer := next)
  }

  function ProducerStep(s: Stream, event: Event): Stream {
    match event
    case Generate(delta) =>
      if s.producer.Generating? then s.(producer := Offering(More(delta)), generated := s.generated + [delta]) else s
    case Finish => if s.producer.Generating? then s.(producer := Offering(EndOfStream)) else s
    case Break => if s.producer.Generating? then s.(producer := Offering(Failure)) else s
    case Look =>
      if !s.producer.Offering? then s
      else if s.stop then s.(producer := Closing) else s.(producer := Putting(s.producer.item))
    case Put =>
      if !s.producer.Putting? || |s.queue| >= QUEUE_SIZE then s
      else Enqueued(s, s.producer.item, if s.producer.item.More? then Generating else Closing)
    case TimeOut => if s.producer.Putting? then s.(producer := Offering(s.producer.item)) else s
    case Close =>
      if !s.producer.Closing? then s
      else if s.stop && |s.queue| < QUEUE_SIZE then Enqueued(s, Sentinel, Exited) else s.(producer := Exited)
    case _ => s
  }

  /** What the consumer does with an item it has taken. */
  function Act(s: Stream, item: Item): Stream {
    match item
    case More(delta) =>
      if delta.reason.Some? then s.(reason := delta.reason.value)
      else if delta.text == "" then s
      else s.(collected := s.collected + [delta.text], frames := s.frames + [DeltaFrame(delta.text)])
    case EndOfStream => s.(stop := true, consumer := Finishing)
    case Failure => s.(message := Fail(s.message), stop := true, consumer := Reporting(ErrorFrame))
    case Sentinel => s
  }

  function WriteStep(s: Stream): Stream {
    match s.consumer
    case Starting => s.(frames := s.frames + [MessageStart], consumer := Previewing)
    case Previewing =>
      var s1 := s.(frames := s.frames + [RetrievalDone]);
      if s.evidence then s1.(consumer := Consuming, producer := Generating) else s1.(consumer := Reporting(MessageEnd(Stop)))
    case Reporting(frame) => s.(frames := s.frames + [frame], consumer := Ended)
    case _ => s
  }

  function ConsumerStep(s: Stream, event: Event): Stream {
    match event
    case Write => WriteStep(s)
    case Take =>
      if !s.consumer.Consuming? || s.queue == [] then s
      else Act(s.(queue := s.queue[1..], taken := s.taken + 1), s.queue[0])
    case Store =>
      if !s.consumer.Finishing? then s
      else s.(message := Complete(s.message, Concat(s.collected), s.reason), consumer := Reporting(MessageEnd(s.reason)))
    case Leave =>
      if s.consumer.Ended? then s
      else if s.consumer.Reporting? then s.(consumer := Ended)
      else s.(message := Cancel(s.message), consumer := Ended, blocked := s.consumer.Consuming? && s.queue == [])
    case Release => if s.consumer.Ended? then s.(stop := true) else s
    case Drop =>
      if !s.blocked || s.queue == [] then s
      else s.(queue := s.queue[1..], dropped := s.dropped + 1, blocked := false)
    case _ => s
  }

  predicate OfProducer(event: Event) {
    event.Generate? || event.Finish? || event.Break? || event.Look? || event.Put? || event.TimeOut? || event.Close?
  }

  function Next(s: Stream, event: Event): Stream {
    if event.StaleScan? then s.(message := Fail(s.message))
    else if OfProducer(event) then ProducerStep(s, event)
    else ConsumerStep(s, event)
  }

  function Run(s: Stream, run: seq<Event>): Stream {
    if run == [] then s else Next(Run(s, run[..|run| - 1]), run[|run| - 1])
  }

  // ---------------------------------------------------------------------------------------------
  // The invariant
  // ---------------------------------------------------------------------------------------------

  predicate IsLastItem(item: Item) {
    item.EndOfStream? || item.Failure?
  }

  /** The queue is bounded and first in, first out. */
  ghost predicate QueueInv(s: Stream) {
    && |s.queue| <= QUEUE_SIZE && |s.put| == s.taken + s.dropped + |s.queue|
    && forall k :: 0 <= k < |s.queue| ==> s.queue[k] == s.put[s.taken + s.dropped + k]
  }

  /** The thread puts deltas, then at most one closing item, then at most one sentinel. */
  ghost predicate PutInv(s: Stream) {
    && (forall i :: 0 <= i < |s.put| - 2 ==> s.put[i].More?)
    && (|s.put| >= 2 && !s.put[|s.put| - 2].More? ==> IsLastItem(s.put[|s.put| - 2]) && s.put[|s.put| - 1].Sentinel?)
    && (s.put != [] && s.put[|s.put| - 1].Sentinel? ==> s.stop && s.producer.Exited?)
    && (s.producer.Closing? || s.producer.Exited? ==>
          s.stop || (s.put != [] && IsLastItem(s.put[|s.put| - 1])))
    && (!s.producer.Closing? && !s.producer.Exited? ==> s.put == [] || s.put[|s.put| - 1].More?)
    && (s.producer.Offering? || s.producer.Putting? ==> !s.producer.item.Sentinel?)
    && (s.producer.Idle? ==> s.put == [] && s.generated == [])
  }

  /** Nothing the model yields is lost or reordered before the stop flag is set. */
  ghost predicate GeneratedInv(s: Stream) {
    && Deltas(s.put) <= s.generated
    && (s.producer.Generating? ==> s.generated == Deltas(s.put))
    && (s.producer.Offering? || s.producer.Putting? ==>
          s.generated == Deltas(s.put) + if s.producer.item.More? then [s.producer.item.delta] else [])
    && (s.put != [] && IsLastItem(s.put[|s.put| - 1]) ==> s.generated == Deltas(s.put))
    && (|s.put| >= 2 && IsLastItem(s.put[|s.put| - 2]) ==> s.generated == Deltas(s.put))
  }

  /** The items the consumer has acted on. */
  function Taken(s: Stream): seq<Item> {
    if s.taken <= |s.put| then s.put[..s.taken] else s.put
  }

  /** The delta frames are those of the items taken, in order. */
  ghost predicate TextInv(s: Stream) {
    s.collected == Visible(Deltas(Taken(s))) && Texts(s.frames) == s.collected
  }

  /** The opening frames, then delta frames, then at most one last frame. */
  ghost predicate FramesInv(s: Stream) {
    && (forall i :: 0 <= i < |s.frames| ==> (s.frames[i].MessageStart? <==> i == 0))
    && (forall i :: 0 <= i < |s.frames| ==> (s.frames[i].RetrievalDone? <==> i == 1))
    && (forall i :: 0 <= i < |s.frames| - 1 ==> !s.frames[i].MessageEnd? && !s.frames[i].ErrorFrame?)
    && (s.consumer.Starting? ==> |s.frames| == 0)
    && (s.consumer.Previewing? ==> |s.frames| == 1)
    && (s.consumer.Consuming? || s.consumer.Finishing? || s.consumer.Reporting? ==> |s.frames| >= 2)
    && (!s.consumer.Ended? && s.frames != [] ==> !s.frames[|s.frames| - 1].MessageEnd? && !s.frames[|s.frames| - 1].ErrorFrame?)
    && (s.consumer.Reporting? ==> s.consumer.frame.MessageEnd? || s.consumer.frame.ErrorFrame?)
  }

  predicate TookEnd(s: Stream) {
    0 < s.taken <= |s.put| && s.put[s.taken - 1].EndOfStream?
  }

  /** Only the end of the stream leads to a completed message. */
  ghost predicate MessageInv(s: Stream) {
    && (s.consumer.Ended? || s.consumer.Reporting? ==> !s.message.status.Streaming?)
    && (s.message.status.Streaming? <==> s.message.reason.None?)
    && (s.consumer.Finishing? ==> s.evidence && TookEnd(s))
    && (s.evidence && s.message.status.CompletedAnswer? ==>
          && TookEnd(s) && s.message.content == Concat(s.collected) && s.message.reason == Some(s.reason)
          && (s.consumer.Reporting? || s.consumer.Ended?))
    && (!s.evidence ==> s.message.status.CompletedAnswer? && s.producer.Idle? && !s.consumer.Consuming?)
  }

  /** Who has stopped, and why. */
  ghost predicate FlagInv(s: Stream) {
    && (s.stop ==> s.consumer.Finishing? || s.consumer.Reporting? || s.consumer.Ended?)
    && (s.consumer.Starting? || s.consumer.Previewing? ==> s.producer.Idle?)
    && (s.consumer.Consuming? ==> !s.producer.Idle?)
    && (s.dropped > 0 || s.blocked ==> s.consumer.Ended?)
    && (s.consumer.Consuming? || s.blocked ==> forall i :: 0 <= i < s.taken && i < |s.put| ==> s.put[i].More?)
    && (s.blocked ==> s.dropped == 0)
  }

  /** An abandoned thread that still waits has something to wait for. */
  ghost predicate BlockedInv(s: Stream) {
    s.blocked && s.producer.Exited? ==> s.queue != []
  }

  ghost predicate StreamInv(s: Stream) {
    QueueInv(s) && PutInv(s) && GeneratedInv(s) && TextInv(s) && FramesInv(s) && MessageInv(s) && FlagInv(s)
    && BlockedInv(s)
  }

  lemma DeltasAppend(items: seq<Item>, item: Item)
    ensures Deltas(items + [item]) == Deltas(items) + if item.More? then [item.delta] else []
  {
    assert (items + [item])[..|items|] == items;
  }

  lemma VisibleAppend(deltas: seq<Delta>, delta: Delta)
    ensures Visible(deltas + [delta])
            == Visible(deltas) + if delta.reason.Some? || delta.text == "" then [] else [delta.text]
  {
    assert (deltas + [delta])[..|deltas|] == deltas;
  }

  lemma TextsAppend(frames: seq<Frame>, frame: Frame)
    ensures Texts(frames + [frame]) == Texts(frames) + if frame.DeltaFrame? then [frame.text] else []
  {
    assert (frames + [frame])[..|frames|] == frames;
  }

  // ---------------------------------------------------------------------------------------------
  // Every step keeps it
  // ---------------------------------------------------------------------------------------------

  /** The next item is put by a thread that has put only deltas, or is the sentinel of a leaving one. */
  ghost predicate MayPut(s: Stream, item: Item, next: Producer) {
    && |s.queue| < QUEUE_SIZE
    && ((s.producer == Putting(item) && next == (if item.More? then Generating else Closing))
        || (s.producer.Closing? && s.stop && item == Sentinel && next == Exited))
  }

  lemma EnqueuedPut(s: Stream, item: Item, next: Producer)
    requires PutInv(s) && MayPut(s, item, next)
    ensures PutInv(Enqueued(s, item, next))
  {
  }

  lemma EnqueuedQueue(s: Stream, item: Item, next: Producer)
    requires QueueInv(s) && |s.queue| < QUEUE_SIZE
    ensures QueueInv(Enqueued(s, item, next)) && Taken(Enqueued(s, item, next)) == Taken(s)
  {
  }

  lemma EnqueuedGenerated(s: Stream, item: Item, next: Producer)
    requires PutInv(s) && GeneratedInv(s) && MayPut(s, item, next)
    ensures GeneratedInv(Enqueued(s, item, next))
  {
    DeltasAppend(s.put, item);
  }

  lemma EnqueuedOthers(s: Stream, item: Item, next: Producer)
    requires QueueInv(s) && TextInv(s) && FramesInv(s) && MessageInv(s) && |s.queue| < QUEUE_SIZE
    requires !s.producer.Idle? && !next.Idle?
    ensures var e := Enqueued(s, item, next); TextInv(e) && FramesInv(e) && MessageInv(e)
  {
    EnqueuedQueue(s, item, next);
  }

  lemma EnqueuedFlag(s: Stream, item: Item, next: Producer)
    requires QueueInv(s) && FlagInv(s) && !s.producer.Idle? && !next.Idle?
    ensures FlagInv(Enqueued(s, item, next))
  {
  }

  lemma EnqueuedKeeps(s: Stream, item: Item, next: Producer)
    requires StreamInv(s) && MayPut(s, item, next)
    ensures StreamInv(Enqueued(s, item, next))
  {
    EnqueuedPut(s, item, next);
    EnqueuedQueue(s, item, next);
    EnqueuedGenerated(s, item, next);
    EnqueuedOthers(s, item, next);
    EnqueuedFlag(s, item, next);
  }

  /** A step that puts and takes nothing and leaves the thread where it is. */
  lemma SamePut(s: Stream, e: Stream)
    requires PutInv(s) && e.put == s.put && e.producer == s.producer && (s.stop ==> e.stop) && e.generated == s.generated
    ensures PutInv(e)
  {
  }

  lemma SameGenerated(s: Stream, e: Stream)
    requires GeneratedInv(s) && e.put == s.put && e.producer == s.producer && e.generated == s.generated
    ensures GeneratedInv(e)
  {
  }

  lemma SameQueue(s: Stream, e: Stream)
    requires QueueInv(s) && e.put == s.put && e.queue == s.queue && e.taken == s.taken && e.dropped == s.dropped
    ensures QueueInv(e)
  {
  }

  lemma SameText(s: Stream, e: Stream)
    requires TextInv(s) && Taken(e) == Taken(s) && e.collected == s.collected && Texts(e.frames) == Texts(s.frames)
    ensures TextInv(e)
  {
  }

  lemma SameFrames(s: Stream, e: Stream)
    requires FramesInv(s) && e.frames == s.frames && e.consumer == s.consumer
    ensures FramesInv(e)
  {
  }

  /** A step that touches neither the queue nor the thread nor the text. */
  lemma SameStream(s: Stream, e: Stream)
    requires StreamInv(s) && FramesInv(e) && MessageInv(e) && FlagInv(e) && BlockedInv(e)
    requires e.put == s.put && e.queue == s.queue && e.taken == s.taken && e.dropped == s.dropped
    requires e.producer == s.producer && e.generated == s.generated && (s.stop ==> e.stop)
    requires e.collected == s.collected && e.frames == s.frames
    ensures StreamInv(e)
  {
    SamePut(s, e);
    SameGenerated(s, e);
    SameQueue(s, e);
    assert Taken(e) == Taken(s);
    SameText(s, e);
  }

  /** The thread moves on without putting anything. */
  predicate Moves(event: Event) {
    OfProducer(event) && !event.Put? && !event.Close?
  }

  lemma MovesSame(s: Stream, event: Event)
    requires Moves(event)
    ensures var e := ProducerStep(s, event);
            && e.put == s.put && e.queue == s.queue && e.taken == s.taken && e.dropped == s.dropped
            && e.collected == s.collected && e.frames == s.frames && e.consumer == s.consumer && Taken(e) == Taken(s)
  {
  }

  lemma ProducerMoves(s: Stream, event: Event)
    requires StreamInv(s) && Moves(event)
    ensures StreamInv(ProducerStep(s, event))
  {
    MovesSame(s, event);
    SameQueue(s, ProducerStep(s, event));
    SameText(s, ProducerStep(s, event));
    SameFrames(s, ProducerStep(s, event));
    MovesPut(s, event);
    MovesGenerated(s, event);
    MovesMessage(s, event);
    MovesFlag(s, event);
  }

  lemma MovesPut(s: Stream, event: Event)
    requires PutInv(s) && Moves(event)
    ensures PutInv(ProducerStep(s, event))
  {
  }

  lemma MovesGenerated(s: Stream, event: Event)
    requires PutInv(s) && GeneratedInv(s) && Moves(event)
    ensures GeneratedInv(ProducerStep(s, event))
  {
  }

  lemma MovesMessage(s: Stream, event: Event)
    requires MessageInv(s) && Moves(event)
    ensures MessageInv(ProducerStep(s, event))
  {
  }

  lemma MovesFlag(s: Stream, event: Event)
    requires FlagInv(s) && BlockedInv(s) && Moves(event)
    ensures FlagInv(ProducerStep(s, event)) && BlockedInv(ProducerStep(s, event))
  {
  }

  lemma ProducerKeeps(s: Stream, event: Event)
    requires StreamInv(s) && OfProducer(event)
    ensures StreamInv(ProducerStep(s, event))
  {
    if event.Put? && s.producer.Putting? && |s.queue| < QUEUE_SIZE {
      EnqueuedKeeps(s, s.producer.item, if s.producer.item.More? then Generating else Closing);
    } else if event.Close? && s.producer.Closing? && s.stop && |s.queue| < QUEUE_SIZE {
      EnqueuedKeeps(s, Sentinel, Exited);
    } else if event.Close? && s.producer.Closing? {
      LeaveKeeps(s);
    } else if !event.Put? && !event.Close? {
      ProducerMoves(s, event);
    }
  }

  lemma LeavePut(s: Stream)
    requires PutInv(s) && s.producer.Closing?
    ensures PutInv(s.(producer := Exited))
  {
  }

  lemma LeaveGenerated(s: Stream)
    requires GeneratedInv(s) && s.producer.Closing?
    ensures GeneratedInv(s.(producer := Exited))
  {
  }

  /** A thread that leaves without a sentinel has left something else in the queue. */
  lemma LeaveBlocked(s: Stream)
    requires QueueInv(s) && PutInv(s) && FlagInv(s) && s.producer.Closing? && (s.stop ==> |s.queue| >= QUEUE_SIZE)
    ensures BlockedInv(s.(producer := Exited))
  {
  }

  lemma LeaveKeeps(s: Stream)
    requires StreamInv(s) && s.producer.Closing? && (s.stop ==> |s.queue| >= QUEUE_SIZE)
    ensures StreamInv(s.(producer := Exited))
  {
    LeaveBlocked(s);
    var e := s.(producer := Exited);
    LeavePut(s);
    LeaveGenerated(s);
    SameQueue(s, e);
    assert Taken(e) == Taken(s);
    SameText(s, e);
    SameFrames(s, e);
  }

  function TakeNext(s: Stream): Stream
    requires s.queue != []
  {
    s.(queue := s.queue[1..], taken := s.taken + 1)
  }

  lemma TakenQueue(s: Stream)
    requires QueueInv(s) && s.dropped == 0 && s.queue != []
    ensures s.taken < |s.put| && s.put[s.taken] == s.queue[0]
    ensures QueueInv(TakeNext(s)) && Taken(TakeNext(s)) == Taken(s) + [s.queue[0]]
  {
  }

  /** The sentinel is put only after the flag is set, so a consumer that still runs never takes it. */
  lemma TakenItem(s: Stream)
    requires PutInv(s) && FlagInv(s) && s.consumer.Consuming? && s.taken < |s.put|
    ensures !s.put[s.taken].Sentinel?
  {
  }

  lemma ActSame(s: Stream, item: Item)
    ensures var e := Act(s, item);
            && e.put == s.put && e.queue == s.queue && e.taken == s.taken && e.dropped == s.dropped
            && e.producer == s.producer && e.generated == s.generated && (s.stop ==> e.stop) && Taken(e) == Taken(s)
  {
  }

  /** What acting on an item adds to the text. */
  function Shown(item: Item): seq<string> {
    if item.More? && item.delta.reason.None? && item.delta.text != "" then [item.delta.text] else []
  }

  lemma ActText(s: Stream, item: Item)
    ensures Act(s, item).collected == s.collected + Shown(item)
    ensures Texts(Act(s, item).frames) == Texts(s.frames) + Shown(item)
  {
    if item.More? {
      TextsAppend(s.frames, DeltaFrame(item.delta.text));
    }
  }

  lemma VisibleItem(items: seq<Item>, item: Item)
    ensures Visible(Deltas(items + [item])) == Visible(Deltas(items)) + Shown(item)
  {
    DeltasAppend(items, item);
    if item.More? {
      VisibleAppend(Deltas(items), item.delta);
    } else {
      assert Deltas(items) + [] == Deltas(items);
    }
  }

  lemma TakeText(s: Stream)
    requires TextInv(s) && s.queue != [] && Taken(TakeNext(s)) == Taken(s) + [s.queue[0]]
    ensures TextInv(Act(TakeNext(s), s.queue[0]))
  {
    ActSame(TakeNext(s), s.queue[0]);
    ActText(TakeNext(s), s.queue[0]);
    VisibleItem(Taken(s), s.queue[0]);
  }

  lemma TakeFrames(s: Stream)
    requires FramesInv(s) && s.consumer.Consuming? && s.queue != []
    ensures FramesInv(Act(TakeNext(s), s.queue[0]))
  {
  }

  lemma TakeMessage(s: Stream)
    requires MessageInv(s) && s.consumer.Consuming? && s.queue != [] && !s.queue[0].Sentinel?
    requires s.taken < |s.put| && s.put[s.taken] == s.queue[0]
    ensures MessageInv(Act(TakeNext(s), s.queue[0]))
  {
  }

  lemma TakeFlag(s: Stream)
    requires FlagInv(s) && s.consumer.Consuming? && s.queue != [] && !s.queue[0].Sentinel?
    requires s.taken < |s.put| && s.put[s.taken] == s.queue[0]
    ensures FlagInv(Act(TakeNext(s), s.queue[0])) && BlockedInv(Act(TakeNext(s), s.queue[0]))
  {
  }

  lemma TakePut(s: Stream)
    requires PutInv(s) && GeneratedInv(s) && s.queue != [] && QueueInv(TakeNext(s))
    ensures var e := Act(TakeNext(s), s.queue[0]); QueueInv(e) && PutInv(e) && GeneratedInv(e)
  {
    var e := Act(TakeNext(s), s.queue[0]);
    ActSame(TakeNext(s), s.queue[0]);
    SamePut(s, e);
    SameGenerated(s, e);
    SameQueue(TakeNext(s), e);
  }

  lemma TakeKeeps(s: Stream)
    requires StreamInv(s) && s.consumer.Consuming? && s.queue != []
    ensures StreamInv(ConsumerStep(s, Take))
  {
    TakenQueue(s);
    TakenItem(s);
    TakeText(s);
    TakeFrames(s);
    TakeMessage(s);
    TakeFlag(s);
    TakePut(s);
  }

  lemma WriteFrames(s: Stream)
    requires FramesInv(s)
    ensures FramesInv(WriteStep(s))
  {
  }

  /** The frames of `Write` carry no text. */
  lemma WriteTexts(s: Stream)
    requires s.consumer.Reporting? ==> !s.consumer.frame.DeltaFrame?
    ensures Texts(WriteStep(s).frames) == Texts(s.frames)
  {
    match s.consumer
    case Starting => TextsAppend(s.frames, MessageStart);
    case Previewing => TextsAppend(s.frames, RetrievalDone);
    case Reporting(frame) => TextsAppend(s.frames, frame);
    case _ =>
  }

  lemma WriteSame(s: Stream)
    ensures var e := WriteStep(s);
            && e.put == s.put && e.queue == s.queue && e.taken == s.taken && e.dropped == s.dropped
            && e.generated == s.generated && e.stop == s.stop && e.blocked == s.blocked && e.collected == s.collected
            && (e.producer == s.producer || (s.consumer.Previewing? && e.producer.Generating?))
            && Taken(e) == Taken(s)
  {
  }

  /** A step that leaves the queue alone and at most starts the thread. */
  lemma SameThread(s: Stream, e: Stream)
    requires QueueInv(s) && PutInv(s) && GeneratedInv(s)
    requires e.put == s.put && e.queue == s.queue && e.taken == s.taken && e.dropped == s.dropped
    requires e.generated == s.generated && e.stop == s.stop
    requires e.producer == s.producer || (s.producer.Idle? && e.producer.Generating?)
    ensures QueueInv(e) && PutInv(e) && GeneratedInv(e)
  {
    SameQueue(s, e);
    if e.producer == s.producer {
      SamePut(s, e);
      SameGenerated(s, e);
    } else {
      assert s.put == [];
    }
  }

  lemma WriteMessage(s: Stream)
    requires MessageInv(s)
    ensures MessageInv(WriteStep(s))
  {
  }

  lemma WriteFlag(s: Stream)
    requires FlagInv(s) && BlockedInv(s) && (s.producer.Idle? ==> s.put == [])
    ensures FlagInv(WriteStep(s)) && BlockedInv(WriteStep(s))
  {
  }

  lemma WriteKeeps(s: Stream)
    requires StreamInv(s)
    ensures StreamInv(ConsumerStep(s, Write))
  {
    WriteSame(s);
    SameThread(s, WriteStep(s));
    WriteTexts(s);
    SameText(s, WriteStep(s));
    WriteFrames(s);
    WriteMessage(s);
    WriteFlag(s);
  }

  /** The consumer stores, leaves or is finalised. */
  lemma EndKeeps(s: Stream, event: Event)
    requires StreamInv(s) && (event.Store? || event.Leave? || event.Release?)
    ensures StreamInv(ConsumerStep(s, event))
  {
    EndSame(s, event);
    EndFrames(s, event);
    EndMessage(s, event);
    EndFlag(s, event);
    EndBlocked(s, event);
    SameStream(s, ConsumerStep(s, event));
  }

  lemma EndSame(s: Stream, event: Event)
    requires event.Store? || event.Leave? || event.Release?
    ensures var e := ConsumerStep(s, event);
            && e.put == s.put && e.queue == s.queue && e.taken == s.taken && e.dropped == s.dropped
            && e.producer == s.producer && e.generated == s.generated && (s.stop ==> e.stop)
            && e.collected == s.collected && e.frames == s.frames
  {
  }

  lemma EndFrames(s: Stream, event: Event)
    requires FramesInv(s) && (event.Store? || event.Leave? || event.Release?)
    ensures FramesInv(ConsumerStep(s, event))
  {
  }

  lemma EndMessage(s: Stream, event: Event)
    requires MessageInv(s) && (event.Store? || event.Leave? || event.Release?)
    ensures MessageInv(ConsumerStep(s, event))
  {
  }

  lemma EndFlag(s: Stream, event: Event)
    requires FlagInv(s) && (event.Store? || event.Leave? || event.Release?)
    ensures FlagInv(ConsumerStep(s, event))
  {
  }

  lemma EndBlocked(s: Stream, event: Event)
    requires QueueInv(s) && PutInv(s) && FlagInv(s) && BlockedInv(s) && (event.Store? || event.Leave? || event.Release?)
    ensures BlockedInv(ConsumerStep(s, event))
  {
    if event.Leave? && s.consumer.Consuming? && s.queue == [] {
      assert s.taken == |s.put|;
    }
  }

  lemma DropKeeps(s: Stream)
    requires StreamInv(s) && s.blocked && s.queue != []
    ensures StreamInv(ConsumerStep(s, Drop))
  {
    var e := ConsumerStep(s, Drop);
    DropQueue(s);
    SamePut(s, e);
    SameGenerated(s, e);
    assert Taken(e) == Taken(s);
    SameText(s, e);
    SameFrames(s, e);
  }

  lemma DropQueue(s: Stream)
    requires QueueInv(s) && s.blocked && s.queue != []
    ensures QueueInv(ConsumerStep(s, Drop))
  {
  }

  lemma ScanKeeps(s: Stream)
    requires StreamInv(s)
    ensures StreamInv(s.(message := Fail(s.message)))
  {
    SameStream(s, s.(message := Fail(s.message)));
  }

  lemma NextKeeps(s: Stream, event: Event)
    requires StreamInv(s)
    ensures StreamInv(Next(s, event))
  {
    if OfProducer(event) {
      ProducerKeeps(s, event);
    } else {
      match event
      case StaleScan => ScanKeeps(s);
      case Write => WriteKeeps(s);
      case Take => if s.consumer.Consuming? && s.queue != [] { TakeKeeps(s); }
      case Drop => if s.blocked && s.queue != [] { DropKeeps(s); }
      case _ => EndKeeps(s, event);
    }
  }

  lemma StartInv(evidence: bool, content: string)
    ensures StreamInv(Start(evidence, content))
  {
  }

  lemma {:induction false} RunKeeps(evidence: bool, content: string, run: seq<Event>)
    ensures StreamInv(Run(Start(evidence, content), run))
  {
    if run == [] {
      StartInv(evidence, content);
    } else {
      RunKeeps(evidence, content, run[..|run| - 1]);
      NextKeeps(Run(Start(evidence, content), run[..|run| - 1]), run[|run| - 1]);
    }
  }

  // ---------------------------------------------------------------------------------------------
  // What holds in every run
  // ---------------------------------------------------------------------------------------------

  function Reached(evidence: bool, content: string, run: seq<Event>): Stream {
    Run(Start(evidence, content), run)
  }

  lemma {:induction false} DeltasPrefix(a: seq<Item>, b: seq<Item>)
    ensures Deltas(a) <= Deltas(a + b)
  {
    if b == [] {
      assert a + b == a;
    } else {
      DeltasPrefix(a, b[..|b| - 1]);
      assert (a + b)[..|a + b| - 1] == a + b[..|b| - 1];
    }
  }

  /** The queue never holds more than eight items, and what the consumer has seen is a prefix of what the
      model yielded, in order; its delta frames are exactly the visible texts of that prefix. */
  lemma Delivery(evidence: bool, content: string, run: seq<Event>)
    ensures var s := Reached(evidence, content, run);
            && |s.queue| <= 8
            && Deltas(Taken(s)) <= s.generated
            && Texts(s.frames) == Visible(Deltas(Taken(s)))
  {
    RunKeeps(evidence, content, run);
    var s := Reached(evidence, content, run);
    DeltasPrefix(Taken(s), s.put[s.taken..]);
    assert Taken(s) + s.put[s.taken..] == s.put;
  }

  /** However a started stream is left, its message is terminal. */
  lemma EveryExitIsTerminal(evidence: bool, content: string, run: seq<Event>)
    requires Reached(evidence, content, run).consumer.Ended?
    ensures !Reached(evidence, content, run).message.status.Streaming?
  {
    RunKeeps(evidence, content, run);
  }

  /** The first terminal writer wins for ever. */
  lemma {:induction false} FirstWriterWins(s: Stream, run: seq<Event>)
    requires !s.message.status.Streaming?
    ensures Run(s, run).message == s.message
  {
    if run != [] {
      FirstWriterWins(s, run[..|run| - 1]);
      TerminalStays(Run(s, run[..|run| - 1]), run[|run| - 1]);
    }
  }

  lemma TerminalStays(s: Stream, event: Event)
    requires !s.message.status.Streaming?
    ensures Next(s, event).message == s.message
  {
  }

  /** A completed answer holds the delta frames that were sent, joined, and they are all the visible text
      the model yielded. */
  lemma CompletedContent(content: string, run: seq<Event>)
    requires Reached(true, content, run).message.status.CompletedAnswer?
    ensures var s := Reached(true, content, run);
            && s.message.content == Concat(Texts(s.frames)) && Texts(s.frames) == Visible(s.generated)
  {
    RunKeeps(true, content, run);
    EvidenceStays(true, content, run);
    var s := Reached(true, content, run);
    assert s.taken == |s.put| || s.taken == |s.put| - 1;
    if s.taken == |s.put| {
      assert Taken(s) == s.put;
    } else {
      assert s.put == Taken(s) + [s.put[|s.put| - 1]];
      DeltasAppend(Taken(s), s.put[|s.put| - 1]);
    }
  }

  lemma NextEvidence(s: Stream, event: Event)
    ensures Next(s, event).evidence == s.evidence
  {
  }

  lemma {:induction false} EvidenceStays(evidence: bool, content: string, run: seq<Event>)
    ensures Reached(evidence, content, run).evidence == evidence
  {
    if run != [] {
      EvidenceStays(evidence, content, run[..|run| - 1]);
      NextEvidence(Reached(evidence, content, run[..|run| - 1]), run[|run| - 1]);
    }
  }

  /** The frames are `message_start`, `retrieval_done`, deltas, and at most one last frame. */
  lemma FrameOrder(evidence: bool, content: string, run: seq<Event>, i: nat)
    requires i < |Reached(evidence, content, run).frames|
    ensures var frames := Reached(evidence, content, run).frames;
            && (frames[i].MessageStart? <==> i == 0) && (frames[i].RetrievalDone? <==> i == 1)
            && (frames[i].MessageEnd? || frames[i].ErrorFrame? ==> i == |frames| - 1)
            && (2 <= i < |frames| - 1 ==> frames[i].DeltaFrame?)
  {
    RunKeeps(evidence, content, run);
  }

  /** A consumer that waits on an empty queue waits for a thread that will still put something. */
  lemma NeverHangs(evidence: bool, content: string, run: seq<Event>)
    requires Reached(evidence, content, run).consumer.Consuming? && Reached(evidence, content, run).queue == []
    ensures var p := Reached(evidence, content, run).producer; p.Generating? || p.Offering? || p.Putting?
  {
    RunKeeps(evidence, content, run);
    var s := Reached(evidence, content, run);
    assert s.taken == |s.put|;
  }

  /** An abandoned thread that waits for an item gets one: when the generation thread has left, the queue is
      not empty. */
  lemma NoThreadStaysBlocked(evidence: bool, content: string, run: seq<Event>)
    requires Reached(evidence, content, run).blocked && Reached(evidence, content, run).producer.Exited?
    ensures Reached(evidence, content, run).queue != []
  {
    RunKeeps(evidence, content, run);
  }

  /** How many more steps of its own the generation thread can take once the flag is set. */
  function Rank(p: Producer): nat {
    match p
    case Idle => 0
    case Putting(_) => 4
    case Generating => 3
    case Offering(_) => 2
    case Closing => 1
    case Exited => 0
  }

  /** Once the flag is set every step the thread takes brings it closer to its end. */
  lemma ThreadWindsDown(s: Stream, event: Event)
    requires s.stop && OfProducer(event) && ProducerStep(s, event) != s
    ensures Rank(ProducerStep(s, event).producer) < Rank(s.producer) && ProducerStep(s, event).stop
  {
  }

  /** And it can always go on: when the queue stays full or the model fails, four steps are enough. */
  lemma ThreadEnds(s: Stream)
    requires s.stop && !s.producer.Idle?
    ensures Next(Next(Next(Next(s, TimeOut), Break), Look), Close).producer.Exited?
  {
    var s1 := Next(Next(s, TimeOut), Break);
    assert s1.stop && (s1.producer.Offering? || s1.producer.Closing? || s1.producer.Exited?);
  }

  /** An item goes into the queue exactly when there are fewer than eight; then it is the last one. */
  lemma PutExactly(s: Stream, item: Item)
    requires s.producer == Putting(item)
    ensures Next(s, Put) != s <==> |s.queue| < 8
    ensures |s.queue| < 8 ==> Next(s, Put).queue == s.queue + [item] && Next(s, Put).put == s.put + [item]
  {
    assert |Next(s, Put).queue| == if |s.queue| < 8 then |s.queue| + 1 else |s.queue|;
  }

  /** A client that goes away leaves a reader thread behind iff the consumer was waiting on an empty queue. */
  lemma LeaveBlocks(s: Stream)
    requires s.consumer == Starting || s.consumer == Previewing || s.consumer == Consuming || s.consumer == Finishing
    ensures Next(s, Leave).consumer == Ended
    ensures Next(s, Leave).blocked <==> s.consumer == Consuming && s.queue == []
  {
  }

  /** The abandoned generator is finalised, and the generation thread goes on to its end. */
  function WoundDown(s: Stream): Stream {
    Next(Next(Next(Next(Next(s, Release), TimeOut), Break), Look), Close)
  }

  lemma WoundDownKeeps(s: Stream)
    requires StreamInv(s)
    ensures StreamInv(WoundDown(s))
  {
    NextKeeps(s, Release);
    var s1 := Next(s, Release);
    NextKeeps(s1, TimeOut);
    var s2 := Next(s1, TimeOut);
    NextKeeps(s2, Break);
    var s3 := Next(s2, Break);
    NextKeeps(s3, Look);
    NextKeeps(Next(s3, Look), Close);
  }

  lemma WoundDownLeaves(s: Stream)
    requires s.consumer.Ended? && !s.producer.Idle?
    ensures WoundDown(s).producer.Exited?
  {
    ThreadEnds(Next(s, Release));
  }

  lemma WoundDownIdle(s: Stream)
    requires s.producer.Idle?
    ensures WoundDown(s).producer.Idle? && WoundDown(s).blocked == s.blocked
  {
  }

  lemma DropFrees(s: Stream)
    requires s.blocked ==> s.queue != []
    ensures !Next(s, Drop).blocked
  {
  }

  /** However a stream was left, once the abandoned generator is finalised the generation thread can leave in four
      steps, and then the reader thread, if one was left behind, gets an item. */
  lemma LeftBehind(evidence: bool, content: string, run: seq<Event>)
    requires Reached(evidence, content, run).consumer == Ended
    ensures var s := WoundDown(Reached(evidence, content, run));
            (s.producer == Idle || s.producer == Exited) && !Next(s, Drop).blocked
  {
    var s := Reached(evidence, content, run);
    if s.producer.Idle? {
      NeverBlocked(evidence, content, run);
      WoundDownIdle(s);
    } else {
      RunKeeps(evidence, content, run);
      WoundDownKeeps(s);
      WoundDownLeaves(s);
    }
    DropFrees(WoundDown(s));
  }

  /** A thread that has not been started leaves nobody waiting. */
  lemma {:induction false} NeverBlocked(evidence: bool, content: string, run: seq<Event>)
    ensures Reached(evidence, content, run).producer.Idle? ==> !Reached(evidence, content, run).blocked
  {
    if run != [] {
      var front := run[..|run| - 1];
      NeverBlocked(evidence, content, front);
      RunKeeps(evidence, content, front);
      IdleStep(Reached(evidence, content, front), run[|run| - 1]);
    }
  }

  lemma IdleStep(s: Stream, event: Event)
    requires FlagInv(s) && (s.producer.Idle? ==> !s.blocked)
    ensures Next(s, event).producer.Idle? ==> !Next(s, event).blocked
  {
  }
}
