/** The protocol as a transition system: any process may take a step at any time, and any message may
    be delivered any number of times.  A run is an arbitrary sequence of events; a label that is not
    enabled leaves the state as it is, so every sequence of events is a run. */
module Protocol {
  import opened Rows
  import opened Transactions
  import opened ChunkWindows

  /** A step of one process on one document. */
  datatype DocStep =
    | Coordinate
    | CompensateUpload
    | Admit
    | Begin(key: TaskKey)
    | ReadOriginal(a: AttemptId, text: string)
    | SaveParse(a: AttemptId)
    | CheckLease(a: AttemptId)
    | ReadText(a: AttemptId)
    | SaveDrafts(a: AttemptId)
    | LoadDrafts(a: AttemptId)
    | Renew(a: AttemptId)
    | SaveChunks(a: AttemptId)
    | FinishEmbed(a: AttemptId)
    | ReadCheckpoint(a: AttemptId)
    | Publish(a: AttemptId)
    | Fail(a: AttemptId, code: Option<nat>)
    | Converge(a: AttemptId)
    | Delete(open: Option<AttemptId>)
    | LookUp(a: AttemptId)
    | RemoveOriginal(a: AttemptId)
    | FinishDelete(a: AttemptId)
    | FailDelete(a: AttemptId)
    | TakeOverLease(index: nat)
    | TakeOverAttempt(a: AttemptId)

  /** The attempt whose worker takes the step, for the steps a worker takes after beginning. */
  function StepAttempt(step: DocStep): Option<AttemptId> {
    match step
    case ReadOriginal(a, _) => Some(a)
    case SaveParse(a) => Some(a)
    case CheckLease(a) => Some(a)
    case ReadText(a) => Some(a)
    case SaveDrafts(a) => Some(a)
    case LoadDrafts(a) => Some(a)
    case Renew(a) => Some(a)
    case SaveChunks(a) => Some(a)
    case FinishEmbed(a) => Some(a)
    case ReadCheckpoint(a) => Some(a)
    case Publish(a) => Some(a)
    case Fail(a, _) => Some(a)
    case Converge(a) => Some(a)
    case LookUp(a) => Some(a)
    case RemoveOriginal(a) => Some(a)
    case FinishDelete(a) => Some(a)
    case FailDelete(a) => Some(a)
    case _ => None
  }

  /** Where the worker of attempt `a` has to be in its code to take `step`. */
  predicate WorkerMay(key: TaskKey, worker: Worker, step: DocStep) {
    match step
    case ReadOriginal(_, _) => key.kind.Parse? && worker.Working?
    case SaveParse(_) => key.kind.Parse? && worker.Parsed? && !AllBlank(worker.text)
    case CheckLease(_) => key.kind.Chunk? && worker.Working?
    case ReadText(_) => key.kind.Chunk? && worker.Leased?
    case SaveDrafts(_) => key.kind.Chunk? && worker.Read?
    case LoadDrafts(_) => key.kind.Embed? && worker.Working?
    case Renew(_) => key.kind.Embed? && worker.Loaded? && worker.embedded < |worker.drafts|
    case SaveChunks(_) => key.kind.Embed? && worker.Loaded? && worker.embedded >= |worker.drafts|
    case FinishEmbed(_) => key.kind.Embed? && worker.Wrote?
    case ReadCheckpoint(_) => key.kind.Finalize? && worker.Working?
    case Publish(_) => key.kind.Finalize? && worker.Expecting?
    case Fail(_, code) =>
      (match key.kind
       case Parse => (worker.Working? || worker.Parsed?) && (code.None? || code.value in {PARSE_FAILED, EMPTY_DOCUMENT, STORAGE_FAILED})
       case Chunk => (worker.Working? || worker.Leased? || worker.Read?) && code.None?
       case Embed => (worker.Working? && code.None?)
                     || (worker.Loaded? && (code.None? || code.value == EMBEDDING_FAILED))
       case Finalize => (worker.Working? || worker.Expecting?) && code.None?
       case DeleteCleanup => false)
    case Converge(_) => IsStage(key) && worker.Rejected?
    case LookUp(_) => key.kind.DeleteCleanup? && worker.Working?
    case RemoveOriginal(_) => key.kind.DeleteCleanup? && worker.SawLive?
    case FinishDelete(_) => key.kind.DeleteCleanup? && (worker.Removed? || worker.SawDeleted?)
    case FailDelete(_) => key.kind.DeleteCleanup? && (worker.SawLive? || worker.Removed?)
    case _ => false
  }

  /** The drafts of a text. */
  function Pieces(text: string): seq<string> {
    ChunkText(text, CHUNK_SIZE, CHUNK_OVERLAP)
  }

  /** The text of the latest parse result. */
  function LastText(d: Document): string
    requires d.parseResults != []
  {
    d.parseResults[|d.parseResults| - 1]
  }

  /** After the heartbeat the embed worker gets the vectors of one more batch. */
  function NextBatch(worker: Worker): Worker
    requires worker.Loaded?
  {
    var end := worker.embedded + EMBED_BATCH_SIZE;
    Loaded(worker.drafts, if end <= |worker.drafts| then end else |worker.drafts|)
  }

  predicate Enabled(d: Document, step: DocStep) {
    match StepAttempt(step)
    case Some(a) => HasAttempt(d, a) && WorkerMay(a.key, AttemptOf(d, a).worker, step)
    case None =>
      match step
      case CompensateUpload => d.status.Pending?
      case Delete(open) => IsOpenAttempt(d, open)
      case TakeOverLease(index) => index < |d.leases|
      case TakeOverAttempt(a) => HasAttempt(d, a)
      case _ => true
  }

  /** After a commit or a replay the worker is done; after a refusal it is left in `onRefusal`. */
  function Conclude(d: Document, a: AttemptId, outcome: Outcome, onCommit: Worker, onRefusal: Worker): Document
    requires HasAttempt(d, a)
    requires outcome.Committed? ==> HasAttempt(outcome.document, a)
  {
    match outcome
    case Committed(after) => SetWorker(after, a, onCommit)
    case Replayed => SetWorker(d, a, Done)
    case Refused => SetWorker(d, a, onRefusal)
  }

  function WorkerStep(d: Document, a: AttemptId, step: DocStep, now: int, seconds: nat): Document
    requires StepAttempt(step) == Some(a) && Enabled(d, step)
  {
    var worker := AttemptOf(d, a).worker;
    match step
    case ReadOriginal(_, text) =>
      // Without the original object the worker fails instead.
      if d.original then SetWorker(d, a, Parsed(text)) else d
    case SaveParse(_) => Conclude(d, a, CommitParse(d, a, worker.text), Done, Rejected)
    case CheckLease(_) => SetWorker(d, a, if HasOpenLease(d) then Leased else Rejected)
    case ReadText(_) =>
      // Without a parse result the worker fails instead.
      if d.parseResults == [] then d else SetWorker(d, a, Read(LastText(d)))
    case SaveDrafts(_) => Conclude(d, a, CommitChunk(d, a, Pieces(worker.text)), Done, Rejected)
    case LoadDrafts(_) => if d.drafts == [] then d else SetWorker(d, a, Loaded(d.drafts, 0))
    case Renew(_) => Conclude(d, a, Heartbeat(d, a.key, now, seconds), NextBatch(worker), Rejected)
    case SaveChunks(_) =>
      Conclude(d, a, WriteChunks(d, a, worker.drafts), Wrote(|worker.drafts|), Rejected)
    case FinishEmbed(_) =>
      // A refusal is not caught by the embed worker: the process ends.
      Conclude(d, a, CompleteStage(d, a, Some(worker.count), Some(worker.count), None), Done, Done)
    case ReadCheckpoint(_) => SetWorker(d, a, Expecting(EmbedCheckpoint(d)))
    case Publish(_) => Conclude(d, a, CompleteStage(d, a, None, None, Some(worker.count)), Done, Rejected)
    case Fail(_, code) => SetWorker(FailStage(d, a, code), a, Done)
    case Converge(_) => SetWorker(ConvergeCancelled(d, a), a, Done)
    case LookUp(_) => SetWorker(d, a, if d.status.Deleted? then SawDeleted else SawLive)
    case RemoveOriginal(_) => SetWorker(d.(original := false), a, Removed)
    case FinishDelete(_) =>
      SetWorker(if worker.SawDeleted? then FinishCleanupAgain(d, a) else FinishCleanup(d, a), a, Done)
    case FailDelete(_) => SetWorker(FailCleanup(d, a), a, Done)
  }

  function DocNext(d: Document, step: DocStep, now: int, seconds: nat, slotFree: bool): Document {
    if !Enabled(d, step) then d
    else
      match StepAttempt(step)
      case Some(a) => WorkerStep(d, a, step, now, seconds)
      case None =>
        match step
        case Coordinate => MarkQueued(d)
        case CompensateUpload => Compensate(d)
        case Admit => AdmitParse(d, now, seconds, slotFree)
        case Begin(key) => BeginAttempt(d, key)
        case Delete(open) => StageDelete(d, open)
        case TakeOverLease(index) => RecoverExpiredLease(d, index)
        case TakeOverAttempt(a) => RecoverRunningWithoutLease(d, a)
        case _ => d
  }

  // ---------------------------------------------------------------------------------------------
  // The whole system
  // ---------------------------------------------------------------------------------------------

  datatype Config = Config(maxPerUser: nat, leaseSeconds: nat)

  /** `scanned` holds the leases a recovery scan has listed as expired and may still take over. */
  datatype System = System(now: int, docs: map<nat, Document>, scanned: set<(nat, nat)>)

  datatype Event =
    | Upload(id: nat, user: nat)
    | Tick(seconds: nat)
    | Scan
    | On(id: nat, step: DocStep)

  const EmptySystem := System(0, map[], {})

  /** The unreleased lease rows of a user, each named by its document and position. */
  function OpenLeases(docs: map<nat, Document>, user: nat): set<(nat, nat)> {
    set id, i | id in docs && docs[id].user == user && 0 <= i < |docs[id].leases| && IsOpen(docs[id].leases[i])
      :: (id, i)
  }

  function ExpiredLeases(s: System): set<(nat, nat)> {
    set id, i | id in s.docs && 0 <= i < |s.docs[id].leases| && IsOpen(s.docs[id].leases[i])
                && s.docs[id].leases[i].expires < s.now :: (id, i)
  }

  function SlotFree(c: Config, s: System, id: nat): bool
    requires id in s.docs
  {
    |OpenLeases(s.docs, s.docs[id].user)| < c.maxPerUser
  }

  predicate EventEnabled(s: System, event: Event) {
    match event
    case Upload(id, _) => id !in s.docs
    case On(id, step) => id in s.docs && (step.TakeOverLease? ==> (id, step.index) in s.scanned)
    case _ => true
  }

  function Next(c: Config, s: System, event: Event): System {
    if !EventEnabled(s, event) then s
    else
      match event
      case Upload(id, user) => s.(docs := s.docs[id := NewDocument(user)])
      case Tick(seconds) => s.(now := s.now + seconds)
      case Scan => s.(scanned := s.scanned + ExpiredLeases(s))
      case On(id, step) =>
        s.(docs := s.docs[id := DocNext(s.docs[id], step, s.now, c.leaseSeconds, SlotFree(c, s, id))])
  }

  /** The state after a run. */
  function Run(c: Config, s: System, run: seq<Event>): System {
    if run == [] then s else Next(c, Run(c, s, run[..|run| - 1]), run[|run| - 1])
  }
}
