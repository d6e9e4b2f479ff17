/**
 The approval service as a protocol. Any number of application instances run worker
 passes and serve operator requests; each is a process whose program counter says
 which statement comes next and which values it read earlier. One action is one SQL
 statement or transaction, one external publish, or one tick of the clock. A crash
 drops a process. External services appear as the choice an action carries.
 */
module Pipeline {
  import opened Wrappers
  import opened JobStatus
  import opened PostTables

  type Pid = nat

  const HORIZON: Time := 30 * 24 * 60 * MINUTE
  const PREVIEW_ATTEMPTS := 2
  const UNCERTAIN := "publish result is uncertain after worker interruption; reconcile manually before retrying"

  /** What a successful preview is followed by. */
  datatype Cont = Finish | ThenQueue | ThenApprove | ThenSchedule(at: Time)

  /** What the publisher hands back: the media id, and the request and response kept in the log. */
  datatype Receipt = Receipt(media: string, request: string, response: Response)

  /** Where a process is and what it read on the way. */
  datatype PC =
    // news sync, after the job row was created
    | Ingested
    // scoring worker
    | ScoreListed
    | ScoreClaimed
    | ScoreApplied(notify: bool)
    // variant worker
    | GenListed
    | GenClaimed
    | GenSaved
    // either AI worker, when the candidate or account could not be loaded
    | ContextMissing(msg: string)
    // retry pass
    | RetryListed(target: Status)
    // stale recovery pass
    | StaleListed(seen: Status)
    | StaleLogged(found: Option<string>)
    // scheduled promotion
    | DueListed(asOf: Time)
    // publish worker
    | PublishListed
    | PublishLoaded(variant: VariantId)
    | PublishClaimed(variant: VariantId)
    | PublishRead(variant: VariantId, caption: string, image: ImageUrl)
    | PublishReady(variant: VariantId, caption: string, image: ImageUrl)
    | PublishReturned(receipt: Option<Receipt>, msg: string)
    | PublishLogged(media: string)
    | PublishFailing(msg: string)
    // preview rendering, inside several operator requests
    | PreviewStart(attempt: nat, cont: Cont)
    | PreviewLoaded(variant: VariantId, attempt: nat, cont: Cont)
    | PreviewRead(variant: VariantId, caption: string, attempt: nat, cont: Cont)
    // operator requests
    | GenerateCommit(count: nat)
    | SelectStart(variant: VariantId, cont: Cont)
    | SelectRead(variant: VariantId, cont: Cont)
    | SelectCommit(variant: VariantId, reselect: bool, cont: Cont)
    | EditCommit(variant: VariantId, caption: string)
    | QueueRead
    | ScheduleRead(at: Time)
    | ReviewLoaded(variant: VariantId, cont: Cont)
    | ApproveCommit
    | ScheduleCommit(at: Time)
    | RescheduleCommit(at: Time)
    | CancelCommit
    | SkipCommit

  datatype Proc = Proc(job: JobId, pc: PC)

  /** What the outside world answers. A choice that does not fit is an error the process gives up on. */
  datatype Choice =
    | Proceed
    | LoadError(msg: string)
    | AiFailed
    | AiScored(notify: bool, provider: string, model: string)
    | AiVariants(variants: seq<NewVariant>)
    | RenderFailed(msg: string)
    | PublishedAs(receipt: Receipt)
    | Refused(msg: string)
    | StatementLost // a statement failed whose failure the code only logs

  datatype Action =
    | Tick(seconds: Time)
    | Ingest(job: JobId)
    | List(proc: Proc)
    | Request(proc: Proc)
    | Run(pid: Pid, choice: Choice)
    | Crash(pid: Pid)

  // ---- history kept for the statements below; no process reads it ----

  datatype OpEvent =
    | Generated(count: nat)
    | Selected(variant: VariantId)
    | Edited(variant: VariantId)
    | PublishAsked
    | ScheduleAsked(at: Time)
    | ScheduleCancelled
    | SkipAsked

  /** What the job had selected, and that variant's caption, when it entered APPROVED. */
  datatype Release = Unreleased | Nothing | Chosen(variant: VariantId, caption: string)

  /** One call of the external publisher; media is None when it reported an error. */
  datatype Call = Call(variant: VariantId, caption: string, image: ImageUrl, media: Option<string>)

  datatype Promotion = Promotion(inForce: Time, at: Time)

  datatype History = History(
    events: seq<OpEvent>,
    release: Release,
    claimant: Option<Pid>,
    calls: seq<Call>,
    scorer: Option<Pid>,
    promotions: seq<Promotion>,
    firstPark: Option<Time>)

  const NO_HISTORY := History([], Unreleased, None, [], None, [], None)

  datatype Sys = Sys(db: Tables, hist: map<JobId, History>, procs: map<Pid, Proc>, nextPid: Pid)

  const START := Sys(Tables(map[], map[], 1, [], 0), map[], map[], 0)

  function Hist(s: Sys, j: JobId): History {
    if j in s.hist then s.hist[j] else NO_HISTORY
  }

  // ---- moving on ----

  function Become(s: Sys, pid: Pid, next: Option<PC>): Sys
    requires pid in s.procs
  {
    s.(procs := if next.Some? then s.procs[pid := Proc(s.procs[pid].job, next.value)] else s.procs - {pid})
  }

  /** The process goes on only if its transaction committed; the history is written with it. */
  function Commit(s: Sys, pid: Pid, e: Effect, h: History, next: Option<PC>): Sys
    requires pid in s.procs
  {
    if e.outcome == Committed then
      Become(s, pid, next).(db := e.db, hist := s.hist[s.procs[pid].job := h])
    else Become(s, pid, None)
  }

  function Spawn(s: Sys, p: Proc): Sys {
    s.(procs := s.procs[s.nextPid := p], nextPid := s.nextPid + 1)
  }

  function Resume(cont: Cont): Option<PC> {
    match cont
    case Finish => None
    case ThenQueue => Some(QueueRead)
    case ThenApprove => Some(ApproveCommit)
    case ThenSchedule(at) => Some(ScheduleCommit(at))
  }

  // ---- who may start ----

  /** The filter every queue listing applies. */
  predicate InQueue(db: Tables, j: JobId, status: Status) {
    j in db.jobs && db.jobs[j].status == status && db.jobs[j].nextRetryAt <= db.now
  }

  /** The stage a parked job goes back to, picked from its row as it is listed. */
  function RetryStage(row: Job): Status {
    if row.requestedVariants > 0 then VariantsQueued else ScoringQueued
  }

  /**
   A worker pass lists a batch and then works through it; every listed job is a process
   of its own here. The age limit of the stale listing is left open, so it covers every timeout.
   */
  predicate CanList(db: Tables, p: Proc) {
    var j := p.job;
    match p.pc
    case ScoreListed => InQueue(db, j, ScoringQueued)
    case GenListed => InQueue(db, j, VariantsQueued)
    case RetryListed(target) =>
      && InQueue(db, j, WaitingAI)
      && target == RetryStage(db.jobs[j])
    case StaleListed(seen) =>
      && j in db.jobs && db.jobs[j].status == seen
      && (seen == Scoring || seen == GeneratingVariants || seen == Publishing)
    case PublishListed => InQueue(db, j, Approved)
    case DueListed(asOf) => asOf <= db.now && j in db.jobs && DueBy(db.jobs[j], asOf)
    case _ => false
  }

  predicate CanRequest(db: Tables, p: Proc) {
    && p.job in db.jobs
    && match p.pc
       case GenerateCommit(count) => 1 <= count <= 10
       case SelectStart(_, cont) => cont == Finish || cont == ThenQueue
       case EditCommit(_, caption) => 1 <= |caption| <= MAX_CAPTION
       case QueueRead => true
       case ScheduleRead(at) => db.now < at <= db.now + HORIZON
       case CancelCommit => true
       case SkipCommit => true
       case _ => false
  }

  // ---- one step of a process ----

  function StepScoring(s: Sys, pid: Pid, c: Choice): Sys
    requires pid in s.procs
  {
    var j := s.procs[pid].job;
    var h := Hist(s, j);
    match s.procs[pid].pc
    case Ingested => Commit(s, pid, UpdateStatus(s.db, j, ScoringQueued), h, None)
    case ScoreListed => Commit(s, pid, ClaimStatus(s.db, j, ScoringQueued, Scoring), h, Some(ScoreClaimed))
    case ScoreClaimed =>
      (match c
       case LoadError(msg) => Become(s, pid, Some(ContextMissing(msg)))
       case AiFailed => Park(s, pid, "scoring: all AI providers failed")
       case AiScored(notify, provider, model) =>
         Commit(s, pid, ApplyScored(s.db, j, ScoreUpdate(Scored, provider, model, "")),
                h.(scorer := Some(pid), firstPark := None), Some(ScoreApplied(notify)))
       case _ => Become(s, pid, None))
    case ScoreApplied(notify) =>
      Commit(s, pid, UpdateStatus(s.db, j, if notify then WaitingFirstApproval else Skipped), h, None)
    case ContextMissing(msg) => Commit(s, pid, MarkFailed(s.db, j, msg), h, None)
    case _ => s
  }

  function Park(s: Sys, pid: Pid, msg: string): Sys
    requires pid in s.procs
  {
    var j := s.procs[pid].job;
    var h := Hist(s, j);
    var first := if j in s.db.jobs && s.db.jobs[j].retries == 0 then Some(s.db.now) else h.firstPark;
    Commit(s, pid, ParkForAIRetry(s.db, j, msg), h.(firstPark := first), None)
  }

  function StepVariants(s: Sys, pid: Pid, c: Choice): Sys
    requires pid in s.procs
  {
    var j := s.procs[pid].job;
    var h := Hist(s, j);
    match s.procs[pid].pc
    case GenListed =>
      Commit(s, pid, ClaimStatus(s.db, j, VariantsQueued, GeneratingVariants), h, Some(GenClaimed))
    case GenClaimed =>
      (match c
       case LoadError(msg) => Become(s, pid, Some(ContextMissing(msg)))
       case AiFailed => Park(s, pid, "variants: all AI providers failed")
       case AiVariants(vs) => Commit(s, pid, ReplaceVariants(s.db, j, vs), h, Some(GenSaved))
       case _ => Become(s, pid, None))
    case GenSaved =>
      Commit(s, pid, CompleteAIStage(s.db, j, WaitingVariantApproval), h.(firstPark := None), None)
    case _ => s
  }

  /** A log that cannot be read or decoded is treated like one that records no success. */
  function LookUp(s: Sys, pid: Pid, c: Choice): Sys
    requires pid in s.procs
  {
    var found := SuccessfulPublishMediaID(s.db.logs, s.procs[pid].job);
    Become(s, pid, Some(StaleLogged(if found.Found? && !c.StatementLost? then Some(found.media) else None)))
  }

  function Promote(s: Sys, pid: Pid, asOf: Time): Sys
    requires pid in s.procs
  {
    var j := s.procs[pid].job;
    Commit(s, pid, ClaimScheduledDue(s.db, j, asOf), Promoted(s, j), Some(PublishListed))
  }

  function StepUpkeep(s: Sys, pid: Pid, c: Choice): Sys
    requires pid in s.procs
  {
    var j := s.procs[pid].job;
    var h := Hist(s, j);
    match s.procs[pid].pc
    case RetryListed(target) => Commit(s, pid, ClaimStatus(s.db, j, WaitingAI, target), h, None)
    case StaleListed(seen) =>
      if seen == Publishing then LookUp(s, pid, c) else Park(s, pid, "recovered stale worker lease")
    case StaleLogged(found) =>
      if found.Some? then Commit(s, pid, MarkPublished(s.db, j, found.value), h, None)
      else Commit(s, pid, MarkFailed(s.db, j, UNCERTAIN), h, None)
    case DueListed(asOf) => Promote(s, pid, asOf)
    case _ => s
  }

  /** What a job that enters APPROVED now would be released with. */
  function ReleaseOf(db: Tables, j: JobId): Release {
    if j in db.jobs && db.jobs[j].selected.Some? && db.jobs[j].selected.value in db.variants then
      Chosen(db.jobs[j].selected.value, db.variants[db.jobs[j].selected.value].caption)
    else Nothing
  }

  function Promoted(s: Sys, j: JobId): History {
    var h := Hist(s, j);
    var inForce := if j in s.db.jobs && s.db.jobs[j].scheduledAt.Some? then s.db.jobs[j].scheduledAt.value else 0;
    h.(release := ReleaseOf(s.db, j), promotions := h.promotions + [Promotion(inForce, s.db.now)])
  }

  /**
   The selection is read before the claim and used after it. Without the job, its candidate or its
   account the worker gives up and leaves the job as it is.
   */
  function LoadJob(s: Sys, pid: Pid, c: Choice): Sys
    requires pid in s.procs
  {
    var j := s.procs[pid].job;
    if !c.LoadError? && j in s.db.jobs && s.db.jobs[j].selected.Some? then
      Become(s, pid, Some(PublishLoaded(s.db.jobs[j].selected.value)))
    else Become(s, pid, None)
  }

  function ClaimPublish(s: Sys, pid: Pid, v: VariantId): Sys
    requires pid in s.procs
  {
    var j := s.procs[pid].job;
    Commit(s, pid, ClaimStatus(s.db, j, Approved, Publishing), Hist(s, j).(claimant := Some(pid)),
        Some(PublishClaimed(v)))
  }

  /** After the claim, not being able to read the variant fails the job, whatever the reason. */
  function ReadVariant(s: Sys, pid: Pid, v: VariantId, c: Choice): Sys
    requires pid in s.procs
  {
    if c.LoadError? then Become(s, pid, Some(PublishFailing("load variant: " + c.msg)))
    else if v in s.db.variants then
      Become(s, pid, Some(PublishRead(v, s.db.variants[v].caption, s.db.variants[v].image)))
    else Become(s, pid, Some(PublishFailing("load variant: not found")))
  }

  /** Renders when no preview is stored. The write of the new URL carries no guard. */
  function Render(s: Sys, pid: Pid, v: VariantId, caption: string, image: ImageUrl, c: Choice): Sys
    requires pid in s.procs
  {
    if image != Blank then Become(s, pid, Some(PublishReady(v, caption, image)))
    else if c.RenderFailed? then Become(s, pid, Some(PublishFailing(c.msg)))
    else
      var url := Upload(v, caption);
      var s' := Become(s, pid, Some(PublishReady(v, caption, url)));
      if c.StatementLost? then s' else s'.(db := SetVariantImageURL(s.db, v, url))
  }

  /** The call of the external publisher. A success names a media id that the kept response names too. */
  function CallPublisher(s: Sys, pid: Pid, v: VariantId, caption: string, image: ImageUrl, c: Choice): Sys
    requires pid in s.procs
  {
    var j := s.procs[pid].job;
    var h := Hist(s, j);
    var ok := c.PublishedAs? && c.receipt.media != "" && MediaIdOf(c.receipt.response) == Some(c.receipt.media);
    var call := Call(v, caption, image, if ok then Some(c.receipt.media) else None);
    Become(s, pid, Some(PublishReturned(if ok then Some(c.receipt) else None, if c.Refused? then c.msg else "")))
      .(hist := s.hist[j := h.(calls := h.calls + [call])])
  }

  function LogEntry(j: JobId, receipt: Option<Receipt>, msg: string): PublishLog {
    match receipt
    case None => PublishLog(j, "instagram", None, None, false, msg)
    case Some(r) => PublishLog(j, "instagram", Some(r.request), Some(r.response), true, "")
  }

  function LogResult(s: Sys, pid: Pid, receipt: Option<Receipt>, msg: string, c: Choice): Sys
    requires pid in s.procs
  {
    var next :=
      if receipt.Some? then PublishLogged(receipt.value.media)
      else PublishFailing("instagram publish: " + msg);
    var s' := Become(s, pid, Some(next));
    if c.StatementLost? then s' else s'.(db := InsertPublishLog(s.db, LogEntry(s.procs[pid].job, receipt, msg)))
  }

  function StepPublish(s: Sys, pid: Pid, c: Choice): Sys
    requires pid in s.procs
  {
    var j := s.procs[pid].job;
    match s.procs[pid].pc
    case PublishListed => LoadJob(s, pid, c)
    case PublishLoaded(v) => ClaimPublish(s, pid, v)
    case PublishClaimed(v) => ReadVariant(s, pid, v, c)
    case PublishRead(v, caption, image) => Render(s, pid, v, caption, image, c)
    case PublishReady(v, caption, image) => CallPublisher(s, pid, v, caption, image, c)
    case PublishReturned(receipt, msg) => LogResult(s, pid, receipt, msg, c)
    case PublishLogged(media) => Commit(s, pid, MarkPublished(s.db, j, media), Hist(s, j), None)
    case PublishFailing(msg) => Commit(s, pid, MarkFailed(s.db, j, msg), Hist(s, j), None)
    case _ => s
  }

  function StepPreview(s: Sys, pid: Pid, c: Choice): Sys
    requires pid in s.procs
  {
    var j := s.procs[pid].job;
    match s.procs[pid].pc
    case PreviewStart(attempt, cont) =>
      if attempt < PREVIEW_ATTEMPTS && j in s.db.jobs && s.db.jobs[j].selected.Some? then
        Become(s, pid, Some(PreviewLoaded(s.db.jobs[j].selected.value, attempt, cont)))
      else Become(s, pid, None)
    case PreviewLoaded(v, attempt, cont) =>
      if v in s.db.variants then Become(s, pid, Some(PreviewRead(v, s.db.variants[v].caption, attempt, cont)))
      else Become(s, pid, None)
    case PreviewRead(v, caption, attempt, cont) =>
      if c.RenderFailed? then Become(s, pid, None)
      else
        var e := SetVariantImageURLForCaption(s.db, v, caption, Upload(v, caption));
        if e.outcome == Committed then Become(s, pid, Resume(cont)).(db := e.db)
        else Become(s, pid, Some(PreviewStart(attempt + 1, cont)))
    case _ => s
  }

  function StepReview(s: Sys, pid: Pid): Sys
    requires pid in s.procs
  {
    var j := s.procs[pid].job;
    match s.procs[pid].pc
    case SelectStart(v, cont) =>
      if OwnsVariant(s.db, j, v) then Become(s, pid, Some(SelectRead(v, cont))) else Become(s, pid, None)
    case SelectRead(v, cont) =>
      if j !in s.db.jobs then Become(s, pid, None)
      else
        var row := s.db.jobs[j];
        if row.selected == Some(v)
           && (row.status == Approved || row.status == Publishing || row.status == Published) then
          Become(s, pid, Resume(cont))
        else if row.status == ReadyToPublish && row.selected == Some(v) then
          Become(s, pid, Some(PreviewStart(0, cont)))
        else Become(s, pid, Some(SelectCommit(v, row.status == ReadyToPublish, cont)))
    case QueueRead =>
      if j in s.db.jobs && s.db.jobs[j].status == ReadyToPublish && s.db.jobs[j].selected.Some? then
        Become(s, pid, Some(ReviewLoaded(s.db.jobs[j].selected.value, ThenApprove)))
      else Become(s, pid, None)
    case ScheduleRead(at) =>
      if j in s.db.jobs && s.db.jobs[j].status == Scheduled then Become(s, pid, Some(RescheduleCommit(at)))
      else if j in s.db.jobs && s.db.jobs[j].status == ReadyToPublish && s.db.jobs[j].selected.Some? then
        Become(s, pid, Some(ReviewLoaded(s.db.jobs[j].selected.value, ThenSchedule(at))))
      else Become(s, pid, None)
    case ReviewLoaded(v, cont) =>
      if v !in s.db.variants then Become(s, pid, None)
      else if s.db.variants[v].image == Blank then Become(s, pid, Some(PreviewStart(0, cont)))
      else Become(s, pid, Resume(cont))
    case _ => s
  }

  function Noted(h: History, e: OpEvent): History {
    h.(events := h.events + [e])
  }

  function Generate(s: Sys, pid: Pid, count: nat): Sys
    requires pid in s.procs
  {
    var j := s.procs[pid].job;
    Commit(s, pid, QueueVariants(s.db, j, count), Noted(Hist(s, j), Generated(count)), None)
  }

  function Select(s: Sys, pid: Pid, v: VariantId, reselect: bool, cont: Cont): Sys
    requires pid in s.procs
  {
    var j := s.procs[pid].job;
    var e := if reselect then ReselectVariant(s.db, j, v) else SelectVariant(s.db, j, v);
    Commit(s, pid, e, Noted(Hist(s, j), Selected(v)), Some(PreviewStart(0, cont)))
  }

  function Edit(s: Sys, pid: Pid, v: VariantId, caption: string): Sys
    requires pid in s.procs
  {
    var j := s.procs[pid].job;
    var isSelected := j in s.db.jobs && s.db.jobs[j].selected == Some(v);
    Commit(s, pid, UpdateVariantCaption(s.db, j, v, caption), Noted(Hist(s, j), Edited(v)),
           if isSelected then Some(PreviewStart(0, Finish)) else None)
  }

  function Approve(s: Sys, pid: Pid): Sys
    requires pid in s.procs
  {
    var j := s.procs[pid].job;
    Commit(s, pid, UpdateStatus(s.db, j, Approved), Noted(Hist(s, j), PublishAsked).(release := ReleaseOf(s.db, j)),
        None)
  }

  function ScheduleAt(s: Sys, pid: Pid, at: Time): Sys
    requires pid in s.procs
  {
    var j := s.procs[pid].job;
    Commit(s, pid, Schedule(s.db, j, at), Noted(Hist(s, j), ScheduleAsked(at)), None)
  }

  function RescheduleAt(s: Sys, pid: Pid, at: Time): Sys
    requires pid in s.procs
  {
    var j := s.procs[pid].job;
    Commit(s, pid, Reschedule(s.db, j, at), Noted(Hist(s, j), ScheduleAsked(at)), None)
  }

  function Cancel(s: Sys, pid: Pid): Sys
    requires pid in s.procs
  {
    var j := s.procs[pid].job;
    Commit(s, pid, CancelSchedule(s.db, j), Noted(Hist(s, j), ScheduleCancelled), None)
  }

  function Skip(s: Sys, pid: Pid): Sys
    requires pid in s.procs
  {
    var j := s.procs[pid].job;
    Commit(s, pid, UpdateStatus(s.db, j, Skipped), Noted(Hist(s, j), SkipAsked), None)
  }

  function StepOperator(s: Sys, pid: Pid): Sys
    requires pid in s.procs
  {
    match s.procs[pid].pc
    case GenerateCommit(count) => Generate(s, pid, count)
    case SelectCommit(v, reselect, cont) => Select(s, pid, v, reselect, cont)
    case EditCommit(v, caption) => Edit(s, pid, v, caption)
    case ApproveCommit => Approve(s, pid)
    case ScheduleCommit(at) => ScheduleAt(s, pid, at)
    case RescheduleCommit(at) => RescheduleAt(s, pid, at)
    case CancelCommit => Cancel(s, pid)
    case SkipCommit => Skip(s, pid)
    case _ => s
  }

  function RunProc(s: Sys, pid: Pid, c: Choice): Sys
    requires pid in s.procs
  {
    var p := s.procs[pid].pc;
    if p.Ingested? || p.ScoreListed? || p.ScoreClaimed? || p.ScoreApplied? || p.ContextMissing? then
      StepScoring(s, pid, c)
    else if p.GenListed? || p.GenClaimed? || p.GenSaved? then StepVariants(s, pid, c)
    else if p.RetryListed? || p.StaleListed? || p.StaleLogged? || p.DueListed? then StepUpkeep(s, pid, c)
    else if p.PublishListed? || p.PublishLoaded? || p.PublishClaimed? || p.PublishRead? || p.PublishReady?
            || p.PublishReturned? || p.PublishLogged? || p.PublishFailing? then StepPublish(s, pid, c)
    else if p.PreviewStart? || p.PreviewLoaded? || p.PreviewRead? then StepPreview(s, pid, c)
    else if p.SelectStart? || p.SelectRead? || p.QueueRead? || p.ScheduleRead? || p.ReviewLoaded? then
      StepReview(s, pid)
    else StepOperator(s, pid)
  }

  /** An action that is not enabled changes nothing. */
  function Step(s: Sys, a: Action): Sys {
    match a
    case Tick(seconds) => s.(db := s.db.(now := s.db.now + seconds))
    case Ingest(j) =>
      var e := Create(s.db, j);
      if e.outcome == Committed then Spawn(s.(db := e.db), Proc(j, Ingested)) else s
    case List(p) => if CanList(s.db, p) then Spawn(s, p) else s
    case Request(p) => if CanRequest(s.db, p) then Spawn(s, p) else s
    case Run(pid, c) => if pid in s.procs then RunProc(s, pid, c) else s
    case Crash(pid) => s.(procs := s.procs - {pid})
  }

  /** The state after a whole run from the empty tables. */
  function After(actions: seq<Action>): Sys {
    if actions == [] then START
    else Step(After(actions[..|actions| - 1]), actions[|actions| - 1])
  }
}
