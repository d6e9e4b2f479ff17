/**
 Who may touch what: only operator requests add to the record of operator actions,
 only the publish step adds to the record of calls, only a replacement of the
 variants clears a selection without re-queueing the job, and no action changes a
 status and a variant row at once.
 */
module StepFrames {
  import opened Wrappers
  import opened JobStatus
  import opened PostTables
  import opened Pipeline

  /** The program counters at which an operator request writes. Only Request starts lead to them. */
  predicate OperatorCommit(p: PC) {
    p.GenerateCommit? || p.SelectCommit? || p.EditCommit? || p.ApproveCommit? || p.ScheduleCommit?
    || p.RescheduleCommit? || p.CancelCommit? || p.SkipCommit?
  }

  /** Action a is the write of an operator request on job j. */
  predicate OperatorActs(s: Sys, a: Action, j: JobId) {
    a.Run? && a.pid in s.procs && s.procs[a.pid].job == j && OperatorCommit(s.procs[a.pid].pc)
  }

  /** Action a calls the external publisher for job j. */
  predicate CallsPublisher(s: Sys, a: Action, j: JobId) {
    a.Run? && a.pid in s.procs && s.procs[a.pid].job == j && s.procs[a.pid].pc.PublishReady?
  }

  /** Action a replaces the variants of job j; nothing looks at the job's status. */
  predicate Replaces(s: Sys, a: Action, j: JobId) {
    && a.Run? && a.pid in s.procs && s.procs[a.pid].job == j && s.procs[a.pid].pc.GenClaimed?
    && a.choice.AiVariants? && ReplaceVariants(s.db, j, a.choice.variants).outcome == Committed
  }

  /** A status and a variant row never change together, time does not run backwards, a new job is NEW. */
  ghost predicate Orderly(db: Tables, db': Tables) {
    && (db'.variants == db.variants || forall j :: j in db.jobs ==>
          j in db'.jobs && db'.jobs[j].status == db.jobs[j].status)
    && db.now <= db'.now
    && (forall j :: j in db'.jobs && j !in db.jobs ==> db'.jobs[j].status == New)
  }

  predicate KeepsSelection(db: Tables, db': Tables, j: JobId) {
    j in db.jobs && j in db'.jobs ==>
      || db'.jobs[j].selected == db.jobs[j].selected
      || db'.jobs[j].selected.Some?
      || db'.jobs[j].status == VariantsQueued
  }

  ghost predicate Tidy(db: Tables, db': Tables, j: JobId) {
    Orderly(db, db') && KeepsSelection(db, db', j)
  }

  // ---- one transaction ----

  lemma UpdateTidy(db: Tables, id: JobId, to: Status, j: JobId)
    ensures Tidy(db, UpdateStatus(db, id, to).db, j)
  {
    hide CanTransition;
  }

  lemma ClaimTidy(db: Tables, id: JobId, from: Status, to: Status, j: JobId)
    ensures Tidy(db, ClaimStatus(db, id, from, to).db, j)
  {
    hide CanTransition;
  }

  lemma StageTidy(db: Tables, id: JobId, to: Status, u: ScoreUpdate, j: JobId)
    ensures Tidy(db, ApplyScored(db, id, u).db, j)
    ensures Tidy(db, CompleteAIStage(db, id, to).db, j)
  {
    hide CanTransition;
  }

  lemma ResultTidy(db: Tables, id: JobId, text: string, asOf: Time, j: JobId)
    ensures Tidy(db, MarkPublished(db, id, text).db, j)
    ensures Tidy(db, MarkFailed(db, id, text).db, j)
    ensures Tidy(db, ClaimScheduledDue(db, id, asOf).db, j)
  {
    hide CanTransition;
  }

  lemma ParkTidy(db: Tables, id: JobId, text: string, j: JobId)
    ensures Tidy(db, ParkForAIRetry(db, id, text).db, j)
  {
    hide CanTransition;
  }

  lemma ReviewTidy(db: Tables, id: JobId, count: nat, v: VariantId, caption: string, at: Time, j: JobId)
    ensures Tidy(db, QueueVariants(db, id, count).db, j)
    ensures Tidy(db, SelectVariant(db, id, v).db, j)
    ensures Tidy(db, ReselectVariant(db, id, v).db, j)
    ensures Tidy(db, UpdateVariantCaption(db, id, v, caption).db, j)
    ensures Tidy(db, Schedule(db, id, at).db, j)
    ensures Tidy(db, Reschedule(db, id, at).db, j)
    ensures Tidy(db, CancelSchedule(db, id).db, j)
  {
    ScheduleTidy(db, id, at, j);
    hide CanTransition, Schedule, Reschedule, CancelSchedule;
  }

  lemma ScheduleTidy(db: Tables, id: JobId, at: Time, j: JobId)
    ensures Tidy(db, Schedule(db, id, at).db, j)
    ensures Tidy(db, Reschedule(db, id, at).db, j)
    ensures Tidy(db, CancelSchedule(db, id).db, j)
  {
    hide CanTransition;
  }

  lemma ReplaceTidy(db: Tables, id: JobId, vs: seq<NewVariant>, j: JobId)
    ensures var e := ReplaceVariants(db, id, vs);
            Orderly(db, e.db) && (KeepsSelection(db, e.db, j) || (id == j && e.outcome == Committed))
  {
    hide InsertAll, WithoutJob, WellNumbered;
  }

  // ---- one step ----

  ghost predicate Quiet(s: Sys, s': Sys, j: JobId) {
    && Hist(s', j).events == Hist(s, j).events
    && Hist(s', j).calls == Hist(s, j).calls
    && Tidy(s.db, s'.db, j)
  }

  lemma CommitFrame(s: Sys, pid: Pid, e: Effect, h: History, next: Option<PC>, j: JobId)
    requires pid in s.procs
    ensures var s', h0 := Commit(s, pid, e, h, next), Hist(s, s.procs[pid].job);
            && (h.calls == h0.calls || s.procs[pid].job != j ==> Hist(s', j).calls == Hist(s, j).calls)
            && (h.events == h0.events || s.procs[pid].job != j ==> Hist(s', j).events == Hist(s, j).events)
            && (Orderly(s.db, e.db) ==> Orderly(s.db, s'.db))
            && (KeepsSelection(s.db, e.db, j) ==> KeepsSelection(s.db, s'.db, j))
            && (e.outcome != Committed ==> KeepsSelection(s.db, s'.db, j))
  {
  }

  lemma QuietCommit(s: Sys, pid: Pid, e: Effect, h: History, next: Option<PC>, j: JobId)
    requires pid in s.procs && Tidy(s.db, e.db, j)
    requires h.calls == Hist(s, s.procs[pid].job).calls && h.events == Hist(s, s.procs[pid].job).events
    ensures Quiet(s, Commit(s, pid, e, h, next), j)
  {
    hide Orderly, KeepsSelection;
    CommitFrame(s, pid, e, h, next, j);
  }

  lemma QuietMove(s: Sys, pid: Pid, next: Option<PC>, j: JobId)
    requires pid in s.procs
    ensures Quiet(s, Become(s, pid, next), j)
  {
  }

  lemma ParkFrame(s: Sys, pid: Pid, msg: string, j: JobId)
    requires pid in s.procs
    ensures Quiet(s, Park(s, pid, msg), j)
  {
    hide ParkForAIRetry, Tidy, Quiet, Commit;
    var k := s.procs[pid].job;
    var h := Hist(s, k);
    var first := if k in s.db.jobs && s.db.jobs[k].retries == 0 then Some(s.db.now) else h.firstPark;
    ParkTidy(s.db, k, msg, j);
    QuietCommit(s, pid, ParkForAIRetry(s.db, k, msg), h.(firstPark := first), None, j);
  }

  lemma ScoringFrame(s: Sys, pid: Pid, c: Choice, j: JobId)
    requires pid in s.procs && !s.procs[pid].pc.GenClaimed?
    ensures Quiet(s, StepScoring(s, pid, c), j)
  {
    hide Park, UpdateStatus, ClaimStatus, ApplyScored, MarkFailed, Tidy, Commit, Become;
    var k, h := s.procs[pid].job, Hist(s, s.procs[pid].job);
    match s.procs[pid].pc
    case Ingested =>
      UpdateTidy(s.db, k, ScoringQueued, j);
      QuietCommit(s, pid, UpdateStatus(s.db, k, ScoringQueued), h, None, j);
    case ScoreListed =>
      ClaimTidy(s.db, k, ScoringQueued, Scoring, j);
      QuietCommit(s, pid, ClaimStatus(s.db, k, ScoringQueued, Scoring), h, Some(ScoreClaimed), j);
    case ScoreClaimed =>
      ParkFrame(s, pid, "scoring: all AI providers failed", j);
      match c {
        case LoadError(msg) => QuietMove(s, pid, Some(ContextMissing(msg)), j);
        case AiFailed =>
        case AiScored(notify, provider, model) =>
          var u := ScoreUpdate(Scored, provider, model, "");
          StageTidy(s.db, k, Scored, u, j);
          QuietCommit(s, pid, ApplyScored(s.db, k, u), h.(scorer := Some(pid), firstPark := None),
                      Some(ScoreApplied(notify)), j);
        case _ => QuietMove(s, pid, None, j);
      }
    case ScoreApplied(notify) =>
      var to := if notify then WaitingFirstApproval else Skipped;
      UpdateTidy(s.db, k, to, j);
      QuietCommit(s, pid, UpdateStatus(s.db, k, to), h, None, j);
    case ContextMissing(msg) =>
      ResultTidy(s.db, k, msg, 0, j);
      QuietCommit(s, pid, MarkFailed(s.db, k, msg), h, None, j);
    case _ => Unmoved(s, j);
  }

  lemma Unmoved(s: Sys, j: JobId)
    ensures Quiet(s, s, j)
  {
  }

  lemma VariantsFrame(s: Sys, pid: Pid, c: Choice, j: JobId)
    requires pid in s.procs
    ensures var s' := StepVariants(s, pid, c);
            && Hist(s', j).events == Hist(s, j).events && Hist(s', j).calls == Hist(s, j).calls && Orderly(s.db, s'.db)
            && (Replaces(s, Run(pid, c), j) || KeepsSelection(s.db, s'.db, j))
  {
    hide Park, ClaimStatus, CompleteAIStage, ReplaceVariants, Commit, Become, Orderly, KeepsSelection;
    var k, h := s.procs[pid].job, Hist(s, s.procs[pid].job);
    match s.procs[pid].pc
    case GenListed =>
      ClaimTidy(s.db, k, VariantsQueued, GeneratingVariants, j);
      QuietCommit(s, pid, ClaimStatus(s.db, k, VariantsQueued, GeneratingVariants), h, Some(GenClaimed), j);
    case GenClaimed =>
      if c.AiVariants? { ReplaceFrame(s, pid, c, j); } else {
        ParkFrame(s, pid, "variants: all AI providers failed", j);
        QuietMove(s, pid, if c.LoadError? then Some(ContextMissing(c.msg)) else None, j);
      }
    case GenSaved =>
      StageTidy(s.db, k, WaitingVariantApproval, ScoreUpdate(Scored, "", "", ""), j);
      QuietCommit(s, pid, CompleteAIStage(s.db, k, WaitingVariantApproval), h.(firstPark := None), None, j);
    case _ => Unmoved(s, j);
  }

  lemma ReplaceFrame(s: Sys, pid: Pid, c: Choice, j: JobId)
    requires pid in s.procs && s.procs[pid].pc.GenClaimed? && c.AiVariants?
    ensures var s' := StepVariants(s, pid, c);
            && Hist(s', j).events == Hist(s, j).events && Hist(s', j).calls == Hist(s, j).calls && Orderly(s.db, s'.db)
            && (Replaces(s, Run(pid, c), j) || KeepsSelection(s.db, s'.db, j))
  {
    hide ReplaceVariants, Commit, Orderly, KeepsSelection;
    var k := s.procs[pid].job;
    ReplaceTidy(s.db, k, c.variants, j);
    CommitFrame(s, pid, ReplaceVariants(s.db, k, c.variants), Hist(s, k), Some(GenSaved), j);
  }

  lemma UpkeepFrame(s: Sys, pid: Pid, c: Choice, j: JobId)
    requires pid in s.procs
    ensures Quiet(s, StepUpkeep(s, pid, c), j)
  {
    hide Park, ClaimStatus, MarkPublished, MarkFailed, ClaimScheduledDue, SuccessfulPublishMediaID, ReleaseOf, Tidy,
         Commit, Become;
    var k, h := s.procs[pid].job, Hist(s, s.procs[pid].job);
    match s.procs[pid].pc
    case RetryListed(target) =>
      ClaimTidy(s.db, k, WaitingAI, target, j);
      QuietCommit(s, pid, ClaimStatus(s.db, k, WaitingAI, target), h, None, j);
    case StaleListed(seen) =>
      ParkFrame(s, pid, "recovered stale worker lease", j);
      var look := SuccessfulPublishMediaID(s.db.logs, k);
      QuietMove(s, pid, Some(StaleLogged(if look.Found? && !c.StatementLost? then Some(look.media) else None)), j);
    case StaleLogged(found) =>
      var uncertain := UNCERTAIN;
      ResultTidy(s.db, k, if found.Some? then found.value else uncertain, 0, j);
      if found.Some? { QuietCommit(s, pid, MarkPublished(s.db, k, found.value), h, None, j); }
      else { QuietCommit(s, pid, MarkFailed(s.db, k, uncertain), h, None, j); }
    case DueListed(asOf) =>
      ResultTidy(s.db, k, "", asOf, j);
      QuietCommit(s, pid, ClaimScheduledDue(s.db, k, asOf), Promoted(s, k), Some(PublishListed), j);
    case _ => Unmoved(s, j);
  }

  lemma RenderFrame(s: Sys, pid: Pid, v: VariantId, caption: string, image: ImageUrl, c: Choice, j: JobId)
    requires pid in s.procs
    ensures Quiet(s, Render(s, pid, v, caption, image, c), j)
  {
  }

  lemma LogFrame(s: Sys, pid: Pid, receipt: Option<Receipt>, msg: string, c: Choice, j: JobId)
    requires pid in s.procs
    ensures Quiet(s, LogResult(s, pid, receipt, msg, c), j)
  {
  }

  lemma CallFrame(s: Sys, pid: Pid, v: VariantId, caption: string, image: ImageUrl, c: Choice, j: JobId)
    requires pid in s.procs
    ensures var s' := CallPublisher(s, pid, v, caption, image, c);
            && (s.procs[pid].job == j || Hist(s', j).calls == Hist(s, j).calls)
            && Hist(s', j).events == Hist(s, j).events
            && Tidy(s.db, s'.db, j)
  {
    hide MediaIdOf;
  }

  lemma PublishFrame(s: Sys, pid: Pid, c: Choice, j: JobId)
    requires pid in s.procs
    ensures var s' := StepPublish(s, pid, c);
            && (CallsPublisher(s, Run(pid, c), j) || Hist(s', j).calls == Hist(s, j).calls)
            && Hist(s', j).events == Hist(s, j).events
            && Tidy(s.db, s'.db, j)
  {
    hide LoadJob, ReadVariant, Render, LogResult, CallPublisher, ClaimStatus, MarkPublished, MarkFailed, Tidy, Commit,
         Become;
    var k, h := s.procs[pid].job, Hist(s, s.procs[pid].job);
    match s.procs[pid].pc
    case PublishListed => LoadFrame(s, pid, c, j);
    case PublishLoaded(v) =>
      ClaimTidy(s.db, k, Approved, Publishing, j);
      QuietCommit(s, pid, ClaimStatus(s.db, k, Approved, Publishing), h.(claimant := Some(pid)),
          Some(PublishClaimed(v)), j);
    case PublishClaimed(v) => ReadFrame(s, pid, v, c, j);
    case PublishRead(v, caption, image) => RenderFrame(s, pid, v, caption, image, c, j);
    case PublishReady(v, caption, image) => CallFrame(s, pid, v, caption, image, c, j);
    case PublishReturned(receipt, msg) => LogFrame(s, pid, receipt, msg, c, j);
    case PublishLogged(media) =>
      ResultTidy(s.db, k, media, 0, j);
      QuietCommit(s, pid, MarkPublished(s.db, k, media), h, None, j);
    case PublishFailing(msg) =>
      ResultTidy(s.db, k, msg, 0, j);
      QuietCommit(s, pid, MarkFailed(s.db, k, msg), h, None, j);
    case _ => Unmoved(s, j);
  }

  lemma LoadFrame(s: Sys, pid: Pid, c: Choice, j: JobId)
    requires pid in s.procs
    ensures Quiet(s, LoadJob(s, pid, c), j)
  {
  }

  lemma ReadFrame(s: Sys, pid: Pid, v: VariantId, c: Choice, j: JobId)
    requires pid in s.procs
    ensures Quiet(s, ReadVariant(s, pid, v, c), j)
  {
  }

  lemma PreviewFrame(s: Sys, pid: Pid, c: Choice, j: JobId)
    requires pid in s.procs
    ensures Quiet(s, StepPreview(s, pid, c), j)
  {
  }

  lemma ReviewFrame(s: Sys, pid: Pid, j: JobId)
    requires pid in s.procs
    ensures Quiet(s, StepReview(s, pid), j)
  {
  }

  /** The write of one operator request: any transaction that is tidy, with one event noted. */
  lemma NotedCommit(s: Sys, pid: Pid, c: Choice, e: Effect, h: History, next: Option<PC>, j: JobId)
    requires pid in s.procs && OperatorCommit(s.procs[pid].pc) && Tidy(s.db, e.db, j)
    requires h.calls == Hist(s, s.procs[pid].job).calls
    ensures OperatorStep(s, pid, c, Commit(s, pid, e, h, next), j)
  {
    hide Orderly, KeepsSelection;
    CommitFrame(s, pid, e, h, next, j);
  }

  ghost predicate OperatorStep(s: Sys, pid: Pid, c: Choice, s': Sys, j: JobId) {
    && (OperatorActs(s, Run(pid, c), j) || Hist(s', j).events == Hist(s, j).events)
    && Hist(s', j).calls == Hist(s, j).calls
    && Tidy(s.db, s'.db, j)
  }

  lemma ReviewWrites(s: Sys, pid: Pid, c: Choice, count: nat, v: VariantId, reselect: bool, cont: Cont,
                     caption: string, j: JobId)
    requires pid in s.procs && OperatorCommit(s.procs[pid].pc)
    ensures OperatorStep(s, pid, c, Generate(s, pid, count), j)
    ensures OperatorStep(s, pid, c, Select(s, pid, v, reselect, cont), j)
    ensures OperatorStep(s, pid, c, Edit(s, pid, v, caption), j)
  {
    hide QueueVariants, SelectVariant, ReselectVariant, UpdateVariantCaption, Commit, Tidy, OperatorStep;
    var k, h := s.procs[pid].job, Hist(s, s.procs[pid].job);
    ReviewTidy(s.db, k, count, v, caption, 0, j);
    NotedCommit(s, pid, c, QueueVariants(s.db, k, count), Noted(h, Generated(count)), None, j);
    NotedCommit(s, pid, c, if reselect then ReselectVariant(s.db, k, v) else SelectVariant(s.db, k, v),
                Noted(h, Selected(v)), Some(PreviewStart(0, cont)), j);
    var isSelected := k in s.db.jobs && s.db.jobs[k].selected == Some(v);
    NotedCommit(s, pid, c, UpdateVariantCaption(s.db, k, v, caption), Noted(h, Edited(v)),
                if isSelected then Some(PreviewStart(0, Finish)) else None, j);
  }

  lemma ReleaseWrites(s: Sys, pid: Pid, c: Choice, at: Time, j: JobId)
    requires pid in s.procs && OperatorCommit(s.procs[pid].pc)
    ensures OperatorStep(s, pid, c, Approve(s, pid), j)
    ensures OperatorStep(s, pid, c, ScheduleAt(s, pid, at), j)
    ensures OperatorStep(s, pid, c, RescheduleAt(s, pid, at), j)
    ensures OperatorStep(s, pid, c, Cancel(s, pid), j)
    ensures OperatorStep(s, pid, c, Skip(s, pid), j)
  {
    hide UpdateStatus, Schedule, Reschedule, CancelSchedule, ReleaseOf, Commit, Tidy, OperatorStep;
    var k, h := s.procs[pid].job, Hist(s, s.procs[pid].job);
    UpdateTidy(s.db, k, Approved, j);
    UpdateTidy(s.db, k, Skipped, j);
    ReviewTidy(s.db, k, 0, 0, "", at, j);
    NotedCommit(s, pid, c, UpdateStatus(s.db, k, Approved), Noted(h, PublishAsked).(release := ReleaseOf(s.db, k)),
        None, j);
    NotedCommit(s, pid, c, Schedule(s.db, k, at), Noted(h, ScheduleAsked(at)), None, j);
    NotedCommit(s, pid, c, Reschedule(s.db, k, at), Noted(h, ScheduleAsked(at)), None, j);
    NotedCommit(s, pid, c, CancelSchedule(s.db, k), Noted(h, ScheduleCancelled), None, j);
    NotedCommit(s, pid, c, UpdateStatus(s.db, k, Skipped), Noted(h, SkipAsked), None, j);
  }

  lemma OperatorFrame(s: Sys, pid: Pid, c: Choice, j: JobId)
    requires pid in s.procs
    ensures OperatorStep(s, pid, c, StepOperator(s, pid), j)
  {
    hide Generate, Select, Edit, Approve, ScheduleAt, RescheduleAt, Cancel, Skip, OperatorStep;
    match s.procs[pid].pc
    case GenerateCommit(count) => ReviewWrites(s, pid, c, count, 0, false, Finish, "", j);
    case SelectCommit(v, reselect, cont) => ReviewWrites(s, pid, c, 0, v, reselect, cont, "", j);
    case EditCommit(v, caption) => ReviewWrites(s, pid, c, 0, v, false, Finish, caption, j);
    case ApproveCommit => ReleaseWrites(s, pid, c, 0, j);
    case ScheduleCommit(at) => ReleaseWrites(s, pid, c, at, j);
    case RescheduleCommit(at) => ReleaseWrites(s, pid, c, at, j);
    case CancelCommit => ReleaseWrites(s, pid, c, 0, j);
    case SkipCommit => ReleaseWrites(s, pid, c, 0, j);
    case _ => QuietIsOperatorStep(s, pid, c, j);
  }

  lemma QuietIsOperatorStep(s: Sys, pid: Pid, c: Choice, j: JobId)
    ensures OperatorStep(s, pid, c, s, j)
  {
  }

  lemma RunFrame(s: Sys, pid: Pid, c: Choice, j: JobId)
    requires pid in s.procs
    ensures var s' := RunProc(s, pid, c);
            && (CallsPublisher(s, Run(pid, c), j) || Hist(s', j).calls == Hist(s, j).calls)
            && (OperatorActs(s, Run(pid, c), j) || Hist(s', j).events == Hist(s, j).events)
            && (Replaces(s, Run(pid, c), j) || KeepsSelection(s.db, s'.db, j))
            && Orderly(s.db, s'.db)
  {
    hide StepScoring, StepVariants, StepUpkeep, StepPublish, StepPreview, StepReview, StepOperator,
         Hist, Orderly, KeepsSelection, Replaces, CallsPublisher, OperatorActs;
    if !s.procs[pid].pc.GenClaimed? { ScoringFrame(s, pid, c, j); }
    VariantsFrame(s, pid, c, j);
    UpkeepFrame(s, pid, c, j);
    PublishFrame(s, pid, c, j);
    PreviewFrame(s, pid, c, j);
    ReviewFrame(s, pid, j);
    OperatorFrame(s, pid, c, j);
  }

  /** The frame of any action. */
  lemma StepFrame(s: Sys, a: Action, j: JobId)
    ensures var s' := Step(s, a);
            && (CallsPublisher(s, a, j) || Hist(s', j).calls == Hist(s, j).calls)
            && (OperatorActs(s, a, j) || Hist(s', j).events == Hist(s, j).events)
            && (Replaces(s, a, j) || KeepsSelection(s.db, s'.db, j))
            && Orderly(s.db, s'.db)
  {
    hide RunProc, CanList, CanRequest;
    if a.Run? && a.pid in s.procs {
      hide Orderly, KeepsSelection, Replaces, CallsPublisher, OperatorActs;
      RunFrame(s, a.pid, a.choice, j);
    }
  }
}
