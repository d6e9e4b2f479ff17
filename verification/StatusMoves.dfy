/**
 Which statement moves which status: an action changes at most the status of the job its
 process works on, and where to is a matter of the statement it stands at.
 */
module StatusMoves {
  import opened Wrappers
  import opened JobStatus
  import opened PostTables
  import opened Pipeline

  /** A park sends a job to WAITING_AI, or to FAILED from the stages that may be parked. */
  predicate ParkMoves(from: Status, to: Status) {
    (from == Scoring || from == GeneratingVariants) && (to == WaitingAI || to == Failed)
  }

  /** What a process at statement p may do to the status of its job. */
  predicate Moves(p: PC, from: Status, to: Status) {
    match p
    case Ingested => to == ScoringQueued
    case ScoreListed => from == ScoringQueued && to == Scoring
    case ScoreClaimed => to == Scored || ParkMoves(from, to)
    case ScoreApplied(notify) => to == if notify then WaitingFirstApproval else Skipped
    case GenListed => from == VariantsQueued && to == GeneratingVariants
    case GenClaimed => ParkMoves(from, to)
    case GenSaved => to == WaitingVariantApproval
    case ContextMissing(_) => to == Failed
    case RetryListed(target) => from == WaitingAI && to == target
    case StaleListed(_) => ParkMoves(from, to)
    case StaleLogged(found) => to == if found.Some? then Published else Failed
    case DueListed(_) => from == Scheduled && to == Approved
    case PublishLoaded(_) => from == Approved && to == Publishing
    case PublishLogged(_) => to == Published
    case PublishFailing(_) => to == Failed
    case GenerateCommit(_) => to == VariantsQueued
    case SelectCommit(_, _, _) => to == ReadyToPublish
    case ApproveCommit => to == Approved
    case ScheduleCommit(_) => to == Scheduled
    case CancelCommit => to == ReadyToPublish
    case SkipCommit => to == Skipped
    case _ => false
  }

  /** From db to db' no status changes but that of job id, and that as statement p may change it. */
  ghost predicate MovesOnly(db: Tables, db': Tables, id: JobId, p: PC) {
    forall k :: k in db.jobs ==>
      && k in db'.jobs
      && (db'.jobs[k].status == db.jobs[k].status || (k == id && Moves(p, db.jobs[k].status, db'.jobs[k].status)))
  }

  lemma NothingMoved(db: Tables, id: JobId, p: PC)
    ensures MovesOnly(db, db, id, p)
  {
  }

  /** A transaction that writes one row. */
  lemma PutMoves(db: Tables, id: JobId, row: Job, p: PC)
    requires id in db.jobs && (row.status == db.jobs[id].status || Moves(p, db.jobs[id].status, row.status))
    ensures MovesOnly(db, Put(db, id, row), id, p)
  {
  }

  lemma CommitMoves(s: Sys, pid: Pid, e: Effect, h: History, next: Option<PC>, p: PC)
    requires pid in s.procs && MovesOnly(s.db, e.db, s.procs[pid].job, p)
    ensures MovesOnly(s.db, Commit(s, pid, e, h, next).db, s.procs[pid].job, p)
  {
  }

  lemma ClaimMoves(db: Tables, id: JobId, from: Status, to: Status, p: PC)
    requires Moves(p, from, to)
    ensures MovesOnly(db, ClaimStatus(db, id, from, to).db, id, p)
  {
    hide CanTransition, Moves;
  }

  lemma UpdateMoves(db: Tables, id: JobId, to: Status, u: ScoreUpdate, text: string, count: nat, p: PC)
    requires id in db.jobs
    ensures Moves(p, db.jobs[id].status, to) ==> MovesOnly(db, UpdateStatus(db, id, to).db, id, p)
    ensures Moves(p, db.jobs[id].status, u.status) ==> MovesOnly(db, ApplyScored(db, id, u).db, id, p)
    ensures Moves(p, db.jobs[id].status, to) ==> MovesOnly(db, CompleteAIStage(db, id, to).db, id, p)
    ensures Moves(p, db.jobs[id].status, Published) ==> MovesOnly(db, MarkPublished(db, id, text).db, id, p)
    ensures Moves(p, db.jobs[id].status, Failed) ==> MovesOnly(db, MarkFailed(db, id, text).db, id, p)
    ensures Moves(p, db.jobs[id].status, VariantsQueued) ==> MovesOnly(db, QueueVariants(db, id, count).db, id, p)
  {
    hide CanTransition, Moves, MovesOnly, UpdateStatus, ApplyScored, CompleteAIStage;
    var r, now := db.jobs[id], db.now;
    NothingMoved(db, id, p);
    StageMoves(db, id, to, u, p);
    if Moves(p, r.status, Published) { PutMoves(db, id, Moved(r, Published, now).(mediaId := text, error := ""), p); }
    if Moves(p, r.status, Failed) { PutMoves(db, id, Moved(r, Failed, now).(error := text), p); }
    if Moves(p, r.status, VariantsQueued) {
      PutMoves(db, id, Moved(r, VariantsQueued, now).(requestedVariants := count, selected := None), p);
    }
  }

  lemma StageMoves(db: Tables, id: JobId, to: Status, u: ScoreUpdate, p: PC)
    requires id in db.jobs
    ensures Moves(p, db.jobs[id].status, to) ==> MovesOnly(db, UpdateStatus(db, id, to).db, id, p)
    ensures Moves(p, db.jobs[id].status, u.status) ==> MovesOnly(db, ApplyScored(db, id, u).db, id, p)
    ensures Moves(p, db.jobs[id].status, to) ==> MovesOnly(db, CompleteAIStage(db, id, to).db, id, p)
  {
    hide CanTransition, Moves, MovesOnly;
    var r, now := db.jobs[id], db.now;
    NothingMoved(db, id, p);
    if Moves(p, r.status, to) {
      PutMoves(db, id, Moved(r, to, now), p);
      PutMoves(db, id, Moved(r, to, now).(aiError := "", retries := 0, nextRetryAt := now), p);
    }
    if Moves(p, r.status, u.status) { PutMoves(db, id, Staged(r, u, now), p); }
  }

  lemma ParkMovesOnly(db: Tables, id: JobId, msg: string, p: PC)
    requires p.ScoreClaimed? || p.GenClaimed? || p.StaleListed?
    ensures MovesOnly(db, ParkForAIRetry(db, id, msg).db, id, p)
  {
    if id in db.jobs { EdgesInto(db.jobs[id].status, WaitingAI); }
    hide CanTransition, RetryDelay;
  }

  lemma ReviewMoves(db: Tables, id: JobId, v: VariantId, at: Time, p: PC)
    requires id in db.jobs
    ensures p.SelectCommit? ==> MovesOnly(db, SelectVariant(db, id, v).db, id, p)
    ensures MovesOnly(db, ReselectVariant(db, id, v).db, id, p)
    ensures p.ScheduleCommit? ==> MovesOnly(db, Schedule(db, id, at).db, id, p)
    ensures MovesOnly(db, Reschedule(db, id, at).db, id, p)
    ensures p.CancelCommit? ==> MovesOnly(db, CancelSchedule(db, id).db, id, p)
    ensures p.DueListed? ==> MovesOnly(db, ClaimScheduledDue(db, id, at).db, id, p)
  {
    hide MovesOnly;
    SelectionMoves(db, id, v, p);
    TimeMoves(db, id, at, p);
  }

  lemma SelectionMoves(db: Tables, id: JobId, v: VariantId, p: PC)
    requires id in db.jobs
    ensures p.SelectCommit? ==> MovesOnly(db, SelectVariant(db, id, v).db, id, p)
    ensures MovesOnly(db, ReselectVariant(db, id, v).db, id, p)
  {
    hide CanTransition, MovesOnly;
    var r, now := db.jobs[id], db.now;
    NothingMoved(db, id, p);
    PutMoves(db, id, r.(selected := Some(v), updatedAt := now), p);
    if p.SelectCommit? { PutMoves(db, id, Moved(r, ReadyToPublish, now).(selected := Some(v)), p); }
  }

  lemma TimeMoves(db: Tables, id: JobId, at: Time, p: PC)
    requires id in db.jobs
    ensures p.ScheduleCommit? ==> MovesOnly(db, Schedule(db, id, at).db, id, p)
    ensures MovesOnly(db, Reschedule(db, id, at).db, id, p)
    ensures p.CancelCommit? ==> MovesOnly(db, CancelSchedule(db, id).db, id, p)
    ensures p.DueListed? ==> MovesOnly(db, ClaimScheduledDue(db, id, at).db, id, p)
  {
    hide CanTransition, MovesOnly;
    var r, now := db.jobs[id], db.now;
    NothingMoved(db, id, p);
    PutMoves(db, id, r.(scheduledAt := Some(at), updatedAt := now), p);
    if p.ScheduleCommit? { PutMoves(db, id, Moved(r, Scheduled, now).(scheduledAt := Some(at)), p); }
    if p.CancelCommit? { PutMoves(db, id, Moved(r, ReadyToPublish, now).(scheduledAt := None), p); }
    if p.DueListed? && r.status == Scheduled { PutMoves(db, id, Moved(r, Approved, now), p); }
  }

  /** Writing variants or logs, or clearing a selection, moves no status. */
  lemma SameStatuses(db: Tables, db': Tables, id: JobId, p: PC)
    requires id in db.jobs && (db'.jobs == db.jobs || db'.jobs == db.jobs[id := db.jobs[id].(selected := None)])
    ensures MovesOnly(db, db', id, p)
  {
  }

  lemma VariantMoves(db: Tables, id: JobId, v: VariantId, text: string, url: ImageUrl, vs: seq<NewVariant>,
                     entry: PublishLog, p: PC)
    requires id in db.jobs
    ensures MovesOnly(db, UpdateVariantCaption(db, id, v, text).db, id, p)
    ensures MovesOnly(db, ReplaceVariants(db, id, vs).db, id, p)
    ensures MovesOnly(db, SetVariantImageURL(db, v, url), id, p)
    ensures MovesOnly(db, SetVariantImageURLForCaption(db, v, text, url).db, id, p)
    ensures MovesOnly(db, InsertPublishLog(db, entry), id, p)
  {
    hide InsertAll, WithoutJob, WellNumbered, MovesOnly;
    SameStatuses(db, UpdateVariantCaption(db, id, v, text).db, id, p);
    SameStatuses(db, ReplaceVariants(db, id, vs).db, id, p);
    SameStatuses(db, SetVariantImageURL(db, v, url), id, p);
    SameStatuses(db, SetVariantImageURLForCaption(db, v, text, url).db, id, p);
    SameStatuses(db, InsertPublishLog(db, entry), id, p);
  }

  // ---- one step of a process whose job exists ----

  ghost predicate StepMoves(s: Sys, s': Sys, pid: Pid)
    requires pid in s.procs
  {
    MovesOnly(s.db, s'.db, s.procs[pid].job, s.procs[pid].pc)
  }

  lemma ScoringMoves(s: Sys, pid: Pid, c: Choice)
    requires pid in s.procs && s.procs[pid].job in s.db.jobs
    ensures StepMoves(s, StepScoring(s, pid, c), pid)
  {
    hide UpdateStatus, ClaimStatus, ApplyScored, MarkFailed, ParkForAIRetry, MovesOnly, Commit;
    var Proc(j, p) := s.procs[pid];
    var h := Hist(s, j);
    NothingMoved(s.db, j, p);
    match p
    case Ingested =>
      UpdateMoves(s.db, j, ScoringQueued, ScoreUpdate(New, "", "", ""), "", 0, p);
      CommitMoves(s, pid, UpdateStatus(s.db, j, ScoringQueued), h, None, p);
    case ScoreListed =>
      ClaimMoves(s.db, j, ScoringQueued, Scoring, p);
      CommitMoves(s, pid, ClaimStatus(s.db, j, ScoringQueued, Scoring), h, Some(ScoreClaimed), p);
    case ScoreClaimed =>
      if c.AiFailed? {
        ParkStepMoves(s, pid, "scoring: all AI providers failed");
      } else if c.AiScored? {
        var u := ScoreUpdate(Scored, c.provider, c.model, "");
        UpdateMoves(s.db, j, Scored, u, "", 0, p);
        CommitMoves(s, pid, ApplyScored(s.db, j, u), h.(scorer := Some(pid), firstPark := None),
                    Some(ScoreApplied(c.notify)), p);
      }
    case ScoreApplied(notify) =>
      var to := if notify then WaitingFirstApproval else Skipped;
      UpdateMoves(s.db, j, to, ScoreUpdate(New, "", "", ""), "", 0, p);
      CommitMoves(s, pid, UpdateStatus(s.db, j, to), h, None, p);
    case ContextMissing(msg) =>
      UpdateMoves(s.db, j, Failed, ScoreUpdate(New, "", "", ""), msg, 0, p);
      CommitMoves(s, pid, MarkFailed(s.db, j, msg), h, None, p);
    case _ =>
  }

  lemma ParkStepMoves(s: Sys, pid: Pid, msg: string)
    requires pid in s.procs
    requires var p := s.procs[pid].pc; p.ScoreClaimed? || p.GenClaimed? || p.StaleListed?
    ensures StepMoves(s, Park(s, pid, msg), pid)
  {
    hide ParkForAIRetry, MovesOnly, Commit, Hist;
    var Proc(j, p) := s.procs[pid];
    var h := Hist(s, j);
    var first := if j in s.db.jobs && s.db.jobs[j].retries == 0 then Some(s.db.now) else h.firstPark;
    ParkMovesOnly(s.db, j, msg, p);
    CommitMoves(s, pid, ParkForAIRetry(s.db, j, msg), h.(firstPark := first), None, p);
  }

  lemma VariantsStepMoves(s: Sys, pid: Pid, c: Choice)
    requires pid in s.procs && s.procs[pid].job in s.db.jobs
    ensures StepMoves(s, StepVariants(s, pid, c), pid)
  {
    hide ClaimStatus, ReplaceVariants, CompleteAIStage, ParkForAIRetry, MovesOnly, Commit;
    var Proc(j, p) := s.procs[pid];
    var h := Hist(s, j);
    NothingMoved(s.db, j, p);
    match p
    case GenListed =>
      ClaimMoves(s.db, j, VariantsQueued, GeneratingVariants, p);
      CommitMoves(s, pid, ClaimStatus(s.db, j, VariantsQueued, GeneratingVariants), h, Some(GenClaimed), p);
    case GenClaimed =>
      if c.AiFailed? {
        ParkStepMoves(s, pid, "variants: all AI providers failed");
      } else if c.AiVariants? {
        VariantMoves(s.db, j, 0, "", Blank, c.variants, LogEntry(j, None, ""), p);
        CommitMoves(s, pid, ReplaceVariants(s.db, j, c.variants), h, Some(GenSaved), p);
      }
    case GenSaved =>
      UpdateMoves(s.db, j, WaitingVariantApproval, ScoreUpdate(New, "", "", ""), "", 0, p);
      CommitMoves(s, pid, CompleteAIStage(s.db, j, WaitingVariantApproval), h.(firstPark := None), None, p);
    case _ =>
  }

  lemma UpkeepMoves(s: Sys, pid: Pid, c: Choice)
    requires pid in s.procs && s.procs[pid].job in s.db.jobs
    ensures StepMoves(s, StepUpkeep(s, pid, c), pid)
  {
    hide ClaimStatus, ClaimScheduledDue, MarkPublished, MarkFailed, Park, MovesOnly, Commit,
         SuccessfulPublishMediaID, Promoted;
    var Proc(j, p) := s.procs[pid];
    var h := Hist(s, j);
    NothingMoved(s.db, j, p);
    match p
    case RetryListed(target) =>
      ClaimMoves(s.db, j, WaitingAI, target, p);
      CommitMoves(s, pid, ClaimStatus(s.db, j, WaitingAI, target), h, None, p);
    case StaleListed(seen) =>
      if seen != Publishing { ParkStepMoves(s, pid, "recovered stale worker lease"); }
    case StaleLogged(found) =>
      var media := if found.Some? then found.value else UNCERTAIN;
      UpdateMoves(s.db, j, Failed, ScoreUpdate(New, "", "", ""), media, 0, p);
      if found.Some? { CommitMoves(s, pid, MarkPublished(s.db, j, media), h, None, p); }
      else { CommitMoves(s, pid, MarkFailed(s.db, j, UNCERTAIN), h, None, p); }
    case DueListed(asOf) =>
      ReviewMoves(s.db, j, 0, asOf, p);
      CommitMoves(s, pid, ClaimScheduledDue(s.db, j, asOf), Promoted(s, j), Some(PublishListed), p);
    case _ =>
  }

  lemma PublishMoves(s: Sys, pid: Pid, c: Choice)
    requires pid in s.procs && s.procs[pid].job in s.db.jobs
    ensures StepMoves(s, StepPublish(s, pid, c), pid)
  {
    hide ClaimStatus, MarkPublished, MarkFailed, SetVariantImageURL, InsertPublishLog, MovesOnly, Commit, MediaIdOf,
         LogEntry, Hist;
    var Proc(j, p) := s.procs[pid];
    var h := Hist(s, j);
    NothingMoved(s.db, j, p);
    match p
    case PublishLoaded(v) =>
      ClaimMoves(s.db, j, Approved, Publishing, p);
      CommitMoves(s, pid, ClaimStatus(s.db, j, Approved, Publishing), h.(claimant := Some(pid)),
          Some(PublishClaimed(v)), p);
    case PublishRead(v, caption, image) =>
      VariantMoves(s.db, j, v, "", Upload(v, caption), [], LogEntry(j, None, ""), p);
    case PublishReturned(r, msg) => VariantMoves(s.db, j, 0, "", Blank, [], LogEntry(j, r, msg), p);
    case PublishLogged(media) =>
      UpdateMoves(s.db, j, Published, ScoreUpdate(New, "", "", ""), media, 0, p);
      CommitMoves(s, pid, MarkPublished(s.db, j, media), h, None, p);
    case PublishFailing(msg) =>
      UpdateMoves(s.db, j, Failed, ScoreUpdate(New, "", "", ""), msg, 0, p);
      CommitMoves(s, pid, MarkFailed(s.db, j, msg), h, None, p);
    case _ =>
  }

  lemma PreviewMoves(s: Sys, pid: Pid, c: Choice)
    requires pid in s.procs && s.procs[pid].job in s.db.jobs
    ensures StepMoves(s, StepPreview(s, pid, c), pid) && StepMoves(s, StepReview(s, pid), pid)
  {
    hide SetVariantImageURLForCaption, MovesOnly, Resume;
    var Proc(j, p) := s.procs[pid];
    NothingMoved(s.db, j, p);
    if p.PreviewRead? {
      VariantMoves(s.db, j, p.variant, p.caption, Upload(p.variant, p.caption), [], LogEntry(j, None, ""), p);
    }
  }

  lemma OperatorMoves(s: Sys, pid: Pid)
    requires pid in s.procs && s.procs[pid].job in s.db.jobs
    ensures StepMoves(s, StepOperator(s, pid), pid)
  {
    hide QueueVariants, SelectVariant, ReselectVariant, UpdateVariantCaption, Schedule, Reschedule, CancelSchedule,
         UpdateStatus, MovesOnly, Commit, ReleaseOf;
    var Proc(j, p) := s.procs[pid];
    var h := Hist(s, j);
    NothingMoved(s.db, j, p);
    match p
    case GenerateCommit(count) =>
      UpdateMoves(s.db, j, New, ScoreUpdate(New, "", "", ""), "", count, p);
      CommitMoves(s, pid, QueueVariants(s.db, j, count), Noted(h, Generated(count)), None, p);
    case SelectCommit(v, reselect, cont) =>
      ReviewMoves(s.db, j, v, 0, p);
      CommitMoves(s, pid, if reselect then ReselectVariant(s.db, j, v) else SelectVariant(s.db, j, v),
                  Noted(h, Selected(v)), Some(PreviewStart(0, cont)), p);
    case EditCommit(v, caption) =>
      VariantMoves(s.db, j, v, caption, Blank, [], LogEntry(j, None, ""), p);
      CommitMoves(s, pid, UpdateVariantCaption(s.db, j, v, caption), Noted(h, Edited(v)),
                  if s.db.jobs[j].selected == Some(v) then Some(PreviewStart(0, Finish)) else None, p);
    case ApproveCommit =>
      UpdateMoves(s.db, j, Approved, ScoreUpdate(New, "", "", ""), "", 0, p);
      CommitMoves(s, pid, UpdateStatus(s.db, j, Approved), Noted(h, PublishAsked).(release := ReleaseOf(s.db, j)),
          None, p);
    case ScheduleCommit(at) =>
      ReviewMoves(s.db, j, 0, at, p);
      CommitMoves(s, pid, Schedule(s.db, j, at), Noted(h, ScheduleAsked(at)), None, p);
    case RescheduleCommit(at) =>
      ReviewMoves(s.db, j, 0, at, p);
      CommitMoves(s, pid, Reschedule(s.db, j, at), Noted(h, ScheduleAsked(at)), None, p);
    case CancelCommit =>
      ReviewMoves(s.db, j, 0, 0, p);
      CommitMoves(s, pid, CancelSchedule(s.db, j), Noted(h, ScheduleCancelled), None, p);
    case SkipCommit =>
      UpdateMoves(s.db, j, Skipped, ScoreUpdate(New, "", "", ""), "", 0, p);
      CommitMoves(s, pid, UpdateStatus(s.db, j, Skipped), Noted(h, SkipAsked), None, p);
    case _ =>
  }

  lemma RunMoves(s: Sys, pid: Pid, c: Choice)
    requires pid in s.procs && s.procs[pid].job in s.db.jobs
    ensures StepMoves(s, RunProc(s, pid, c), pid)
  {
    hide StepMoves, StepScoring, StepVariants, StepUpkeep, StepPublish, StepPreview, StepReview, StepOperator;
    ScoringMoves(s, pid, c);
    VariantsStepMoves(s, pid, c);
    UpkeepMoves(s, pid, c);
    PublishMoves(s, pid, c);
    PreviewMoves(s, pid, c);
    OperatorMoves(s, pid);
  }

  /** Process a.pid runs its next statement for job j. */
  predicate RunsFor(s: Sys, a: Action, j: JobId) {
    a.Run? && a.pid in s.procs && s.procs[a.pid].job == j
  }

  /** A status changes only by a statement of a process of that job, and as that statement may change it. */
  lemma StatusMovesByStatement(s: Sys, a: Action, j: JobId)
    requires j in s.db.jobs && forall p :: p in s.procs ==> s.procs[p].job in s.db.jobs
    ensures var s' := Step(s, a);
            && j in s'.db.jobs
            && (s'.db.jobs[j].status == s.db.jobs[j].status
                || (RunsFor(s, a, j) && Moves(s.procs[a.pid].pc, s.db.jobs[j].status, s'.db.jobs[j].status)))
  {
    hide RunProc, CanList, CanRequest, Moves;
    if a.Run? && a.pid in s.procs { RunMoves(s, a.pid, a.choice); }
  }
}
