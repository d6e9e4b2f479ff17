/**
 Only requests lead to operator writes: a process that stands at an operator's statement was
 started by a Request action, whatever happened in between. Workers, retries, recovery and
 promotion never turn into one.
 */
module OperatorLineage {
  import opened Wrappers
  import opened JobStatus
  import opened PostTables
  import opened Pipeline
  import opened PipelineRuns
  import opened StepFrames

  /** The statements of operator requests, reads included. */
  predicate OfRequest(p: PC) {
    || OperatorCommit(p)
    || p.PreviewStart? || p.PreviewLoaded? || p.PreviewRead?
    || p.SelectStart? || p.SelectRead? || p.QueueRead? || p.ScheduleRead? || p.ReviewLoaded?
  }

  /** The processes that Request actions started. */
  function Requested(actions: seq<Action>): set<Pid> {
    if actions == [] then {}
    else
      var front, a := actions[..|actions| - 1], actions[|actions| - 1];
      Requested(front) + if a.Request? && CanRequest(After(front).db, a.proc) then {After(front).nextPid} else {}
  }

  ghost predicate Descends(s: Sys, requested: set<Pid>) {
    && (forall p :: p in s.procs ==> p < s.nextPid)
    && (forall p :: p in s.procs && OfRequest(s.procs[p].pc) ==> p in requested)
  }

  /** What a statement is followed by: never a request after a worker, and never the creation of a job. */
  predicate Follows(p: PC, next: PC) {
    (OfRequest(next) ==> OfRequest(p)) && (next.Ingested? ==> p == next)
  }

  /** What a step leaves of the processes: the others as they were, and its own not further up than it was. */
  ghost predicate OnlyMoves(s: Sys, s': Sys, pid: Pid) {
    && s'.nextPid == s.nextPid
    && (forall p :: p in s'.procs ==> p in s.procs && (p != pid ==> s'.procs[p] == s.procs[p]))
    && (pid in s'.procs && pid in s.procs ==>
          s'.procs[pid].job == s.procs[pid].job && Follows(s.procs[pid].pc, s'.procs[pid].pc))
  }

  lemma BecomeMoves(s: Sys, pid: Pid, next: Option<PC>)
    requires pid in s.procs && (next.Some? ==> Follows(s.procs[pid].pc, next.value))
    ensures OnlyMoves(s, Become(s, pid, next), pid)
  {
  }

  lemma CommitMoves(s: Sys, pid: Pid, e: Effect, h: History, next: Option<PC>)
    requires pid in s.procs && (next.Some? ==> Follows(s.procs[pid].pc, next.value))
    ensures OnlyMoves(s, Commit(s, pid, e, h, next), pid)
  {
  }

  lemma WorkersAreNoRequests(v: VariantId, caption: string, image: ImageUrl, r: Option<Receipt>,
                             msg: string, notify: bool)
    ensures !OfRequest(ScoreClaimed) && !OfRequest(ContextMissing(msg)) && !OfRequest(ScoreApplied(notify))
    ensures !OfRequest(GenClaimed) && !OfRequest(GenSaved) && !OfRequest(PublishListed)
    ensures !OfRequest(PublishLoaded(v)) && !OfRequest(PublishClaimed(v))
    ensures !OfRequest(PublishRead(v, caption, image)) && !OfRequest(PublishReady(v, caption, image))
    ensures !OfRequest(PublishReturned(r, msg)) && !OfRequest(PublishLogged(msg)) && !OfRequest(PublishFailing(msg))
  {
  }

  lemma LookedUpIsNoRequest(found: Option<string>)
    ensures !OfRequest(StaleLogged(found))
  {
  }

  lemma ScoringMoves(s: Sys, pid: Pid, c: Choice)
    requires pid in s.procs
    ensures OnlyMoves(s, StepScoring(s, pid, c), pid)
  {
    hide UpdateStatus, ClaimStatus, ApplyScored, MarkFailed, ParkForAIRetry, Hist;
  }

  lemma VariantsMove(s: Sys, pid: Pid, c: Choice)
    requires pid in s.procs
    ensures OnlyMoves(s, StepVariants(s, pid, c), pid)
  {
    hide ClaimStatus, ReplaceVariants, CompleteAIStage, ParkForAIRetry;
  }

  lemma UpkeepPartsMove(s: Sys, pid: Pid, c: Choice, msg: string, asOf: Time)
    requires pid in s.procs
    ensures OnlyMoves(s, Park(s, pid, msg), pid)
    ensures OnlyMoves(s, LookUp(s, pid, c), pid)
    ensures OnlyMoves(s, Promote(s, pid, asOf), pid)
  {
    hide ParkForAIRetry, ClaimScheduledDue, SuccessfulPublishMediaID, Promoted, OnlyMoves, Commit, Become,
         OfRequest, Hist;
    var j := s.procs[pid].job;
    var h := Hist(s, j);
    var first := if j in s.db.jobs && s.db.jobs[j].retries == 0 then Some(s.db.now) else h.firstPark;
    CommitMoves(s, pid, ParkForAIRetry(s.db, j, msg), h.(firstPark := first), None);
    var look := SuccessfulPublishMediaID(s.db.logs, j);
    var found := if look.Found? && !c.StatementLost? then Some(look.media) else None;
    LookedUpIsNoRequest(found);
    BecomeMoves(s, pid, Some(StaleLogged(found)));
    WorkersAreNoRequests(0, "", Blank, None, "", false);
    CommitMoves(s, pid, ClaimScheduledDue(s.db, j, asOf), Promoted(s, j), Some(PublishListed));
  }

  lemma UpkeepMoves(s: Sys, pid: Pid, c: Choice)
    requires pid in s.procs
    ensures OnlyMoves(s, StepUpkeep(s, pid, c), pid)
  {
    hide ClaimStatus, MarkPublished, MarkFailed, Park, LookUp, Promote, OnlyMoves, Commit;
    var j := s.procs[pid].job;
    var h := Hist(s, j);
    match s.procs[pid].pc
    case RetryListed(target) => CommitMoves(s, pid, ClaimStatus(s.db, j, WaitingAI, target), h, None);
    case StaleListed(_) => UpkeepPartsMove(s, pid, c, "recovered stale worker lease", 0);
    case StaleLogged(found) =>
      if found.Some? { CommitMoves(s, pid, MarkPublished(s.db, j, found.value), h, None); }
      else { CommitMoves(s, pid, MarkFailed(s.db, j, UNCERTAIN), h, None); }
    case DueListed(asOf) => UpkeepPartsMove(s, pid, c, "", asOf);
    case _ => NothingMoves(s, pid);
  }

  lemma NothingMoves(s: Sys, pid: Pid)
    ensures OnlyMoves(s, s, pid)
  {
  }

  lemma ReadsMove(s: Sys, pid: Pid, v: VariantId, c: Choice)
    requires pid in s.procs
    ensures OnlyMoves(s, LoadJob(s, pid, c), pid)
    ensures OnlyMoves(s, ClaimPublish(s, pid, v), pid)
    ensures OnlyMoves(s, ReadVariant(s, pid, v, c), pid)
  {
    hide ClaimStatus, OfRequest;
    var row := if v in s.db.variants then s.db.variants[v] else Variant(0, 0, "", "", Blank);
    var j := s.procs[pid].job;
    if j in s.db.jobs && s.db.jobs[j].selected.Some? {
      WorkersAreNoRequests(s.db.jobs[j].selected.value, "", Blank, None, "", false);
    }
    WorkersAreNoRequests(v, row.caption, row.image, None, "load variant: not found", false);
    if c.LoadError? { WorkersAreNoRequests(v, "", Blank, None, "load variant: " + c.msg, false); }
  }

  /** Everything but the processes is free to change. */
  lemma MovesWith(s: Sys, s': Sys, pid: Pid, db: Tables, hist: map<JobId, History>)
    requires OnlyMoves(s, s', pid)
    ensures OnlyMoves(s, s'.(db := db, hist := hist), pid)
  {
  }

  lemma SendsMove(s: Sys, pid: Pid, v: VariantId, caption: string, image: ImageUrl, r: Option<Receipt>,
                  msg: string, c: Choice)
    requires pid in s.procs
    ensures OnlyMoves(s, Render(s, pid, v, caption, image, c), pid)
    ensures OnlyMoves(s, CallPublisher(s, pid, v, caption, image, c), pid)
    ensures OnlyMoves(s, LogResult(s, pid, r, msg, c), pid)
  {
    hide SetVariantImageURL, InsertPublishLog, MediaIdOf, LogEntry, OnlyMoves, OfRequest, Hist;
    var url := if image != Blank then image else Upload(v, caption);
    var failed := if c.RenderFailed? then c.msg else "";
    WorkersAreNoRequests(v, caption, url, None, failed, false);
    BecomeMoves(s, pid, Some(PublishReady(v, caption, url)));
    BecomeMoves(s, pid, Some(PublishFailing(failed)));
    var rendered := Render(s, pid, v, caption, image, c);
    MovesWith(s, Become(s, pid, Some(PublishReady(v, caption, url))), pid, rendered.db, rendered.hist);
    var called := CallPublisher(s, pid, v, caption, image, c);
    var next := called.procs[pid].pc;
    WorkersAreNoRequests(v, caption, url, next.receipt, next.msg, false);
    BecomeMoves(s, pid, Some(next));
    MovesWith(s, Become(s, pid, Some(next)), pid, called.db, called.hist);
    var logged := LogResult(s, pid, r, msg, c);
    var after := if r.Some? then PublishLogged(r.value.media) else PublishFailing("instagram publish: " + msg);
    WorkersAreNoRequests(v, caption, url, r, if r.Some? then r.value.media else "instagram publish: " + msg, false);
    BecomeMoves(s, pid, Some(after));
    MovesWith(s, Become(s, pid, Some(after)), pid, logged.db, logged.hist);
  }

  lemma PublishMoves(s: Sys, pid: Pid, c: Choice)
    requires pid in s.procs
    ensures OnlyMoves(s, StepPublish(s, pid, c), pid)
  {
    hide LoadJob, ClaimPublish, ReadVariant, Render, CallPublisher, LogResult, MarkPublished, MarkFailed, OnlyMoves,
         Commit;
    var j := s.procs[pid].job;
    var h := Hist(s, j);
    match s.procs[pid].pc
    case PublishListed => ReadsMove(s, pid, 0, c);
    case PublishLoaded(v) => ReadsMove(s, pid, v, c);
    case PublishClaimed(v) => ReadsMove(s, pid, v, c);
    case PublishRead(v, caption, image) => SendsMove(s, pid, v, caption, image, None, "", c);
    case PublishReady(v, caption, image) => SendsMove(s, pid, v, caption, image, None, "", c);
    case PublishReturned(r, msg) => SendsMove(s, pid, 0, "", Blank, r, msg, c);
    case PublishLogged(media) => CommitMoves(s, pid, MarkPublished(s.db, j, media), h, None);
    case PublishFailing(msg) => CommitMoves(s, pid, MarkFailed(s.db, j, msg), h, None);
    case _ => NothingMoves(s, pid);
  }

  lemma ResumesOnward()
    ensures forall cont :: Resume(cont).Some? ==> !Resume(cont).value.Ingested?
  {
  }

  lemma PreviewMoves(s: Sys, pid: Pid, c: Choice)
    requires pid in s.procs && OfRequest(s.procs[pid].pc)
    ensures OnlyMoves(s, StepPreview(s, pid, c), pid)
  {
    ResumesOnward();
    hide SetVariantImageURLForCaption, Resume, OperatorCommit;
  }

  lemma ReviewMoves(s: Sys, pid: Pid)
    requires pid in s.procs && OfRequest(s.procs[pid].pc)
    ensures OnlyMoves(s, StepReview(s, pid), pid)
  {
    ResumesOnward();
    hide Resume, OperatorCommit;
  }

  lemma OperatorMoves(s: Sys, pid: Pid)
    requires pid in s.procs
    ensures OnlyMoves(s, StepOperator(s, pid), pid)
  {
    hide QueueVariants, SelectVariant, ReselectVariant, UpdateVariantCaption, Schedule, Reschedule, CancelSchedule,
         UpdateStatus;
  }

  lemma RunMoves(s: Sys, pid: Pid, c: Choice)
    requires pid in s.procs
    ensures OnlyMoves(s, RunProc(s, pid, c), pid)
  {
    hide OnlyMoves, StepScoring, StepVariants, StepUpkeep, StepPublish, StepPreview, StepReview, StepOperator;
    ScoringMoves(s, pid, c);
    VariantsMove(s, pid, c);
    UpkeepMoves(s, pid, c);
    PublishMoves(s, pid, c);
    if OfRequest(s.procs[pid].pc) {
      PreviewMoves(s, pid, c);
      ReviewMoves(s, pid);
    }
    OperatorMoves(s, pid);
  }

  lemma StepDescends(s: Sys, a: Action, requested: set<Pid>)
    requires Descends(s, requested)
    ensures Descends(Step(s, a), requested + if a.Request? && CanRequest(s.db, a.proc) then {s.nextPid} else {})
  {
    hide RunProc, CanRequest, OfRequest, Create;
    match a
    case Run(pid, c) => if pid in s.procs { RunMoves(s, pid, c); }
    case List(p) => if CanList(s.db, p) { ListedIsNoRequest(s.db, p); }
    case Ingest(j) => IngestedIsNoRequest();
    case _ =>
  }

  lemma ListedIsNoRequest(db: Tables, p: Proc)
    requires CanList(db, p)
    ensures !OfRequest(p.pc)
  {
  }

  lemma IngestedIsNoRequest()
    ensures !OfRequest(Ingested)
  {
  }

  /** In every reachable state, every process at a statement of a request was started by one. */
  lemma {:induction false} RequestsOnly(actions: seq<Action>)
    ensures Descends(After(actions), Requested(actions))
  {
    if actions != [] {
      hide Step, Descends, CanRequest;
      RequestsOnly(actions[..|actions| - 1]);
      StepDescends(After(actions[..|actions| - 1]), actions[|actions| - 1], Requested(actions[..|actions| - 1]));
    } else {
    }
  }

  /** The write of an operator request is made by a process that an operator's request started. */
  lemma OperatorWritesAreRequested(actions: seq<Action>, i: nat, j: JobId)
    requires i < |actions| && OperatorActs(At(actions, i), actions[i], j)
    ensures actions[i].Run? && actions[i].pid in Requested(actions[..i])
  {
    hide After, Requested;
    RequestsOnly(actions[..i]);
  }

  /** A run without requests has no operator writes. */
  lemma {:induction false} NoRequestNoWrite(actions: seq<Action>)
    requires forall m :: 0 <= m < |actions| ==> !actions[m].Request?
    ensures Requested(actions) == {}
  {
    if actions != [] { NoRequestNoWrite(actions[..|actions| - 1]); }
  }
}
