/**
 A process of Pipeline that nobody interferes with: which statement it runs next and what
 that does to the tables. Everything is said of the tables alone, so the methods of
 ApprovalService can be compared with it statement by statement.
 */
module SoloRuns {
  import opened Wrappers
  import opened JobStatus
  import opened PostTables
  import opened Pipeline
  import opened Notices
  import OutboxTable

  type Key = OutboxTable.Key

  /** Process 0 works on job id, starting at pc from the tables before, with these answers from outside. */
  datatype Solo = Solo(before: Tables, id: JobId, pc: PC, choices: seq<Choice>)

  /** The state after the process has run its first i statements; nothing happens once it is finished. */
  function StateAt(run: Solo, i: nat): Sys
    requires i <= |run.choices|
  {
    if i == 0 then Sys(run.before, map[], map[0 := Proc(run.id, run.pc)], 1)
    else
      var s := StateAt(run, i - 1);
      if 0 in s.procs then RunProc(s, 0, run.choices[i - 1]) else s
  }

  ghost predicate Is(s: Sys, id: JobId, db: Tables, pc: Option<PC>) {
    s.db == db && (if pc.Some? then 0 in s.procs && s.procs[0] == Proc(id, pc.value) else 0 !in s.procs)
  }

  /** After i statements the tables are db and the process is at pc, or finished. */
  ghost predicate Reached(run: Solo, i: nat, db: Tables, pc: Option<PC>) {
    i <= |run.choices| && Is(StateAt(run, i), run.id, db, pc)
  }

  /** Run alone, the process finishes and leaves the tables after. */
  ghost predicate EndsWith(run: Solo, after: Tables) {
    Reached(run, |run.choices|, after, None)
  }

  lemma SetOut(run: Solo)
    ensures Reached(run, 0, run.before, Some(run.pc))
  {
  }

  lemma {:induction false} Ends(run: Solo, i: nat, db: Tables)
    requires Reached(run, i, db, None)
    ensures EndsWith(run, db)
    decreases |run.choices| - i
  {
    hide RunProc;
    if i < |run.choices| { Ends(run, i + 1, db); }
  }

  ghost predicate CanGoOn(run: Solo, i: nat, db: Tables, pc: PC) {
    i < |run.choices| && Reached(run, i, db, Some(pc))
  }

  function IfCommitted(e: Effect, next: Option<PC>): Option<PC> {
    if e.outcome == Committed then next else None
  }

  // ---- scoring and generation workers ----

  lemma ScoreClaims(run: Solo, i: nat, db: Tables)
    requires CanGoOn(run, i, db, ScoreListed)
    ensures var e := ClaimStatus(db, run.id, ScoringQueued, Scoring);
            Reached(run, i + 1, e.db, IfCommitted(e, Some(ScoreClaimed)))
  {
    hide CanTransition;
  }

  lemma ScoreAnswered(run: Solo, i: nat, db: Tables)
    requires CanGoOn(run, i, db, ScoreClaimed)
    ensures match run.choices[i]
            case LoadError(msg) => Reached(run, i + 1, db, Some(ContextMissing(msg)))
            case AiFailed =>
              Reached(run, i + 1, ParkForAIRetry(db, run.id, "scoring: all AI providers failed").db, None)
            case AiScored(notify, provider, model) =>
              var e := ApplyScored(db, run.id, ScoreUpdate(Scored, provider, model, ""));
              Reached(run, i + 1, e.db, IfCommitted(e, Some(ScoreApplied(notify))))
            case _ => Reached(run, i + 1, db, None)
  {
    hide CanTransition, Parked;
  }

  lemma ScoreDecides(run: Solo, i: nat, db: Tables, notify: bool)
    requires CanGoOn(run, i, db, ScoreApplied(notify))
    ensures Reached(run, i + 1, UpdateStatus(db, run.id, if notify then WaitingFirstApproval else Skipped).db, None)
  {
    hide CanTransition;
  }

  lemma ContextFails(run: Solo, i: nat, db: Tables, msg: string)
    requires CanGoOn(run, i, db, ContextMissing(msg))
    ensures Reached(run, i + 1, MarkFailed(db, run.id, msg).db, None)
  {
    hide CanTransition;
  }

  lemma GenerationClaims(run: Solo, i: nat, db: Tables)
    requires CanGoOn(run, i, db, GenListed)
    ensures var e := ClaimStatus(db, run.id, VariantsQueued, GeneratingVariants);
            Reached(run, i + 1, e.db, IfCommitted(e, Some(GenClaimed)))
  {
    hide CanTransition;
  }

  lemma GenerationAnswered(run: Solo, i: nat, db: Tables)
    requires CanGoOn(run, i, db, GenClaimed)
    ensures match run.choices[i]
            case LoadError(msg) => Reached(run, i + 1, db, Some(ContextMissing(msg)))
            case AiFailed =>
              Reached(run, i + 1, ParkForAIRetry(db, run.id, "variants: all AI providers failed").db, None)
            case AiVariants(vs) =>
              var e := ReplaceVariants(db, run.id, vs);
              Reached(run, i + 1, e.db, IfCommitted(e, Some(GenSaved)))
            case _ => Reached(run, i + 1, db, None)
  {
    hide CanTransition, Parked, InsertAll, WellNumbered, WithoutJob;
  }

  lemma GenerationCompletes(run: Solo, i: nat, db: Tables)
    requires CanGoOn(run, i, db, GenSaved)
    ensures Reached(run, i + 1, CompleteAIStage(db, run.id, WaitingVariantApproval).db, None)
  {
    hide CanTransition;
  }

  // ---- upkeep ----

  lemma RetryQueues(run: Solo, i: nat, db: Tables, target: Status)
    requires CanGoOn(run, i, db, RetryListed(target))
    ensures Reached(run, i + 1, ClaimStatus(db, run.id, WaitingAI, target).db, None)
  {
    hide CanTransition;
  }

  lemma DuePromotes(run: Solo, i: nat, db: Tables, asOf: Time)
    requires CanGoOn(run, i, db, DueListed(asOf))
    ensures var e := ClaimScheduledDue(db, run.id, asOf);
            Reached(run, i + 1, e.db, IfCommitted(e, Some(PublishListed)))
  {
  }

  lemma StaleParks(run: Solo, i: nat, db: Tables, seen: Status)
    requires CanGoOn(run, i, db, StaleListed(seen)) && seen != Publishing
    ensures Reached(run, i + 1, ParkForAIRetry(db, run.id, "recovered stale worker lease").db, None)
  {
    hide CanTransition, Parked;
  }

  lemma StaleLooksUp(run: Solo, i: nat, db: Tables)
    requires CanGoOn(run, i, db, StaleListed(Publishing))
    ensures var look := SuccessfulPublishMediaID(db.logs, run.id);
            var found := if look.Found? && !run.choices[i].StatementLost? then Some(look.media) else None;
            Reached(run, i + 1, db, Some(StaleLogged(found)))
  {
    hide SuccessfulPublishMediaID;
  }

  lemma StaleSettles(run: Solo, i: nat, db: Tables, found: Option<string>)
    requires CanGoOn(run, i, db, StaleLogged(found))
    ensures Reached(run, i + 1,
                    if found.Some? then MarkPublished(db, run.id, found.value).db
                    else MarkFailed(db, run.id, UNCERTAIN).db, None)
  {
    hide CanTransition;
  }

  // ---- publishing ----

  lemma PublishLoads(run: Solo, i: nat, db: Tables)
    requires CanGoOn(run, i, db, PublishListed)
    ensures Reached(run, i + 1, db,
                    if !run.choices[i].LoadError? && run.id in db.jobs && db.jobs[run.id].selected.Some? then
                      Some(PublishLoaded(db.jobs[run.id].selected.value))
                    else None)
  {
  }

  lemma PublishClaims(run: Solo, i: nat, db: Tables, v: VariantId)
    requires CanGoOn(run, i, db, PublishLoaded(v))
    ensures var e := ClaimStatus(db, run.id, Approved, Publishing);
            Reached(run, i + 1, e.db, IfCommitted(e, Some(PublishClaimed(v))))
  {
    hide CanTransition;
  }

  lemma PublishReads(run: Solo, i: nat, db: Tables, v: VariantId)
    requires CanGoOn(run, i, db, PublishClaimed(v))
    ensures var c := run.choices[i];
            Reached(run, i + 1, db,
                    if c.LoadError? then Some(PublishFailing("load variant: " + c.msg))
                    else if v in db.variants then Some(PublishRead(v, db.variants[v].caption, db.variants[v].image))
                    else Some(PublishFailing("load variant: not found")))
  {
  }

  lemma PublishRenders(run: Solo, i: nat, db: Tables, v: VariantId, caption: string, image: ImageUrl)
    requires CanGoOn(run, i, db, PublishRead(v, caption, image))
    ensures var c := run.choices[i];
            if image != Blank then Reached(run, i + 1, db, Some(PublishReady(v, caption, image)))
            else if c.RenderFailed? then Reached(run, i + 1, db, Some(PublishFailing(c.msg)))
            else
              Reached(run, i + 1, if c.StatementLost? then db else SetVariantImageURL(db, v, Upload(v, caption)),
                      Some(PublishReady(v, caption, Upload(v, caption))))
  {
  }

  lemma PublishCalls(run: Solo, i: nat, db: Tables, v: VariantId, caption: string, image: ImageUrl)
    requires CanGoOn(run, i, db, PublishReady(v, caption, image))
    requires var c := run.choices[i];
             c.PublishedAs? ==> c.receipt.media != "" && MediaIdOf(c.receipt.response) == Some(c.receipt.media)
    ensures var c := run.choices[i];
            Reached(run, i + 1, db,
                    Some(PublishReturned(if c.PublishedAs? then Some(c.receipt) else None,
                                         if c.Refused? then c.msg else "")))
  {
    hide MediaIdOf;
  }

  lemma PublishLogs(run: Solo, i: nat, db: Tables, receipt: Option<Receipt>, msg: string)
    requires CanGoOn(run, i, db, PublishReturned(receipt, msg))
    ensures Reached(run, i + 1,
                    if run.choices[i].StatementLost? then db else InsertPublishLog(db, LogEntry(run.id, receipt, msg)),
                    Some(if receipt.Some? then PublishLogged(receipt.value.media)
                         else PublishFailing("instagram publish: " + msg)))
  {
  }

  lemma PublishMarks(run: Solo, i: nat, db: Tables, media: string)
    requires CanGoOn(run, i, db, PublishLogged(media))
    ensures Reached(run, i + 1, MarkPublished(db, run.id, media).db, None)
  {
    hide CanTransition;
  }

  lemma PublishFails(run: Solo, i: nat, db: Tables, msg: string)
    requires CanGoOn(run, i, db, PublishFailing(msg))
    ensures Reached(run, i + 1, MarkFailed(db, run.id, msg).db, None)
  {
    hide CanTransition;
  }

  // ---- previews ----

  lemma PreviewLoads(run: Solo, i: nat, db: Tables, attempt: nat, cont: Cont)
    requires CanGoOn(run, i, db, PreviewStart(attempt, cont))
    ensures Reached(run, i + 1, db,
                    if attempt < PREVIEW_ATTEMPTS && run.id in db.jobs && db.jobs[run.id].selected.Some? then
                      Some(PreviewLoaded(db.jobs[run.id].selected.value, attempt, cont))
                    else None)
  {
  }

  lemma PreviewReads(run: Solo, i: nat, db: Tables, v: VariantId, attempt: nat, cont: Cont)
    requires CanGoOn(run, i, db, PreviewLoaded(v, attempt, cont))
    ensures Reached(run, i + 1, db,
                    if v in db.variants then Some(PreviewRead(v, db.variants[v].caption, attempt, cont)) else None)
  {
  }

  lemma PreviewStores(run: Solo, i: nat, db: Tables, v: VariantId, caption: string, attempt: nat, cont: Cont)
    requires CanGoOn(run, i, db, PreviewRead(v, caption, attempt, cont))
    ensures if run.choices[i].RenderFailed? then Reached(run, i + 1, db, None)
            else
              var e := SetVariantImageURLForCaption(db, v, caption, Upload(v, caption));
              Reached(run, i + 1, e.db,
                      if e.outcome == Committed then Resume(cont) else Some(PreviewStart(attempt + 1, cont)))
  {
    hide SetVariantImageURL, Resume;
  }

  // ---- operator requests ----

  lemma SelectStarts(run: Solo, i: nat, db: Tables, v: VariantId, cont: Cont)
    requires CanGoOn(run, i, db, SelectStart(v, cont))
    ensures Reached(run, i + 1, db, if OwnsVariant(db, run.id, v) then Some(SelectRead(v, cont)) else None)
  {
  }

  lemma SelectReads(run: Solo, i: nat, db: Tables, v: VariantId, cont: Cont)
    requires CanGoOn(run, i, db, SelectRead(v, cont))
    ensures if run.id !in db.jobs then Reached(run, i + 1, db, None)
            else
              var row := db.jobs[run.id];
              Reached(run, i + 1, db,
                      if row.selected == Some(v)
                         && (row.status == Approved || row.status == Publishing || row.status == Published) then
                        Resume(cont)
                      else if row.status == ReadyToPublish && row.selected == Some(v) then Some(PreviewStart(0, cont))
                      else Some(SelectCommit(v, row.status == ReadyToPublish, cont)))
  {
  }

  lemma SelectCommits(run: Solo, i: nat, db: Tables, v: VariantId, reselect: bool, cont: Cont)
    requires CanGoOn(run, i, db, SelectCommit(v, reselect, cont))
    ensures var e := if reselect then ReselectVariant(db, run.id, v) else SelectVariant(db, run.id, v);
            Reached(run, i + 1, e.db, IfCommitted(e, Some(PreviewStart(0, cont))))
  {
    hide CanTransition;
  }

  lemma EditCommits(run: Solo, i: nat, db: Tables, v: VariantId, caption: string)
    requires CanGoOn(run, i, db, EditCommit(v, caption))
    ensures var e := UpdateVariantCaption(db, run.id, v, caption);
            var isSelected := run.id in db.jobs && db.jobs[run.id].selected == Some(v);
            Reached(run, i + 1, e.db, IfCommitted(e, if isSelected then Some(PreviewStart(0, Finish)) else None))
  {
  }

  lemma QueueReads(run: Solo, i: nat, db: Tables)
    requires CanGoOn(run, i, db, QueueRead)
    ensures Reached(run, i + 1, db,
                    if run.id in db.jobs && db.jobs[run.id].status == ReadyToPublish
                       && db.jobs[run.id].selected.Some? then
                      Some(ReviewLoaded(db.jobs[run.id].selected.value, ThenApprove))
                    else None)
  {
  }

  lemma ScheduleReads(run: Solo, i: nat, db: Tables, at: Time)
    requires CanGoOn(run, i, db, ScheduleRead(at))
    ensures Reached(run, i + 1, db,
                    if run.id !in db.jobs then None
                    else if db.jobs[run.id].status == Scheduled then Some(RescheduleCommit(at))
                    else if db.jobs[run.id].status == ReadyToPublish && db.jobs[run.id].selected.Some? then
                      Some(ReviewLoaded(db.jobs[run.id].selected.value, ThenSchedule(at)))
                    else None)
  {
  }

  lemma ReviewLoads(run: Solo, i: nat, db: Tables, v: VariantId, cont: Cont)
    requires CanGoOn(run, i, db, ReviewLoaded(v, cont))
    ensures Reached(run, i + 1, db,
                    if v !in db.variants then None
                    else if db.variants[v].image == Blank then Some(PreviewStart(0, cont))
                    else Resume(cont))
  {
  }

  lemma ApproveCommits(run: Solo, i: nat, db: Tables)
    requires CanGoOn(run, i, db, ApproveCommit)
    ensures Reached(run, i + 1, UpdateStatus(db, run.id, Approved).db, None)
  {
    hide CanTransition;
  }

  lemma ScheduleCommits(run: Solo, i: nat, db: Tables, at: Time)
    requires CanGoOn(run, i, db, ScheduleCommit(at))
    ensures Reached(run, i + 1, Schedule(db, run.id, at).db, None)
  {
    hide CanTransition;
  }

  lemma RescheduleCommits(run: Solo, i: nat, db: Tables, at: Time)
    requires CanGoOn(run, i, db, RescheduleCommit(at))
    ensures Reached(run, i + 1, Reschedule(db, run.id, at).db, None)
  {
  }

  // ---- a pass: one listed job after another ----

  datatype Work = Work(id: JobId, pc: PC, choices: seq<Choice>)

  /**
   The works, run alone one after another, turn the tables before into the tables after, and
   each reports what it changed.
   */
  ghost predicate InTurn(before: Tables, works: seq<Work>, after: Tables, keys: seq<Key>) {
    if works == [] then after == before && keys == []
    else
      var last := works[|works| - 1];
      exists mid, front :: InTurn(before, works[..|works| - 1], mid, front) && LastInTurn(mid, last, after, front, keys)
  }

  ghost predicate LastInTurn(mid: Tables, last: Work, after: Tables, front: seq<Key>, keys: seq<Key>) {
    && EndsWith(Solo(mid, last.id, last.pc, last.choices), after)
    && keys == front + NoticesOf(mid, after, last.id)
  }

  /**
   A pass over a listing: every work could be listed from the tables before, and the works, run
   one after another, leave the tables after and report these notices. A job taken by another
   worker in between just loses its claim.
   */
  ghost predicate Pass(before: Tables, works: seq<Work>, after: Tables, keys: seq<Key>) {
    && (forall k :: 0 <= k < |works| ==> CanList(before, Proc(works[k].id, works[k].pc)))
    && InTurn(before, works, after, keys)
  }

  lemma QueuedIsListable(db: Tables, id: JobId)
    ensures InQueue(db, id, ScoringQueued) ==> CanList(db, Proc(id, ScoreListed))
    ensures InQueue(db, id, VariantsQueued) ==> CanList(db, Proc(id, GenListed))
    ensures InQueue(db, id, Approved) ==> CanList(db, Proc(id, PublishListed))
    ensures InQueue(db, id, WaitingAI) ==>
              CanList(db, Proc(id, RetryListed(RetryStage(db.jobs[id]))))
    ensures id in db.jobs && DueBy(db.jobs[id], db.now) ==> CanList(db, Proc(id, DueListed(db.now)))
  {
  }

  lemma EmptyPass(before: Tables)
    ensures Pass(before, [], before, [])
  {
  }

  lemma NextInPass(before: Tables, works: seq<Work>, mid: Tables, w: Work, after: Tables, keys: seq<Key>)
    requires Pass(before, works, mid, keys) && CanList(before, Proc(w.id, w.pc))
    requires EndsWith(Solo(mid, w.id, w.pc, w.choices), after)
    ensures Pass(before, works + [w], after, keys + NoticesOf(mid, after, w.id))
  {
    hide EndsWith, CanList, NoticesOf;
    var longer := works + [w];
    assert longer[..|longer| - 1] == works && longer[|longer| - 1] == w;
    assert InTurn(before, longer[..|longer| - 1], mid, keys);
    assert LastInTurn(mid, w, after, keys, keys + NoticesOf(mid, after, w.id));
  }
}
