/**
 The inductive invariant of the protocol and the argument that makes it inductive:
 an action changes one job, its history, its own variants and log entries, and one
 process. Every other process only relies on facts about its job that no action of
 somebody else can undo (Evolves).
 */
module PipelineInvariant {
  import opened Wrappers
  import opened JobStatus
  import opened PostTables
  import opened Pipeline

  // ---- what the operator has decided so far, read off the event log ----

  datatype Phase = Idle | Offered | Picked(variant: VariantId) | Cleared(variant: VariantId)

  function Advance(p: Phase, e: OpEvent): Phase {
    match e
    case Generated(_) => Offered
    case Selected(v) => if p.Idle? then Idle else Picked(v)
    case PublishAsked => if p.Picked? then Cleared(p.variant) else p
    case ScheduleAsked(_) => if p.Picked? then Cleared(p.variant) else p
    case ScheduleCancelled => if p.Cleared? then Picked(p.variant) else p
    case Edited(_) => p
    case SkipAsked => p
  }

  function PhaseOf(events: seq<OpEvent>): Phase {
    if events == [] then Idle
    else Advance(PhaseOf(events[..|events| - 1]), events[|events| - 1])
  }

  /** The publish time the operator asked for last. */
  function LastAsked(events: seq<OpEvent>): Option<Time> {
    if events == [] then None
    else
      match events[|events| - 1]
      case ScheduleAsked(at) => Some(at)
      case _ => LastAsked(events[..|events| - 1])
  }

  predicate Names(p: Phase, v: VariantId) {
    (p.Picked? || p.Cleared?) && p.variant == v
  }

  // ---- one job ----

  predicate PastFirstGate(s: Status) {
    s == Scored || s == WaitingFirstApproval || s == WaitingVariantApproval || s == ReadyToPublish
    || s == Scheduled || s == Approved || s == Publishing || s == Published
  }

  predicate NeedsGenerate(s: Status) {
    s == VariantsQueued || s == GeneratingVariants || s == WaitingVariantApproval || s == ReadyToPublish
    || s == Scheduled || s == Approved || s == Publishing || s == Published
  }

  predicate RowInv(r: Job, now: Time) {
    && (r.status != Failed ==> r.retries < MAX_AI_RETRIES)
    && r.retries <= MAX_AI_RETRIES
    && (r.status == WaitingAI ==> 1 <= r.retries)
    && (r.status == New ==> r.retries == 0 && r.requestedVariants == 0)
    && (PastFirstGate(r.status) ==> r.retries == 0 && r.nextRetryAt <= now)
    && (r.status == Scheduled ==> r.scheduledAt.Some?)
    && r.updatedAt <= now
  }

  ghost predicate OperatorInv(r: Job, h: History) {
    var phase := PhaseOf(h.events);
    && (r.requestedVariants > 0 <==> !phase.Idle?)
    && (NeedsGenerate(r.status) ==> !phase.Idle?)
    && (r.selected.Some? ==> Names(phase, r.selected.value))
    && (r.selected.Some? && r.status == Scheduled ==> phase.Cleared?)
    && (r.status == Scheduled ==> r.scheduledAt == LastAsked(h.events))
  }

  predicate ReleaseInv(r: Job, h: History, now: Time) {
    && (r.status == Approved || r.status == Publishing || r.status == Published ==> !h.release.Unreleased?)
    && (!h.release.Unreleased? ==>
          r.status == Approved || r.status == Publishing || r.status == Published || r.status == Failed)
    && (h.release.Nothing? ==> r.selected.None?)
    && (h.release.Chosen? ==> (r.selected == None || r.selected == Some(h.release.variant)))
    && (h.release.Chosen? ==> PhaseOf(h.events) == Cleared(h.release.variant))
    && |h.promotions| <= 1
    && (h.promotions != [] ==> !h.release.Unreleased? && h.promotions[0].inForce <= h.promotions[0].at <= now)
  }

  /** What a job refers to in post_variants. */
  predicate VariantRefs(j: JobId, r: Job, h: History, variants: map<VariantId, Variant>, next: VariantId) {
    && (r.selected.Some? ==> r.selected.value in variants && variants[r.selected.value].job == j)
    && (h.release.Chosen? ==> h.release.variant < next)
    && (h.release.Chosen? && h.release.variant in variants ==>
          variants[h.release.variant].job == j && variants[h.release.variant].caption == h.release.caption)
  }

  predicate PublishInv(r: Job, h: History, nextPid: Pid) {
    && (h.claimant.Some? ==>
          && h.release.Chosen? && h.claimant.value < nextPid
          && (r.status == Publishing || r.status == Published || r.status == Failed))
    && (r.status == Publishing || r.status == Published ==> h.claimant.Some?)
    && |h.calls| <= 1
    && (h.calls != [] ==>
          && h.claimant.Some?
          && h.calls[0].variant == h.release.variant && h.calls[0].caption == h.release.caption
          && h.calls[0].image == Upload(h.release.variant, h.release.caption))
    && (r.status == Published ==> h.calls != [] && h.calls[0].media == Some(r.mediaId))
  }

  ghost predicate LogInv(j: JobId, h: History, logs: seq<PublishLog>) {
    forall i :: 0 <= i < |logs| && RecordsSuccess(logs[i], j) ==>
      h.calls != [] && h.calls[0].media.Some? && MediaIdOf(logs[i].response.value) == h.calls[0].media
  }

  /** What holds of the row and the history of job j, beside the other tables of s. */
  ghost predicate GoodRow(s: Sys, j: JobId, r: Job, h: History) {
    && RowInv(r, s.db.now)
    && OperatorInv(r, h)
    && ReleaseInv(r, h, s.db.now)
    && VariantRefs(j, r, h, s.db.variants, s.db.nextVariant)
    && PublishInv(r, h, s.nextPid)
    && LogInv(j, h, s.db.logs)
  }

  ghost predicate JobInv(s: Sys, j: JobId)
    requires j in s.db.jobs
  {
    GoodRow(s, j, s.db.jobs[j], Hist(s, j))
  }

  predicate ImageInv(v: VariantId, row: Variant) {
    row.image == Blank || row.image == Upload(v, row.caption)
  }

  // ---- one process ----

  /** The process that won the publish claim, working on what was released. */
  predicate Holds(pid: Pid, h: History, v: VariantId) {
    h.claimant == Some(pid) && h.release.Chosen? && h.release.variant == v && h.calls == []
  }

  predicate Returned(pid: Pid, h: History, media: Option<string>) {
    h.claimant == Some(pid) && h.calls != [] && h.calls[0].media == media
  }

  ghost predicate ProcInv(pid: Pid, p: PC, status: Status, h: History, now: Time) {
    match p
    case ScoreApplied(_) => h.scorer == Some(pid) && (status == Scored || status == Skipped || status == Failed)
    case RetryListed(target) =>
      target == ScoringQueued || (target == VariantsQueued && !PhaseOf(h.events).Idle?)
    case StaleListed(seen) =>
      || seen == Scoring || seen == GeneratingVariants
      || (seen == Publishing && h.claimant.Some?)
    case StaleLogged(found) =>
      h.claimant.Some? && (found.Some? ==> h.calls != [] && h.calls[0].media == found)
    case DueListed(asOf) => asOf <= now
    case PublishListed => !h.release.Unreleased?
    case PublishLoaded(v) => h.release.Chosen? && h.release.variant == v
    case PublishClaimed(v) => Holds(pid, h, v)
    case PublishRead(v, caption, image) =>
      Holds(pid, h, v) && caption == h.release.caption && (image == Blank || image == Upload(v, caption))
    case PublishReady(v, caption, image) =>
      Holds(pid, h, v) && caption == h.release.caption && image == Upload(v, caption)
    case PublishReturned(receipt, _) =>
      && Returned(pid, h, if receipt.Some? then Some(receipt.value.media) else None)
      && (receipt.Some? ==> MediaIdOf(receipt.value.response) == Some(receipt.value.media))
    case PublishLogged(media) => Returned(pid, h, Some(media))
    case PublishFailing(_) => h.claimant == Some(pid) && (h.calls != [] ==> h.calls[0].media.None?)
    case GenerateCommit(count) => 1 <= count
    case _ => true
  }

  // ---- the whole state ----

  ghost predicate JobsInv(s: Sys) {
    && s.hist.Keys <= s.db.jobs.Keys
    && (forall i :: 0 <= i < |s.db.logs| ==> s.db.logs[i].job in s.db.jobs)
    && forall j :: j in s.db.jobs ==> JobInv(s, j)
  }

  ghost predicate VariantsInv(s: Sys) {
    forall v :: v in s.db.variants ==>
      v < s.db.nextVariant && s.db.variants[v].job in s.db.jobs && ImageInv(v, s.db.variants[v])
  }

  ghost predicate ProcOk(s: Sys, pid: Pid)
    requires pid in s.procs
  {
    var j := s.procs[pid].job;
    pid < s.nextPid && j in s.db.jobs && ProcInv(pid, s.procs[pid].pc, s.db.jobs[j].status, Hist(s, j), s.db.now)
  }

  ghost predicate ProcsInv(s: Sys) {
    forall pid :: pid in s.procs ==> ProcOk(s, pid)
  }

  ghost predicate Inv(s: Sys) {
    JobsInv(s) && VariantsInv(s) && ProcsInv(s)
  }

  // ---- what one action may do to a row, whoever runs it ----

  /** The longest wait that k parks in a row impose. */
  function WaitSum(k: nat): Time {
    if k == 0 then 0 else WaitSum(k - 1) + RetryDelay(k)
  }

  /** How long a parked job has been waiting since its first park. */
  predicate WaitInv(r: Job, h: History, now: Time) {
    r.retries >= 1 ==>
      && h.firstPark.Some?
      && (r.status == WaitingAI || r.status == ScoringQueued || r.status == VariantsQueued ==>
            h.firstPark.value + WaitSum(r.retries) <= r.nextRetryAt)
      && (r.status == Scoring || r.status == GeneratingVariants ==> h.firstPark.value + WaitSum(r.retries) <= now)
      && (r.status == Failed && r.retries == MAX_AI_RETRIES ==>
            h.firstPark.value + WaitSum(MAX_AI_RETRIES - 1) <= r.updatedAt)
  }

  /** A worker takes a job out of one of the two AI queues. */
  predicate TakenFromQueue(r: Job, r': Job) {
    || (r.status == ScoringQueued && r'.status == Scoring)
    || (r.status == VariantsQueued && r'.status == GeneratingVariants)
  }

  /** How many status changes other than a final failure are left before an operator has to act. */
  function Budget(r: Job): int {
    match r.status
    case New => 4 + 3 * (MAX_AI_RETRIES - 1)
    case WaitingAI => 4 + 3 * (MAX_AI_RETRIES - 1 - r.retries)
    case ScoringQueued => 3 + 3 * (MAX_AI_RETRIES - 1 - r.retries)
    case VariantsQueued => 3 + 3 * (MAX_AI_RETRIES - 1 - r.retries)
    case Scoring => 2 + 3 * (MAX_AI_RETRIES - 1 - r.retries)
    case GeneratingVariants => 2 + 3 * (MAX_AI_RETRIES - 1 - r.retries)
    case Scored => 1
    case Scheduled => 3
    case Approved => 2
    case Publishing => 1
    case _ => 0
  }

  predicate SpendsBudget(r: Job, r': Job) {
    if r'.status == r.status then Budget(r') <= Budget(r)
    else r'.status == Failed || Budget(r') + 1 <= Budget(r)
  }

  predicate Gated(s: Status) {
    s == ReadyToPublish || s == Scheduled || s == Approved || s == Publishing
  }

  predicate HasSelection(r: Job) {
    Gated(r.status) ==> r.selected.Some?
  }

  ghost predicate RowStep(r: Job, h: History, r': Job, h': History, now: Time) {
    // the status follows the table
    && (r'.status == r.status || EnteredFrom(r'.status, r.status))
    // a finished job keeps its result; only its selection can still be cleared
    && (IsTerminal(r.status) ==>
          && r' == r.(selected := r'.selected) && (r'.selected == r.selected || r'.selected == None)
          && h'.events == h.events)
    // what is released is fixed when APPROVED is entered and never changes
    && (h'.release == h.release || (h.release.Unreleased? && r'.status == Approved && r.status != Approved))
    && (r'.status == Approved && r.status != Approved ==>
          if r.selected.Some? then h'.release.Chosen? && h'.release.variant == r.selected.value
          else h'.release == Nothing)
    // only the claim of PUBLISHING sets the claimant, and only a new request the number of variants
    && (h'.claimant == h.claimant || (h.claimant.None? && r.status == Approved && r'.status == Publishing))
    && (r'.requestedVariants == r.requestedVariants || r'.status == VariantsQueued)
    // the record of publisher calls and of operator actions only grows
    && (h.calls != [] ==> h'.calls == h.calls)
    && (h'.events == h.events || |h'.events| > |h.events|)
    // without an operator the budget shrinks
    && (h'.events == h.events ==> SpendsBudget(r, r'))
    // the backoff accumulates if queued jobs are taken when they are due
    && (WaitInv(r, h, now) && (TakenFromQueue(r, r') ==> r.nextRetryAt <= now) ==> WaitInv(r', h', now))
    // a promotion finds its time passed
    && (h'.promotions == h.promotions
        || (&& r.status == Scheduled && r'.status == Approved && r.scheduledAt.Some? && r.scheduledAt.value <= now
            && h'.promotions == h.promotions + [Promotion(r.scheduledAt.value, now)]))
    && (r.status == Scheduled && r'.status == Approved && h'.events == h.events ==> DueBy(r, now))
    // a selection is only lost to a replacement of the variants
    && (HasSelection(r) ==> HasSelection(r') || (r.selected.Some? && r' == r.(selected := None)))
  }

  ghost predicate Progress(s: Sys, s': Sys) {
    forall j :: j in s.db.jobs ==>
      j in s'.db.jobs && RowStep(s.db.jobs[j], Hist(s, j), s'.db.jobs[j], Hist(s', j), s.db.now)
  }

  lemma RowStays(r: Job, h: History, now: Time)
    ensures RowStep(r, h, r, h, now)
  {
    hide WaitInv;
  }

  lemma AllJobsStep(s: Sys, s': Sys, pid: Pid, j: JobId)
    requires j in s.db.jobs && Frame(s, s', pid, j)
    requires Evolves(pid, s.db.jobs[j], Hist(s, j), s'.db.jobs[j], Hist(s', j), s.db.now)
    ensures Progress(s, s')
  {
    hide RowStep, PhaseOf, LastAsked;
    forall k | k in s.db.jobs
      ensures k in s'.db.jobs && RowStep(s.db.jobs[k], Hist(s, k), s'.db.jobs[k], Hist(s', k), s.db.now)
    {
      if k != j { RowStays(s.db.jobs[k], Hist(s, k), s.db.now); }
    }
  }

  // ---- what an action of process pid may do to a job other processes look at ----

  predicate Scoreboard(s: Status) {
    s == Scored || s == Skipped || s == Failed
  }

  ghost predicate Evolves(pid: Pid, r: Job, h: History, r': Job, h': History, now: Time) {
    && RowStep(r, h, r', h', now)
    && (h'.calls != h.calls ==> h.calls == [] && h.claimant == Some(pid))
    && (!PhaseOf(h.events).Idle? ==> !PhaseOf(h'.events).Idle?)
    && (Scoreboard(r.status) && h.scorer != Some(pid) ==> Scoreboard(r'.status) && h'.scorer == h.scorer)
  }

  lemma ProcStable(pid: Pid, q: Pid, p: PC, r: Job, h: History, r': Job, h': History, now: Time)
    requires q != pid
    requires Evolves(pid, r, h, r', h', now)
    requires ProcInv(q, p, r.status, h, now)
    ensures ProcInv(q, p, r'.status, h', now)
  {
  }

  /** Everything an action of process pid on job j leaves as it was. */
  ghost predicate Frame(s: Sys, s': Sys, pid: Pid, j: JobId) {
    && s'.db.now == s.db.now
    && s.nextPid <= s'.nextPid
    && s'.db.jobs.Keys == s.db.jobs.Keys
    && (forall k :: k in s.db.jobs && k != j ==> s'.db.jobs[k] == s.db.jobs[k])
    && (forall k :: k != j ==> Hist(s', k) == Hist(s, k))
    && s'.hist.Keys <= s.hist.Keys + {j}
    && (forall q :: q != pid ==> (q in s'.procs <==> q in s.procs))
    && (forall q :: q != pid && q in s.procs ==> s'.procs[q] == s.procs[q])
    && OtherVariantsKept(s, s', j)
    && OtherLogsKept(s, s', j)
  }

  ghost predicate OtherVariantsKept(s: Sys, s': Sys, j: JobId) {
    && s.db.nextVariant <= s'.db.nextVariant
    && (forall v :: v in s.db.variants && s.db.variants[v].job != j ==>
          v in s'.db.variants && s'.db.variants[v] == s.db.variants[v])
    && (forall v :: v in s'.db.variants ==>
          (v in s.db.variants && s'.db.variants[v].job == s.db.variants[v].job)
          || (s.db.nextVariant <= v && s'.db.variants[v].job == j))
  }

  ghost predicate OtherLogsKept(s: Sys, s': Sys, j: JobId) {
    || s'.db.logs == s.db.logs
    || (|s'.db.logs| == |s.db.logs| + 1 && s'.db.logs[..|s.db.logs|] == s.db.logs && s'.db.logs[|s.db.logs|].job == j)
  }

  lemma OtherLogsIrrelevant(s: Sys, s': Sys, j: JobId, k: JobId, h: History)
    requires OtherLogsKept(s, s', j) && k != j
    requires LogInv(k, h, s.db.logs)
    ensures LogInv(k, h, s'.db.logs)
  {
    forall i | 0 <= i < |s'.db.logs| && RecordsSuccess(s'.db.logs[i], k)
      ensures h.calls != [] && h.calls[0].media.Some? && MediaIdOf(s'.db.logs[i].response.value) == h.calls[0].media
    {
      if s'.db.logs != s.db.logs {
        assert i < |s.db.logs| ==> s'.db.logs[i] == s'.db.logs[..|s.db.logs|][i];
      }
      assert RecordsSuccess(s.db.logs[i], k);
    }
  }

  lemma OtherRefsKept(s: Sys, s': Sys, j: JobId, k: JobId, r: Job, h: History)
    requires OtherVariantsKept(s, s', j) && k != j
    requires VariantRefs(k, r, h, s.db.variants, s.db.nextVariant)
    ensures VariantRefs(k, r, h, s'.db.variants, s'.db.nextVariant)
  {
  }

  lemma OtherJobKept(s: Sys, s': Sys, pid: Pid, j: JobId, k: JobId)
    requires k in s.db.jobs && JobInv(s, k)
    requires Frame(s, s', pid, j) && k != j
    ensures JobInv(s', k)
  {
    OtherLogsIrrelevant(s, s', j, k, Hist(s, k));
    OtherRefsKept(s, s', j, k, s.db.jobs[k], Hist(s, k));
  }

  lemma ProcsKept(s: Sys, s': Sys, pid: Pid, j: JobId)
    requires ProcsInv(s) && j in s.db.jobs && Frame(s, s', pid, j)
    requires Evolves(pid, s.db.jobs[j], Hist(s, j), s'.db.jobs[j], Hist(s', j), s.db.now)
    requires pid in s'.procs ==> ProcOk(s', pid)
    ensures ProcsInv(s')
  {
    hide Evolves, ProcInv, OtherVariantsKept, OtherLogsKept;
    forall q | q in s'.procs
      ensures ProcOk(s', q)
    {
      if q != pid {
        assert ProcOk(s, q);
        if s.procs[q].job == j {
          ProcStable(pid, q, s.procs[q].pc, s.db.jobs[j], Hist(s, j), s'.db.jobs[j], Hist(s', j), s.db.now);
        }
      }
    }
  }

  lemma LogsNameJobs(s: Sys, s': Sys, j: JobId)
    requires OtherLogsKept(s, s', j) && j in s.db.jobs && s'.db.jobs.Keys == s.db.jobs.Keys
    requires forall i :: 0 <= i < |s.db.logs| ==> s.db.logs[i].job in s.db.jobs
    ensures forall i :: 0 <= i < |s'.db.logs| ==> s'.db.logs[i].job in s'.db.jobs
  {
    forall i | 0 <= i < |s'.db.logs|
      ensures s'.db.logs[i].job in s'.db.jobs
    {
      if i < |s.db.logs| && s'.db.logs != s.db.logs {
        assert s'.db.logs[i] == s'.db.logs[..|s.db.logs|][i];
      }
    }
  }

  lemma JobsKept(s: Sys, s': Sys, pid: Pid, j: JobId)
    requires JobsInv(s) && j in s.db.jobs && Frame(s, s', pid, j)
    requires JobInv(s', j)
    ensures JobsInv(s')
  {
    LogsNameJobs(s, s', j);
    hide GoodRow, OtherVariantsKept, OtherLogsKept;
    forall k | k in s'.db.jobs
      ensures JobInv(s', k)
    {
      if k != j { OtherJobKept(s, s', pid, j, k); }
    }
  }

  lemma VariantsKept(s: Sys, s': Sys, pid: Pid, j: JobId)
    requires VariantsInv(s) && j in s.db.jobs && Frame(s, s', pid, j)
    requires forall v :: v in s'.db.variants && s'.db.variants[v].job == j ==>
               v < s'.db.nextVariant && ImageInv(v, s'.db.variants[v])
    ensures VariantsInv(s')
  {
  }

  /** The local obligations of one action are enough for the whole invariant. */
  lemma ActionKeepsInv(s: Sys, s': Sys, pid: Pid, j: JobId)
    requires Inv(s) && j in s.db.jobs && Frame(s, s', pid, j)
    requires Evolves(pid, s.db.jobs[j], Hist(s, j), s'.db.jobs[j], Hist(s', j), s.db.now)
    requires JobInv(s', j)
    requires forall v :: v in s'.db.variants && s'.db.variants[v].job == j ==>
               v < s'.db.nextVariant && ImageInv(v, s'.db.variants[v])
    requires pid in s'.procs ==> ProcOk(s', pid)
    ensures Inv(s') && Progress(s, s')
  {
    hide JobsInv, VariantsInv, ProcsInv, JobInv, Evolves, ProcOk, Progress;
    AllJobsStep(s, s', pid, j);
    JobsKept(s, s', pid, j);
    VariantsKept(s, s', pid, j);
    ProcsKept(s, s', pid, j);
  }
}
