/**
 Every action keeps the invariant, so it holds after every run: any number of
 instances and workers, any interleaving, any crashes, any operator requests.
 */
module PipelineSafety {
  import opened Wrappers
  import opened JobStatus
  import opened Text
  import opened PostTables
  import opened Pipeline
  import opened PipelineInvariant

  // ---- the shapes of an action ----

  /** An action keeps the invariant and treats every row as RowStep says. */
  ghost predicate Kept(s: Sys, s': Sys) {
    Inv(s') && Progress(s, s')
  }

  lemma KeptInv(s: Sys, s': Sys)
    requires Kept(s, s')
    ensures Inv(s')
  {
  }

  lemma KeptSame(s: Sys)
    requires Inv(s)
    ensures Kept(s, s)
  {
    hide Inv, RowStep;
    forall j | j in s.db.jobs
      ensures RowStep(s.db.jobs[j], Hist(s, j), s.db.jobs[j], Hist(s, j), s.db.now)
    {
      RowStays(s.db.jobs[j], Hist(s, j), s.db.now);
    }
  }

  lemma KeptTwice(s: Sys, s1: Sys, s2: Sys)
    requires Kept(s, s1) && Kept(s1, s2) && s1.db.jobs == s.db.jobs && s1.hist == s.hist && s1.db.now == s.db.now
    ensures Kept(s, s2)
  {
    hide Inv, RowStep;
  }

  /** What the invariant says about the process that moves and its job. */
  lemma InvAt(s: Sys, pid: Pid)
    requires Inv(s) && pid in s.procs
    ensures ProcOk(s, pid) && JobInv(s, s.procs[pid].job)
  {
    assert ProcOk(s, pid);
  }

  lemma JobAt(s: Sys, pid: Pid)
    requires Inv(s) && pid in s.procs
    ensures ProcOk(s, pid) && VariantsInv(s)
    ensures var j := s.procs[pid].job; GoodRow(s, j, s.db.jobs[j], Hist(s, j))
  {
    hide GoodRow, ProcInv;
    InvAt(s, pid);
  }

  lemma SameTables(s: Sys, s': Sys, j: JobId, r: Job, h: History)
    requires GoodRow(s, j, r, h)
    requires s'.db.now == s.db.now && s'.db.variants == s.db.variants && s'.db.nextVariant == s.db.nextVariant
    requires s'.db.logs == s.db.logs && s'.nextPid == s.nextPid
    ensures GoodRow(s', j, r, h)
  {
  }

  lemma OwnVariants(s: Sys, s': Sys, j: JobId)
    requires Inv(s) && s'.db.variants == s.db.variants && s'.db.nextVariant == s.db.nextVariant
    ensures forall v :: v in s'.db.variants && s'.db.variants[v].job == j ==>
              v < s'.db.nextVariant && ImageInv(v, s'.db.variants[v])
  {
  }

  lemma StandStill(pid: Pid, r: Job, h: History, now: Time)
    ensures Evolves(pid, r, h, r, h, now)
  {
    RowStays(r, h, now);
    hide PhaseOf, LastAsked, RowStep;
  }

  lemma LocalFrame(s: Sys, pid: Pid, next: Option<PC>)
    requires pid in s.procs && s.procs[pid].job in s.db.jobs
    ensures Frame(s, Become(s, pid, next), pid, s.procs[pid].job)
  {
  }

  /** One job's row and history, its variants and its log entries are written with the program counter. */
  function Written(s: Sys, pid: Pid, db': Tables, h': History, next: Option<PC>): Sys
    requires pid in s.procs
  {
    Become(s, pid, next).(db := db', hist := s.hist[s.procs[pid].job := h'])
  }

  ghost predicate OwnTables(s: Sys, j: JobId, db': Tables, r': Job) {
    && db'.jobs == s.db.jobs[j := r']
    && db'.now == s.db.now
    && OtherVariantsKept(s, s.(db := db'), j)
    && OtherLogsKept(s, s.(db := db'), j)
  }

  lemma WriteFrame(s: Sys, pid: Pid, db': Tables, r': Job, h': History, next: Option<PC>)
    requires pid in s.procs && s.procs[pid].job in s.db.jobs
    requires OwnTables(s, s.procs[pid].job, db', r')
    ensures Frame(s, Written(s, pid, db', h', next), pid, s.procs[pid].job)
  {
  }

  /** Only the program counter of one process moves. */
  lemma LocalMove(s: Sys, pid: Pid, next: Option<PC>)
    requires Inv(s) && pid in s.procs
    requires next.Some? ==>
               ProcInv(pid, next.value, s.db.jobs[s.procs[pid].job].status, Hist(s, s.procs[pid].job), s.db.now)
    ensures Kept(s, Become(s, pid, next))
  {
    InvAt(s, pid);
    var j := s.procs[pid].job;
    var s' := Become(s, pid, next);
    SameTables(s, s', j, s.db.jobs[j], Hist(s, j));
    OwnVariants(s, s', j);
    LocalFrame(s, pid, next);
    StandStill(pid, s.db.jobs[j], Hist(s, j), s.db.now);
    hide Inv, Progress, GoodRow, ProcInv, Evolves, Frame;
    ActionKeepsInv(s, s', pid, j);
  }

  lemma TableWrite(s: Sys, pid: Pid, db': Tables, r': Job, h': History, next: Option<PC>)
    requires Inv(s) && pid in s.procs && ProcOk(s, pid)
    requires OwnTables(s, s.procs[pid].job, db', r')
    requires Evolves(pid, s.db.jobs[s.procs[pid].job], Hist(s, s.procs[pid].job), r', h', s.db.now)
    requires GoodRow(s.(db := db'), s.procs[pid].job, r', h')
    requires forall v :: v in db'.variants && db'.variants[v].job == s.procs[pid].job ==>
               v < db'.nextVariant && ImageInv(v, db'.variants[v])
    requires next.Some? ==> ProcInv(pid, next.value, r'.status, h', s.db.now)
    ensures Kept(s, Written(s, pid, db', h', next))
  {
    var s' := Written(s, pid, db', h', next);
    var j := s.procs[pid].job;
    SameTables(s.(db := db'), s', j, r', h');
    WriteFrame(s, pid, db', r', h', next);
    hide Inv, Progress, GoodRow, Evolves, ProcInv, Frame;
    ActionKeepsInv(s, s', pid, j);
  }

  lemma RowTables(s: Sys, j: JobId, r': Job)
    ensures OwnTables(s, j, Put(s.db, j, r'), r')
  {
  }

  function RowWritten(s: Sys, pid: Pid, r': Job, h': History, next: Option<PC>): Sys
    requires pid in s.procs
  {
    Written(s, pid, Put(s.db, s.procs[pid].job, r'), h', next)
  }

  lemma RowWrite(s: Sys, pid: Pid, r': Job, h': History, next: Option<PC>)
    requires Inv(s) && pid in s.procs && ProcOk(s, pid)
    requires Evolves(pid, s.db.jobs[s.procs[pid].job], Hist(s, s.procs[pid].job), r', h', s.db.now)
    requires GoodRow(s, s.procs[pid].job, r', h')
    requires next.Some? ==> ProcInv(pid, next.value, r'.status, h', s.db.now)
    ensures Kept(s, RowWritten(s, pid, r', h', next))
  {
    hide GoodRow, Evolves, ProcInv, OwnTables, Frame;
    var j := s.procs[pid].job;
    var db' := Put(s.db, j, r');
    SameTables(s, s.(db := db'), j, r', h');
    OwnVariants(s, s.(db := db'), j);
    RowTables(s, j, r');
    hide Kept, Inv;
    TableWrite(s, pid, db', r', h', next);
  }

  lemma PhaseOfNoted(events: seq<OpEvent>, e: OpEvent)
    ensures PhaseOf(events + [e]) == Advance(PhaseOf(events), e)
    ensures LastAsked(events + [e]) == if e.ScheduleAsked? then Some(e.at) else LastAsked(events)
  {
    assert (events + [e])[..|events|] == events;
  }

  // ---- the row each transaction writes is a good row again ----

  /** A move between statuses that need nothing but the row itself. */
  lemma GoodMove(s: Sys, pid: Pid, j: JobId, r: Job, h: History, to: Status)
    requires GoodRow(s, j, r, h) && EnteredFrom(to, r.status)
    requires to == ScoringQueued || to == Scoring || to == GeneratingVariants
             || ((to == WaitingFirstApproval || to == Skipped) && r.status == Scored && h.scorer == Some(pid))
             || (to == VariantsQueued && r.status == WaitingAI && !PhaseOf(h.events).Idle?)
    ensures GoodRow(s, j, Moved(r, to, s.db.now), h)
    ensures Evolves(pid, r, h, Moved(r, to, s.db.now), h, s.db.now)
  {
    hide PhaseOf, LastAsked;
  }

  lemma GoodFail(s: Sys, pid: Pid, j: JobId, r: Job, h: History, msg: string)
    requires GoodRow(s, j, r, h) && !IsTerminal(r.status)
    ensures GoodRow(s, j, Moved(r, Failed, s.db.now).(error := msg), h)
    ensures Evolves(pid, r, h, Moved(r, Failed, s.db.now).(error := msg), h, s.db.now)
  {
    hide PhaseOf, LastAsked;
  }

  lemma GoodPark(s: Sys, pid: Pid, j: JobId, r: Job, h: History, msg: string, first: Option<Time>)
    requires GoodRow(s, j, r, h) && EnteredFrom(WaitingAI, r.status)
    requires first == if r.retries == 0 then Some(s.db.now) else h.firstPark
    ensures GoodRow(s, j, Parked(r, s.db.now, msg), h.(firstPark := first))
    ensures Evolves(pid, r, h, Parked(r, s.db.now, msg), h.(firstPark := first), s.db.now)
  {
    hide WaitInv, Evolves, Parked, OperatorInv, VariantRefs, LogInv;
    ParkWaits(r, h, s.db.now, msg, first);
    ParkEvolves(pid, r, h, msg, first, s.db.now);
    ParkedIsGood(s, j, r, h, msg, first);
  }

  lemma ParkedIsGood(s: Sys, j: JobId, r: Job, h: History, msg: string, first: Option<Time>)
    requires GoodRow(s, j, r, h) && EnteredFrom(WaitingAI, r.status)
    ensures GoodRow(s, j, Parked(r, s.db.now, msg), h.(firstPark := first))
  {
    hide PhaseOf, LastAsked;
  }

  lemma ParkEvolves(pid: Pid, r: Job, h: History, msg: string, first: Option<Time>, now: Time)
    requires RowInv(r, now) && EnteredFrom(WaitingAI, r.status) && h.release.Unreleased?
    requires WaitInv(r, h, now) ==> WaitInv(Parked(r, now, msg), h.(firstPark := first), now)
    ensures Evolves(pid, r, h, Parked(r, now, msg), h.(firstPark := first), now)
  {
    hide PhaseOf, LastAsked, WaitInv;
  }

  /** The waits add up: one more park adds its delay to the time since the first. */
  lemma ParkWaits(r: Job, h: History, now: Time, msg: string, first: Option<Time>)
    requires EnteredFrom(WaitingAI, r.status) && r.retries < MAX_AI_RETRIES
    requires first == if r.retries == 0 then Some(now) else h.firstPark
    ensures WaitInv(r, h, now) ==> WaitInv(Parked(r, now, msg), h.(firstPark := first), now)
  {
  }

  lemma GoodStageEnd(s: Sys, pid: Pid, j: JobId, r: Job, h: History, u: ScoreUpdate, scorer: Option<Pid>)
    requires GoodRow(s, j, r, h) && EnteredFrom(u.status, r.status)
    requires u.status == WaitingVariantApproval || u.status == Scored
    ensures GoodRow(s, j, Staged(r, u, s.db.now), h.(scorer := scorer, firstPark := None))
    ensures Evolves(pid, r, h, Staged(r, u, s.db.now), h.(scorer := scorer, firstPark := None), s.db.now)
  {
    hide PhaseOf, LastAsked;
  }

  lemma GoodClaim(s: Sys, pid: Pid, j: JobId, r: Job, h: History)
    requires GoodRow(s, j, r, h) && r.status == Approved && h.release.Chosen? && pid < s.nextPid
    ensures GoodRow(s, j, Moved(r, Publishing, s.db.now), h.(claimant := Some(pid)))
    ensures Evolves(pid, r, h, Moved(r, Publishing, s.db.now), h.(claimant := Some(pid)), s.db.now)
    ensures h.calls == []
  {
    hide PhaseOf, LastAsked;
  }

  lemma GoodPublished(s: Sys, pid: Pid, j: JobId, r: Job, h: History, media: string)
    requires GoodRow(s, j, r, h) && r.status == Publishing && h.calls != [] && h.calls[0].media == Some(media)
    ensures GoodRow(s, j, Moved(r, Published, s.db.now).(mediaId := media, error := ""), h)
    ensures Evolves(pid, r, h, Moved(r, Published, s.db.now).(mediaId := media, error := ""), h, s.db.now)
  {
    hide PhaseOf, LastAsked;
  }

  /** Entering APPROVED fixes what is released: the selected variant with its caption, if there is one. */
  lemma GoodRelease(s: Sys, pid: Pid, j: JobId, r: Job, h: History, h': History)
    requires j in s.db.jobs && r == s.db.jobs[j]
    requires GoodRow(s, j, r, h) && VariantsInv(s) && EnteredFrom(Approved, r.status)
    requires h' == h.(events := h'.events, promotions := h'.promotions, release := ReleaseOf(s.db, j))
    requires r.selected.Some? ==> PhaseOf(h'.events) == Cleared(r.selected.value)
    requires !PhaseOf(h'.events).Idle?
    requires if h'.events == h.events then DueBy(r, s.db.now) else |h'.events| > |h.events|
    requires h'.promotions == h.promotions
             || (&& r.status == Scheduled && r.scheduledAt.Some? && r.scheduledAt.value <= s.db.now
                 && h'.promotions == h.promotions + [Promotion(r.scheduledAt.value, s.db.now)])
    ensures GoodRow(s, j, Moved(r, Approved, s.db.now), h')
    ensures Evolves(pid, r, h, Moved(r, Approved, s.db.now), h', s.db.now)
  {
    hide PhaseOf, LastAsked;
  }

  lemma GoodGenerate(s: Sys, pid: Pid, j: JobId, r: Job, h: History, count: nat)
    requires GoodRow(s, j, r, h) && EnteredFrom(VariantsQueued, r.status) && 1 <= count
    ensures GoodRow(s, j, Moved(r, VariantsQueued, s.db.now).(requestedVariants := count, selected := None),
                    Noted(h, Generated(count)))
    ensures Evolves(pid, r, h, Moved(r, VariantsQueued, s.db.now).(requestedVariants := count, selected := None),
                    Noted(h, Generated(count)), s.db.now)
  {
    PhaseOfNoted(h.events, Generated(count));
    hide PhaseOf, LastAsked;
  }

  lemma GoodSelect(s: Sys, pid: Pid, j: JobId, r: Job, h: History, v: VariantId)
    requires GoodRow(s, j, r, h) && OwnsVariant(s.db, j, v)
    requires EnteredFrom(ReadyToPublish, r.status) || r.status == ReadyToPublish
    ensures GoodRow(s, j, Moved(r, ReadyToPublish, s.db.now).(selected := Some(v)), Noted(h, Selected(v)))
    ensures Evolves(pid, r, h, Moved(r, ReadyToPublish, s.db.now).(selected := Some(v)), Noted(h, Selected(v)),
            s.db.now)
  {
    PhaseOfNoted(h.events, Selected(v));
    hide PhaseOf, LastAsked;
  }

  lemma GoodSchedule(s: Sys, pid: Pid, j: JobId, r: Job, h: History, at: Time)
    requires GoodRow(s, j, r, h) && (r.status == ReadyToPublish || r.status == Scheduled)
    ensures GoodRow(s, j, Moved(r, Scheduled, s.db.now).(scheduledAt := Some(at)), Noted(h, ScheduleAsked(at)))
    ensures Evolves(pid, r, h, Moved(r, Scheduled, s.db.now).(scheduledAt := Some(at)), Noted(h, ScheduleAsked(at)),
            s.db.now)
  {
    PhaseOfNoted(h.events, ScheduleAsked(at));
    hide PhaseOf, LastAsked;
  }

  lemma GoodCancel(s: Sys, pid: Pid, j: JobId, r: Job, h: History)
    requires GoodRow(s, j, r, h) && r.status == Scheduled
    ensures GoodRow(s, j, Moved(r, ReadyToPublish, s.db.now).(scheduledAt := None), Noted(h, ScheduleCancelled))
    ensures Evolves(pid, r, h, Moved(r, ReadyToPublish, s.db.now).(scheduledAt := None),
            Noted(h, ScheduleCancelled), s.db.now)
  {
    PhaseOfNoted(h.events, ScheduleCancelled);
    hide PhaseOf, LastAsked;
  }

  lemma GoodSkip(s: Sys, pid: Pid, j: JobId, r: Job, h: History)
    requires GoodRow(s, j, r, h) && EnteredFrom(Skipped, r.status)
    ensures GoodRow(s, j, Moved(r, Skipped, s.db.now), Noted(h, SkipAsked))
    ensures Evolves(pid, r, h, Moved(r, Skipped, s.db.now), Noted(h, SkipAsked), s.db.now)
  {
    hide PhaseOf, LastAsked;
    PhaseOfNoted(h.events, SkipAsked);
    SkipEvolves(pid, r, h, s.db.now);
    hide Evolves;
  }

  lemma SkipEvolves(pid: Pid, r: Job, h: History, now: Time)
    requires EnteredFrom(Skipped, r.status) && PhaseOf(Noted(h, SkipAsked).events) == PhaseOf(h.events)
    ensures Evolves(pid, r, h, Moved(r, Skipped, now), Noted(h, SkipAsked), now)
  {
    hide PhaseOf, LastAsked;
  }

  // ---- AI workers ----

  lemma ParkKeepsInv(s: Sys, pid: Pid, msg: string)
    requires Inv(s) && pid in s.procs
    ensures Kept(s, Park(s, pid, msg))
  {
    InvAt(s, pid);
    hide Kept, Inv, GoodRow, Evolves, CanTransition, Parked;
    var j := s.procs[pid].job;
    var r, h := s.db.jobs[j], Hist(s, j);
    EdgesInto(r.status, WaitingAI);
    if CanTransition(r.status, WaitingAI) {
      var first := if r.retries == 0 then Some(s.db.now) else h.firstPark;
      GoodPark(s, pid, j, r, h, msg, first);
      RowWrite(s, pid, Parked(r, s.db.now, msg), h.(firstPark := first), None);
    } else {
      LocalMove(s, pid, None);
    }
  }

  /** The plain status change of several steps. */
  lemma MoveKeepsInv(s: Sys, pid: Pid, to: Status)
    requires Inv(s) && pid in s.procs
    requires to == ScoringQueued
             || (&& (to == WaitingFirstApproval || to == Skipped)
                 && s.procs[pid].job in s.db.jobs && Scoreboard(s.db.jobs[s.procs[pid].job].status)
                 && Hist(s, s.procs[pid].job).scorer == Some(pid))
    ensures Kept(s, Commit(s, pid, UpdateStatus(s.db, s.procs[pid].job, to), Hist(s, s.procs[pid].job), None))
  {
    hide ProcInv, GoodRow, Evolves, CanTransition;
    InvAt(s, pid);
    hide Kept, Inv, JobInv;
    var j := s.procs[pid].job;
    assert GoodRow(s, j, s.db.jobs[j], Hist(s, j)) by { assert JobInv(s, j); }
    var r, h := s.db.jobs[j], Hist(s, j);
    EdgesInto(r.status, to);
    if CanTransition(r.status, to) {
      GoodMove(s, pid, j, r, h, to);
      RowWrite(s, pid, Moved(r, to, s.db.now), h, None);
    } else {
      LocalMove(s, pid, None);
    }
  }

  /** A claim is the status change restricted to one source status. */
  lemma ClaimKeepsInv(s: Sys, pid: Pid, from: Status, to: Status, next: Option<PC>)
    requires Inv(s) && pid in s.procs
    requires to == ScoringQueued || to == Scoring || to == GeneratingVariants
             || (to == VariantsQueued && from == WaitingAI && !PhaseOf(Hist(s, s.procs[pid].job).events).Idle?)
    requires next == None || next == Some(ScoreClaimed) || next == Some(GenClaimed)
    ensures Kept(s, Commit(s, pid, ClaimStatus(s.db, s.procs[pid].job, from, to), Hist(s, s.procs[pid].job), next))
  {
    hide Kept, Inv, GoodRow, Evolves, PhaseOf, LastAsked, CanTransition, ProcInv;
    InvAt(s, pid);
    var j := s.procs[pid].job;
    var r, h := s.db.jobs[j], Hist(s, j);
    EdgesInto(from, to);
    if next.Some? { CarefreeIsFine(pid, next.value, to, h, s.db.now); }
    if CanTransition(from, to) && r.status == from {
      GoodMove(s, pid, j, r, h, to);
      RowWrite(s, pid, Moved(r, to, s.db.now), h, next);
    } else {
      LocalMove(s, pid, None);
    }
  }

  lemma FailKeepsInv(s: Sys, pid: Pid, msg: string)
    requires Inv(s) && pid in s.procs
    ensures Kept(s, Commit(s, pid, MarkFailed(s.db, s.procs[pid].job, msg), Hist(s, s.procs[pid].job), None))
  {
    InvAt(s, pid);
    hide Kept, Inv, GoodRow, Evolves, CanTransition;
    var j := s.procs[pid].job;
    var r, h := s.db.jobs[j], Hist(s, j);
    EdgesInto(r.status, Failed);
    if CanTransition(r.status, Failed) {
      GoodFail(s, pid, j, r, h, msg);
      RowWrite(s, pid, Moved(r, Failed, s.db.now).(error := msg), h, None);
    } else {
      LocalMove(s, pid, None);
    }
  }

  lemma StageEndKeepsInv(s: Sys, pid: Pid, u: ScoreUpdate, scorer: Option<Pid>, next: Option<PC>)
    requires Inv(s) && pid in s.procs
    requires u.status == WaitingVariantApproval || u.status == Scored
    requires next.Some? ==> u.status == Scored && scorer == Some(pid) && next.value.ScoreApplied?
    ensures Kept(s, Commit(s, pid, ApplyScored(s.db, s.procs[pid].job, u),
                       Hist(s, s.procs[pid].job).(scorer := scorer, firstPark := None), next))
  {
    InvAt(s, pid);
    hide Kept, Inv, GoodRow, Evolves, CanTransition;
    var j := s.procs[pid].job;
    var r, h := s.db.jobs[j], Hist(s, j);
    EdgesInto(r.status, u.status);
    if CanTransition(r.status, u.status) {
      GoodStageEnd(s, pid, j, r, h, u, scorer);
      RowWrite(s, pid, Staged(r, u, s.db.now), h.(scorer := scorer, firstPark := None), next);
    } else {
      LocalMove(s, pid, None);
    }
  }

  lemma ScorerAt(s: Sys, pid: Pid)
    requires Inv(s) && pid in s.procs
    ensures s.procs[pid].job in s.db.jobs
    ensures s.procs[pid].pc.ScoreApplied? ==>
              Scoreboard(s.db.jobs[s.procs[pid].job].status) && Hist(s, s.procs[pid].job).scorer == Some(pid)
  {
    hide GoodRow;
    InvAt(s, pid);
  }

  lemma ScoringKeepsInv(s: Sys, pid: Pid, c: Choice)
    requires Inv(s) && pid in s.procs
    ensures Kept(s, StepScoring(s, pid, c))
  {
    hide Kept, Inv, ProcInv, Commit, Park;
    ScorerAt(s, pid);
    match s.procs[pid].pc
    case Ingested => MoveKeepsInv(s, pid, ScoringQueued);
    case ScoreListed => ClaimKeepsInv(s, pid, ScoringQueued, Scoring, Some(ScoreClaimed));
    case ScoreClaimed =>
      match c {
        case LoadError(msg) => CarefreeMove(s, pid, Some(ContextMissing(msg)));
        case AiFailed => ParkKeepsInv(s, pid, "scoring: all AI providers failed");
        case AiScored(notify, provider, model) =>
          StageEndKeepsInv(s, pid, ScoreUpdate(Scored, provider, model, ""), Some(pid), Some(ScoreApplied(notify)));
        case _ => LocalMove(s, pid, None);
      }
    case ScoreApplied(notify) => MoveKeepsInv(s, pid, if notify then WaitingFirstApproval else Skipped);
    case ContextMissing(msg) => FailKeepsInv(s, pid, msg);
    case _ => KeptSame(s);
  }

  lemma VariantWorkerKeepsInv(s: Sys, pid: Pid, c: Choice)
    requires Inv(s) && pid in s.procs
    ensures Kept(s, StepVariants(s, pid, c))
  {
    hide Kept, Inv;
    match s.procs[pid].pc
    case GenListed => ClaimKeepsInv(s, pid, VariantsQueued, GeneratingVariants, Some(GenClaimed));
    case GenClaimed =>
      match c {
        case LoadError(msg) => LocalMove(s, pid, Some(ContextMissing(msg)));
        case AiFailed => ParkKeepsInv(s, pid, "variants: all AI providers failed");
        case AiVariants(vs) => ReplaceKeepsInv(s, pid, vs);
        case _ => LocalMove(s, pid, None);
      }
    case GenSaved =>
      CompletionKeepsInv(s, pid);
    case _ => KeptSame(s);
  }

  /** Completing a stage is applying a score that keeps provider and model. */
  lemma CompletionKeepsInv(s: Sys, pid: Pid)
    requires Inv(s) && pid in s.procs
    ensures var j := s.procs[pid].job;
            Kept(s, Commit(s, pid, CompleteAIStage(s.db, j, WaitingVariantApproval), Hist(s, j).(firstPark := None),
                None))
  {
    InvAt(s, pid);
    hide Kept, Inv, GoodRow, ProcInv, CanTransition, Hist;
    var j := s.procs[pid].job;
    var r, h := s.db.jobs[j], Hist(s, j);
    var u := ScoreUpdate(WaitingVariantApproval, r.aiProvider, r.aiModel, "");
    assert h.(firstPark := None) == h.(scorer := h.scorer, firstPark := None);
    assert CompleteAIStage(s.db, j, WaitingVariantApproval) == ApplyScored(s.db, j, u);
    StageEndKeepsInv(s, pid, u, h.scorer, None);
  }

  /** The rows a replacement leaves: the other jobs' rows as they were and fresh rows of this job. */
  lemma ReplacedRows(s: Sys, j: JobId, vs: seq<NewVariant>)
    requires VariantsInv(s)
    ensures var variants' := InsertAll(WithoutJob(s.db.variants, j), s.db.nextVariant, j, vs);
            && (forall v :: v in s.db.variants && s.db.variants[v].job != j ==>
                  v in variants' && variants'[v] == s.db.variants[v])
            && (forall v :: v in variants' ==>
                  || (v in s.db.variants && s.db.variants[v].job != j && variants'[v] == s.db.variants[v])
                  || (s.db.nextVariant <= v < s.db.nextVariant + |vs| && variants'[v].job == j
                        && variants'[v].image == Blank))
  {
    var rest := WithoutJob(s.db.variants, j);
    InsertAllAt(rest, s.db.nextVariant, j, vs);
    var variants' := InsertAll(rest, s.db.nextVariant, j, vs);
    forall v | v in variants' && v !in rest
      ensures s.db.nextVariant <= v < s.db.nextVariant + |vs| && variants'[v].job == j && variants'[v].image == Blank
    {
      var i := v - s.db.nextVariant;
      assert variants'[s.db.nextVariant + i] == Inserted(j, vs[i]);
    }
  }

  /** Clearing the selection and replacing the rows leaves a good row, whatever the status. */
  lemma GoodReplaced(s: Sys, pid: Pid, j: JobId, r: Job, h: History, vs: seq<NewVariant>)
    requires GoodRow(s, j, r, h) && VariantsInv(s) && j in s.db.jobs && r == s.db.jobs[j]
    requires ReplaceVariants(s.db, j, vs).outcome == Committed
    ensures var db' := ReplaceVariants(s.db, j, vs).db;
            && OwnTables(s, j, db', r.(selected := None))
            && GoodRow(s.(db := db'), j, r.(selected := None), h)
            && (forall v :: v in db'.variants && db'.variants[v].job == j ==>
                  v < db'.nextVariant && ImageInv(v, db'.variants[v]))
    ensures Evolves(pid, r, h, r.(selected := None), h, s.db.now)
  {
    hide RowInv, OperatorInv, ReleaseInv, PublishInv, LogInv, InsertAll, WithoutJob, WellNumbered, Evolves;
    ReplacedRows(s, j, vs);
    ReplacedEvolves(pid, r, h, s.db.now);
    UnselectedIsFine(r, h, s.db.now, s.nextPid);
  }

  lemma UnselectedIsFine(r: Job, h: History, now: Time, nextPid: Pid)
    requires RowInv(r, now) && OperatorInv(r, h) && ReleaseInv(r, h, now) && PublishInv(r, h, nextPid)
    ensures var r' := r.(selected := None);
            RowInv(r', now) && OperatorInv(r', h) && ReleaseInv(r', h, now) && PublishInv(r', h, nextPid)
  {
    hide PhaseOf, LastAsked;
  }

  lemma ReplacedEvolves(pid: Pid, r: Job, h: History, now: Time)
    ensures Evolves(pid, r, h, r.(selected := None), h, now)
  {
    hide PhaseOf, LastAsked;
  }

  /** Even a late replacement keeps the invariant: it can only clear the selection. */
  lemma ReplaceKeepsInv(s: Sys, pid: Pid, vs: seq<NewVariant>)
    requires Inv(s) && pid in s.procs && s.procs[pid].pc.GenClaimed?
    ensures Kept(s, StepVariants(s, pid, AiVariants(vs)))
  {
    hide Inv, Kept, GoodRow, Evolves, ProcInv, VariantsInv, ReplaceVariants, OwnTables, Hist;
    JobAt(s, pid);
    var j := s.procs[pid].job;
    var e := ReplaceVariants(s.db, j, vs);
    if e.outcome == Committed {
      var r, h := s.db.jobs[j], Hist(s, j);
      GoodReplaced(s, pid, j, r, h, vs);
      SavedIsFine(pid, r.status, h, s.db.now);
      TableWrite(s, pid, e.db, r.(selected := None), h, Some(GenSaved));
    } else {
      LocalMove(s, pid, None);
    }
  }

  lemma SavedIsFine(pid: Pid, status: Status, h: History, now: Time)
    ensures ProcInv(pid, GenSaved, status, h, now)
  {
  }

  // ---- retry, recovery, promotion ----

  /** What the passes over listed jobs may rely on. */
  lemma UpkeepAt(s: Sys, pid: Pid)
    requires Inv(s) && pid in s.procs
    ensures var h := Hist(s, s.procs[pid].job);
            match s.procs[pid].pc
            case RetryListed(target) =>
              target == ScoringQueued || (target == VariantsQueued && !PhaseOf(h.events).Idle?)
            case StaleListed(seen) => seen == Publishing ==> h.claimant.Some?
            case StaleLogged(found) => found.Some? ==> h.calls != [] && h.calls[0].media == found
            case DueListed(asOf) => asOf <= s.db.now
            case _ => true
  {
    InvAt(s, pid);
    hide Kept, Inv, GoodRow, Hist, PhaseOf, LastAsked;
  }

  lemma UpkeepKeepsInv(s: Sys, pid: Pid, c: Choice)
    requires Inv(s) && pid in s.procs
    ensures Kept(s, StepUpkeep(s, pid, c))
  {
    hide Kept, Inv, PhaseOf, LastAsked, ProcInv, Commit, Park, LookUp, Promote;
    UpkeepAt(s, pid);
    match s.procs[pid].pc
    case RetryListed(target) => ClaimKeepsInv(s, pid, WaitingAI, target, None);
    case StaleListed(seen) =>
      if seen == Publishing { LookUpKeepsInv(s, pid, c); }
      else { ParkKeepsInv(s, pid, "recovered stale worker lease"); }
    case StaleLogged(found) =>
      if found.Some? { PublishedKeepsInv(s, pid, found.value); }
      else { FailKeepsInv(s, pid, UNCERTAIN); }
    case DueListed(asOf) => PromoteKeepsInv(s, pid);
    case _ => KeptSame(s);
  }

  /** A media id found in the log is the one the publisher returned for this job. */
  lemma LookUpKeepsInv(s: Sys, pid: Pid, c: Choice)
    requires Inv(s) && pid in s.procs && s.procs[pid].pc == StaleListed(Publishing)
    ensures Kept(s, LookUp(s, pid, c))
  {
    hide Kept, Inv, ProcInv, PhaseOf, LastAsked;
    InvAt(s, pid);
    UpkeepAt(s, pid);
    var j := s.procs[pid].job;
    var h := Hist(s, j);
    assert LogInv(j, h, s.db.logs);
    hide GoodRow;
    MediaIdIsLogged(s.db.logs, j);
    var look := SuccessfulPublishMediaID(s.db.logs, j);
    var found := if look.Found? && !c.StatementLost? then Some(look.media) else None;
    FoundIsFine(pid, found, s.db.jobs[j].status, h, s.db.now);
    LocalMove(s, pid, Some(StaleLogged(found)));
  }

  lemma FoundIsFine(pid: Pid, found: Option<string>, status: Status, h: History, now: Time)
    requires h.claimant.Some? && (found.Some? ==> h.calls != [] && h.calls[0].media == found)
    ensures ProcInv(pid, StaleLogged(found), status, h, now)
  {
  }

  lemma PromoteKeepsInv(s: Sys, pid: Pid)
    requires Inv(s) && pid in s.procs && s.procs[pid].pc.DueListed?
    ensures Kept(s, Promote(s, pid, s.procs[pid].pc.asOf))
  {
    hide GoodRow, Evolves, ProcInv, VariantsInv;
    InvAt(s, pid);
    UpkeepAt(s, pid);
    var j, asOf := s.procs[pid].job, s.procs[pid].pc.asOf;
    var r, h := s.db.jobs[j], Hist(s, j);
    assert VariantsInv(s);
    hide Kept, Inv;
    if DueBy(r, asOf) {
      GoodPromotion(s, pid, j, r, h, asOf);
      ListedIsFine(pid, Promoted(s, j), s.db.now);
      hide Promoted;
      RowWrite(s, pid, Moved(r, Approved, s.db.now), Promoted(s, j), Some(PublishListed));
    } else {
      LocalMove(s, pid, None);
    }
  }

  lemma GoodPromotion(s: Sys, pid: Pid, j: JobId, r: Job, h: History, asOf: Time)
    requires j in s.db.jobs && r == s.db.jobs[j] && h == Hist(s, j) && VariantsInv(s)
    requires GoodRow(s, j, r, h) && DueBy(r, asOf) && asOf <= s.db.now
    ensures GoodRow(s, j, Moved(r, Approved, s.db.now), Promoted(s, j))
    ensures Evolves(pid, r, h, Moved(r, Approved, s.db.now), Promoted(s, j), s.db.now)
  {
    hide PhaseOf, LastAsked, LogInv, VariantsInv;
    GoodRelease(s, pid, j, r, h, Promoted(s, j));
  }

  lemma ListedIsFine(pid: Pid, h: History, now: Time)
    ensures !h.release.Unreleased? ==> ProcInv(pid, PublishListed, Approved, h, now)
  {
  }

  lemma PublishedKeepsInv(s: Sys, pid: Pid, media: string)
    requires Inv(s) && pid in s.procs
    requires Hist(s, s.procs[pid].job).calls != [] && Hist(s, s.procs[pid].job).calls[0].media == Some(media)
    ensures Kept(s, Commit(s, pid, MarkPublished(s.db, s.procs[pid].job, media), Hist(s, s.procs[pid].job), None))
  {
    InvAt(s, pid);
    hide Kept, Inv, GoodRow, Evolves, CanTransition;
    var j := s.procs[pid].job;
    var r, h := s.db.jobs[j], Hist(s, j);
    EdgesInto(r.status, Published);
    if CanTransition(r.status, Published) {
      GoodPublished(s, pid, j, r, h, media);
      RowWrite(s, pid, Moved(r, Published, s.db.now).(mediaId := media, error := ""), h, None);
    } else {
      LocalMove(s, pid, None);
    }
  }

  // ---- publish worker ----

  /** What a publish process may rely on at each of its program counters. */
  lemma PublisherAt(s: Sys, pid: Pid)
    requires Inv(s) && pid in s.procs
    ensures var h := Hist(s, s.procs[pid].job);
            match s.procs[pid].pc
            case PublishListed => !h.release.Unreleased?
            case PublishLoaded(v) => h.release.Chosen? && h.release.variant == v
            case PublishClaimed(v) => Holds(pid, h, v)
            case PublishRead(v, caption, image) =>
              Holds(pid, h, v) && caption == h.release.caption && (image == Blank || image == Upload(v, caption))
            case PublishReady(v, caption, image) =>
              Holds(pid, h, v) && caption == h.release.caption && image == Upload(v, caption)
            case PublishReturned(receipt, _) =>
              && Returned(pid, h, if receipt.Some? then Some(receipt.value.media) else None)
              && (receipt.Some? ==> MediaIdOf(receipt.value.response) == Some(receipt.value.media))
            case PublishLogged(media) => Returned(pid, h, Some(media))
            case _ => true
  {
    InvAt(s, pid);
    hide Kept, Inv, GoodRow, Hist, MediaIdOf;
  }

  /** What was released, if its row is still there, belongs to the job and kept its caption. */
  lemma ReleasedVariant(s: Sys, pid: Pid)
    requires Inv(s) && pid in s.procs
    ensures VariantsInv(s)
    ensures var j := s.procs[pid].job;
            var h := Hist(s, j);
            h.release.Chosen? && h.release.variant in s.db.variants ==>
              && s.db.variants[h.release.variant].job == j
              && s.db.variants[h.release.variant].caption == h.release.caption
              && ImageInv(h.release.variant, s.db.variants[h.release.variant])
  {
    InvAt(s, pid);
    hide ProcInv, PhaseOf, LastAsked;
  }

  lemma PublishKeepsInv(s: Sys, pid: Pid, c: Choice)
    requires Inv(s) && pid in s.procs
    ensures Kept(s, StepPublish(s, pid, c))
  {
    hide Kept, Inv, ProcInv, Commit, LoadJob, ClaimPublish, ReadVariant, Render, CallPublisher, LogResult;
    PublisherAt(s, pid);
    match s.procs[pid].pc
    case PublishListed => LoadKeepsInv(s, pid, c);
    case PublishLoaded(v) => PublishClaimKeepsInv(s, pid);
    case PublishClaimed(v) => ReadKeepsInv(s, pid, c);
    case PublishRead(_, _, _) => RenderKeepsInv(s, pid, c);
    case PublishReady(_, _, _) => CallKeepsInv(s, pid, c);
    case PublishReturned(_, _) => LogKeepsInv(s, pid, c);
    case PublishLogged(media) => PublishedKeepsInv(s, pid, media);
    case PublishFailing(msg) => FailKeepsInv(s, pid, msg);
    case _ => KeptSame(s);
  }

  lemma LoadKeepsInv(s: Sys, pid: Pid, c: Choice)
    requires Inv(s) && pid in s.procs && s.procs[pid].pc.PublishListed?
    ensures Kept(s, LoadJob(s, pid, c))
  {
    hide PhaseOf, LastAsked, ProcInv;
    InvAt(s, pid);
    PublisherAt(s, pid);
    var r, h := s.db.jobs[s.procs[pid].job], Hist(s, s.procs[pid].job);
    hide Kept, Inv;
    if !c.LoadError? && r.selected.Some? {
      LoadedIsFine(pid, r.selected.value, r.status, h, s.db.now);
      LocalMove(s, pid, Some(PublishLoaded(r.selected.value)));
    } else {
      LocalMove(s, pid, None);
    }
  }

  lemma LoadedIsFine(pid: Pid, v: VariantId, status: Status, h: History, now: Time)
    requires h.release.Chosen? && h.release.variant == v
    ensures ProcInv(pid, PublishLoaded(v), status, h, now)
  {
  }

  lemma PublishClaimKeepsInv(s: Sys, pid: Pid)
    requires Inv(s) && pid in s.procs && s.procs[pid].pc.PublishLoaded?
    ensures Kept(s, ClaimPublish(s, pid, s.procs[pid].pc.variant))
  {
    hide Kept, Inv, GoodRow, Evolves, ProcInv;
    InvAt(s, pid);
    PublisherAt(s, pid);
    var j, v := s.procs[pid].job, s.procs[pid].pc.variant;
    var r, h := s.db.jobs[j], Hist(s, j);
    if r.status == Approved {
      GoodClaim(s, pid, j, r, h);
      ClaimedIsFine(pid, v, h.(claimant := Some(pid)), s.db.now);
      RowWrite(s, pid, Moved(r, Publishing, s.db.now), h.(claimant := Some(pid)), Some(PublishClaimed(v)));
    } else {
      LocalMove(s, pid, None);
    }
  }

  lemma ClaimedIsFine(pid: Pid, v: VariantId, h: History, now: Time)
    requires Holds(pid, h, v)
    ensures ProcInv(pid, PublishClaimed(v), Publishing, h, now)
  {
  }

  lemma ReadKeepsInv(s: Sys, pid: Pid, c: Choice)
    requires Inv(s) && pid in s.procs && s.procs[pid].pc.PublishClaimed?
    ensures Kept(s, ReadVariant(s, pid, s.procs[pid].pc.variant, c))
  {
    hide Kept, Inv, GoodRow, ProcInv, VariantsInv;
    InvAt(s, pid);
    PublisherAt(s, pid);
    ReleasedVariant(s, pid);
    var j, v := s.procs[pid].job, s.procs[pid].pc.variant;
    var r, h := s.db.jobs[j], Hist(s, j);
    if c.LoadError? {
      HeldIsFine(pid, v, h.release.caption, Blank, "load variant: " + c.msg, r.status, h, s.db.now);
      LocalMove(s, pid, Some(PublishFailing("load variant: " + c.msg)));
    } else if v in s.db.variants {
      var row := s.db.variants[v];
      HeldIsFine(pid, v, row.caption, row.image, "", r.status, h, s.db.now);
      LocalMove(s, pid, Some(PublishRead(v, row.caption, row.image)));
    } else {
      HeldIsFine(pid, v, h.release.caption, Blank, "load variant: not found", r.status, h, s.db.now);
      LocalMove(s, pid, Some(PublishFailing("load variant: not found")));
    }
  }

  lemma HeldIsFine(pid: Pid, v: VariantId, caption: string, image: ImageUrl, msg: string,
                   status: Status, h: History, now: Time)
    requires Holds(pid, h, v) && caption == h.release.caption && (image == Blank || image == Upload(v, caption))
    ensures ProcInv(pid, PublishRead(v, caption, image), status, h, now)
    ensures ProcInv(pid, PublishReady(v, caption, Upload(v, caption)), status, h, now)
    ensures ProcInv(pid, PublishFailing(msg), status, h, now)
  {
  }

  /** Storing an image that matches the stored caption. */
  lemma GoodStored(s: Sys, s': Sys, j: JobId, r: Job, h: History, v: VariantId, url: ImageUrl)
    requires GoodRow(s, j, r, h)
    requires s'.db == SetVariantImageURL(s.db, v, url) && s'.nextPid == s.nextPid
    ensures GoodRow(s', j, r, h)
  {
    hide PhaseOf, LastAsked;
  }

  lemma StoredTables(s: Sys, j: JobId, v: VariantId, caption: string)
    requires VariantsInv(s) && j in s.db.jobs
    requires v in s.db.variants ==> s.db.variants[v].job == j && s.db.variants[v].caption == caption
    ensures var db' := SetVariantImageURL(s.db, v, Upload(v, caption));
            && OwnTables(s, j, db', s.db.jobs[j])
            && (forall k :: k in db'.variants && db'.variants[k].job == j ==>
                  k < db'.nextVariant && ImageInv(k, db'.variants[k]))
  {
    assert s.db.jobs[j := s.db.jobs[j]] == s.db.jobs;
  }

  /** The unguarded image write is safe: the caption it was rendered from can no longer change. */
  lemma RenderKeepsInv(s: Sys, pid: Pid, c: Choice)
    requires Inv(s) && pid in s.procs && s.procs[pid].pc.PublishRead?
    ensures var p := s.procs[pid].pc; Kept(s, Render(s, pid, p.variant, p.caption, p.image, c))
  {
    hide Kept, Inv, VariantsInv, GoodRow, Evolves, ProcInv, OwnTables;
    InvAt(s, pid);
    PublisherAt(s, pid);
    ReleasedVariant(s, pid);
    var j := s.procs[pid].job;
    var r, h := s.db.jobs[j], Hist(s, j);
    var PublishRead(v, caption, image) := s.procs[pid].pc;
    HeldIsFine(pid, v, caption, image, if c.RenderFailed? then c.msg else "", r.status, h, s.db.now);
    if image != Blank || c.RenderFailed? || c.StatementLost? {
      LocalMove(s, pid, if image == Blank && c.RenderFailed? then Some(PublishFailing(c.msg))
                        else Some(PublishReady(v, caption, Upload(v, caption))));
    } else {
      RenderedKeepsInv(s, pid, v, caption);
      assert s.hist[j := h] == s.hist;
    }
  }

  lemma RenderedKeepsInv(s: Sys, pid: Pid, v: VariantId, caption: string)
    requires Inv(s) && pid in s.procs && ProcOk(s, pid) && VariantsInv(s)
    requires var j := s.procs[pid].job;
             v in s.db.variants ==> s.db.variants[v].job == j && s.db.variants[v].caption == caption
    requires var h := Hist(s, s.procs[pid].job);
             Holds(pid, h, v) && caption == h.release.caption
    ensures Kept(s, Written(s, pid, SetVariantImageURL(s.db, v, Upload(v, caption)), Hist(s, s.procs[pid].job),
                        Some(PublishReady(v, caption, Upload(v, caption)))))
  {
    var j := s.procs[pid].job;
    var r, h := s.db.jobs[j], Hist(s, j);
    var db' := SetVariantImageURL(s.db, v, Upload(v, caption));
    InvAt(s, pid);
    hide Kept, Inv, VariantsInv, GoodRow, Evolves, ProcInv, OwnTables;
    GoodStored(s, s.(db := db'), j, r, h, v, Upload(v, caption));
    StoredTables(s, j, v, caption);
    StandStill(pid, r, h, s.db.now);
    HeldIsFine(pid, v, caption, Blank, "", r.status, h, s.db.now);
    TableWrite(s, pid, db', r, h, Some(PublishReady(v, caption, Upload(v, caption))));
  }

  lemma GoodCall(s: Sys, pid: Pid, j: JobId, r: Job, h: History, call: Call)
    requires GoodRow(s, j, r, h) && h.claimant == Some(pid) && h.calls == []
    requires call.variant == h.release.variant && call.caption == h.release.caption
    requires call.image == Upload(h.release.variant, h.release.caption)
    ensures GoodRow(s, j, r, h.(calls := [call]))
    ensures Evolves(pid, r, h, r, h.(calls := [call]), s.db.now)
  {
    hide PhaseOf, LastAsked;
  }

  lemma CallKeepsInv(s: Sys, pid: Pid, c: Choice)
    requires Inv(s) && pid in s.procs && s.procs[pid].pc.PublishReady?
    ensures var p := s.procs[pid].pc; Kept(s, CallPublisher(s, pid, p.variant, p.caption, p.image, c))
  {
    hide Kept, Inv, GoodRow, Evolves, MediaIdOf, ProcInv;
    InvAt(s, pid);
    PublisherAt(s, pid);
    var j := s.procs[pid].job;
    var r, h := s.db.jobs[j], Hist(s, j);
    var PublishReady(v, caption, image) := s.procs[pid].pc;
    var s' := CallPublisher(s, pid, v, caption, image, c);
    var h', next := Hist(s', j), s'.procs[pid].pc;
    var call := h'.calls[0];
    assert h' == h.(calls := [call]);
    GoodCall(s, pid, j, r, h, call);
    ReturnedIsFine(pid, next.receipt, next.msg, r.status, h', s.db.now);
    RowWrite(s, pid, r, h', Some(next));
    assert s.db == Put(s.db, j, r);
  }

  lemma ReturnedIsFine(pid: Pid, receipt: Option<Receipt>, msg: string, status: Status, h: History, now: Time)
    requires Returned(pid, h, if receipt.Some? then Some(receipt.value.media) else None)
    requires receipt.Some? ==> MediaIdOf(receipt.value.response) == Some(receipt.value.media)
    ensures ProcInv(pid, PublishReturned(receipt, msg), status, h, now)
  {
  }

  lemma GoodLogged(s: Sys, j: JobId, r: Job, h: History, entry: PublishLog)
    requires GoodRow(s, j, r, h) && VariantsInv(s) && j in s.db.jobs && r == s.db.jobs[j] && entry.job == j
    requires RecordsSuccess(entry, j) ==>
               h.calls != [] && h.calls[0].media.Some? && MediaIdOf(entry.response.value) == h.calls[0].media
    ensures var db' := InsertPublishLog(s.db, entry);
            && OwnTables(s, j, db', r)
            && GoodRow(s.(db := db'), j, r, h)
            && (forall v :: v in db'.variants && db'.variants[v].job == j ==>
                  v < db'.nextVariant && ImageInv(v, db'.variants[v]))
  {
    hide PhaseOf, LastAsked, MediaIdOf;
    assert s.db.jobs[j := s.db.jobs[j]] == s.db.jobs;
  }

  lemma LoggedIsFine(pid: Pid, receipt: Option<Receipt>, msg: string, status: Status, h: History, now: Time)
    requires Returned(pid, h, if receipt.Some? then Some(receipt.value.media) else None)
    ensures ProcInv(pid, if receipt.Some? then PublishLogged(receipt.value.media)
                         else PublishFailing("instagram publish: " + msg), status, h, now)
  {
  }

  lemma LogKeepsInv(s: Sys, pid: Pid, c: Choice)
    requires Inv(s) && pid in s.procs && s.procs[pid].pc.PublishReturned?
    ensures var p := s.procs[pid].pc; Kept(s, LogResult(s, pid, p.receipt, p.msg, c))
  {
    hide GoodRow, Evolves, ProcInv, MediaIdOf, OwnTables, VariantsInv;
    InvAt(s, pid);
    PublisherAt(s, pid);
    var j := s.procs[pid].job;
    var r, h := s.db.jobs[j], Hist(s, j);
    var PublishReturned(receipt, msg) := s.procs[pid].pc;
    var next :=
      if receipt.Some? then PublishLogged(receipt.value.media)
      else PublishFailing("instagram publish: " + msg);
    LoggedIsFine(pid, receipt, msg, r.status, h, s.db.now);
    assert VariantsInv(s);
    hide Kept, Inv;
    if c.StatementLost? {
      LocalMove(s, pid, Some(next));
    } else {
      var entry := LogEntry(j, receipt, msg);
      GoodLogged(s, j, r, h, entry);
      StandStill(pid, r, h, s.db.now);
      TableWrite(s, pid, InsertPublishLog(s.db, entry), r, h, Some(next));
      assert s.hist[j := h] == s.hist;
    }
  }

  // ---- preview and operator requests ----

  /** Program counters that rely on nothing: their next statement checks what it needs. */
  predicate Carefree(p: PC) {
    || p.ScoreClaimed? || p.GenClaimed? || p.ContextMissing?
    || p.PreviewStart? || p.PreviewLoaded? || p.PreviewRead?
    || p.SelectRead? || p.SelectCommit? || p.QueueRead?
    || p.ReviewLoaded? || p.ApproveCommit? || p.ScheduleCommit? || p.RescheduleCommit?
  }

  lemma CarefreeIsFine(pid: Pid, p: PC, status: Status, h: History, now: Time)
    requires Carefree(p)
    ensures ProcInv(pid, p, status, h, now)
  {
  }

  lemma CarefreeMove(s: Sys, pid: Pid, next: Option<PC>)
    requires Inv(s) && pid in s.procs
    requires next.Some? ==> Carefree(next.value)
    ensures Kept(s, Become(s, pid, next))
  {
    InvAt(s, pid);
    var j := s.procs[pid].job;
    hide Kept, Inv, GoodRow, ProcInv;
    if next.Some? { CarefreeIsFine(pid, next.value, s.db.jobs[j].status, Hist(s, j), s.db.now); }
    LocalMove(s, pid, next);
  }

  /** The guarded write keeps every image true to its caption, however slow the render was. */
  lemma PreviewKeepsInv(s: Sys, pid: Pid, c: Choice)
    requires Inv(s) && pid in s.procs
    ensures Kept(s, StepPreview(s, pid, c))
  {
    hide Kept, Inv;
    match s.procs[pid].pc
    case PreviewStart(attempt, cont) =>
      var r := s.db.jobs;
      var j := s.procs[pid].job;
      CarefreeMove(s, pid, if attempt < PREVIEW_ATTEMPTS && j in r && r[j].selected.Some?
                           then Some(PreviewLoaded(r[j].selected.value, attempt, cont)) else None);
    case PreviewLoaded(v, attempt, cont) =>
      CarefreeMove(s, pid,
                   if v in s.db.variants then Some(PreviewRead(v, s.db.variants[v].caption, attempt, cont))
                   else None);
    case PreviewRead(v, caption, attempt, cont) =>
      if c.RenderFailed? {
        CarefreeMove(s, pid, None);
      } else if v in s.db.variants && s.db.variants[v].caption == caption {
        var s1 := s.(db := SetVariantImageURL(s.db, v, Upload(v, caption)));
        StoreKeepsInv(s, v);
        KeptInv(s, s1);
        CarefreeMove(s1, pid, Resume(cont));
        KeptTwice(s, s1, Become(s1, pid, Resume(cont)));
      } else {
        CarefreeMove(s, pid, Some(PreviewStart(attempt + 1, cont)));
      }
    case _ => KeptSame(s);
  }

  lemma StoreKeepsInv(s: Sys, v: VariantId)
    requires Inv(s) && v in s.db.variants
    ensures Kept(s, s.(db := SetVariantImageURL(s.db, v, Upload(v, s.db.variants[v].caption))))
  {
    hide JobsInv, ProcsInv, RowStep, GoodRow, ProcInv;
    var s' := s.(db := SetVariantImageURL(s.db, v, Upload(v, s.db.variants[v].caption)));
    StoredJobs(s, v);
    KeptSame(s);
    SameProcs(s, s');
    assert VariantsInv(s');
  }

  lemma StoredJobs(s: Sys, v: VariantId)
    requires JobsInv(s) && v in s.db.variants
    ensures JobsInv(s.(db := SetVariantImageURL(s.db, v, Upload(v, s.db.variants[v].caption))))
  {
    var url := Upload(v, s.db.variants[v].caption);
    var s' := s.(db := SetVariantImageURL(s.db, v, url));
    hide GoodRow;
    forall k | k in s'.db.jobs
      ensures JobInv(s', k)
    {
      assert JobInv(s, k);
      GoodStored(s, s', k, s.db.jobs[k], Hist(s, k), v, url);
    }
  }

  lemma SameProcs(s: Sys, s': Sys)
    requires ProcsInv(s) && s'.procs == s.procs && s'.nextPid == s.nextPid && s'.hist == s.hist
    requires s'.db.jobs == s.db.jobs && s'.db.now == s.db.now
    ensures ProcsInv(s')
  {
    hide ProcInv;
    forall q | q in s'.procs
      ensures ProcOk(s', q)
    {
      assert ProcOk(s, q);
    }
  }

  lemma ReviewKeepsInv(s: Sys, pid: Pid)
    requires Inv(s) && pid in s.procs
    ensures Kept(s, StepReview(s, pid))
  {
    hide Kept, Inv;
    var s' := StepReview(s, pid);
    var p := s.procs[pid].pc;
    if p.SelectStart? || p.SelectRead? || p.QueueRead? || p.ScheduleRead? || p.ReviewLoaded? {
      CarefreeMove(s, pid, if pid in s'.procs then Some(s'.procs[pid].pc) else None);
    } else {
      KeptSame(s);
    }
  }

  lemma OperatorKeepsInv(s: Sys, pid: Pid)
    requires Inv(s) && pid in s.procs
    ensures Kept(s, StepOperator(s, pid))
  {
    hide Kept, Inv, Generate, Select, Edit, Approve, ScheduleAt, RescheduleAt, Cancel, Skip;
    match s.procs[pid].pc
    case GenerateCommit(_) => GenerateKeepsInv(s, pid);
    case SelectCommit(_, _, _) => SelectKeepsInv(s, pid);
    case EditCommit(_, _) => EditKeepsInv(s, pid);
    case ApproveCommit => ApproveKeepsInv(s, pid);
    case ScheduleCommit(_) => ScheduleKeepsInv(s, pid);
    case RescheduleCommit(_) => RescheduleKeepsInv(s, pid);
    case CancelCommit => CancelKeepsInv(s, pid);
    case SkipCommit => SkipKeepsInv(s, pid);
    case _ => KeptSame(s);
  }

  lemma AsksForSome(pid: Pid, p: PC, status: Status, h: History, now: Time)
    requires ProcInv(pid, p, status, h, now) && p.GenerateCommit?
    ensures 1 <= p.count
  {
  }

  lemma GenerateKeepsInv(s: Sys, pid: Pid)
    requires Inv(s) && pid in s.procs && s.procs[pid].pc.GenerateCommit?
    ensures Kept(s, Generate(s, pid, s.procs[pid].pc.count))
  {
    hide GoodRow, Evolves, CanTransition, ProcInv;
    InvAt(s, pid);
    hide Kept, Inv;
    var j, count := s.procs[pid].job, s.procs[pid].pc.count;
    AsksForSome(pid, s.procs[pid].pc, s.db.jobs[j].status, Hist(s, j), s.db.now);
    var r, h := s.db.jobs[j], Hist(s, j);
    EdgesInto(r.status, VariantsQueued);
    if CanTransition(r.status, VariantsQueued) {
      GoodGenerate(s, pid, j, r, h, count);
      RowWrite(s, pid, Moved(r, VariantsQueued, s.db.now).(requestedVariants := count, selected := None),
               Noted(h, Generated(count)), None);
    } else {
      LocalMove(s, pid, None);
    }
  }

  lemma ScheduleKeepsInv(s: Sys, pid: Pid)
    requires Inv(s) && pid in s.procs && s.procs[pid].pc.ScheduleCommit?
    ensures Kept(s, ScheduleAt(s, pid, s.procs[pid].pc.at))
  {
    hide Kept, Inv, GoodRow, Evolves, CanTransition, ProcInv;
    InvAt(s, pid);
    var j, at := s.procs[pid].job, s.procs[pid].pc.at;
    var r, h := s.db.jobs[j], Hist(s, j);
    EdgesInto(r.status, Scheduled);
    if CanTransition(r.status, Scheduled) && r.selected.Some? {
      GoodSchedule(s, pid, j, r, h, at);
      RowWrite(s, pid, Moved(r, Scheduled, s.db.now).(scheduledAt := Some(at)), Noted(h, ScheduleAsked(at)), None);
    } else {
      LocalMove(s, pid, None);
    }
  }

  lemma RescheduleKeepsInv(s: Sys, pid: Pid)
    requires Inv(s) && pid in s.procs && s.procs[pid].pc.RescheduleCommit?
    ensures Kept(s, RescheduleAt(s, pid, s.procs[pid].pc.at))
  {
    InvAt(s, pid);
    hide Kept, Inv, GoodRow, Evolves, ProcInv;
    var j, at := s.procs[pid].job, s.procs[pid].pc.at;
    var r, h := s.db.jobs[j], Hist(s, j);
    if r.status == Scheduled {
      GoodSchedule(s, pid, j, r, h, at);
      RowWrite(s, pid, Moved(r, Scheduled, s.db.now).(scheduledAt := Some(at)), Noted(h, ScheduleAsked(at)), None);
    } else {
      LocalMove(s, pid, None);
    }
  }

  lemma CancelKeepsInv(s: Sys, pid: Pid)
    requires Inv(s) && pid in s.procs && s.procs[pid].pc.CancelCommit?
    ensures Kept(s, Cancel(s, pid))
  {
    InvAt(s, pid);
    hide Kept, Inv, GoodRow, Evolves, ProcInv;
    var j := s.procs[pid].job;
    var r, h := s.db.jobs[j], Hist(s, j);
    if r.status == Scheduled {
      GoodCancel(s, pid, j, r, h);
      RowWrite(s, pid, Moved(r, ReadyToPublish, s.db.now).(scheduledAt := None), Noted(h, ScheduleCancelled), None);
    } else {
      LocalMove(s, pid, None);
    }
  }

  lemma SkipKeepsInv(s: Sys, pid: Pid)
    requires Inv(s) && pid in s.procs && s.procs[pid].pc.SkipCommit?
    ensures Kept(s, Skip(s, pid))
  {
    InvAt(s, pid);
    hide Kept, Inv, GoodRow, Evolves, CanTransition, ProcInv;
    var j := s.procs[pid].job;
    var r, h := s.db.jobs[j], Hist(s, j);
    EdgesInto(r.status, Skipped);
    if CanTransition(r.status, Skipped) {
      GoodSkip(s, pid, j, r, h);
      RowWrite(s, pid, Moved(r, Skipped, s.db.now), Noted(h, SkipAsked), None);
    } else {
      LocalMove(s, pid, None);
    }
  }

  lemma GoodApproval(s: Sys, pid: Pid, j: JobId, r: Job, h: History)
    requires j in s.db.jobs && r == s.db.jobs[j] && VariantsInv(s)
    requires GoodRow(s, j, r, h) && EnteredFrom(Approved, r.status)
    ensures var h' := Noted(h, PublishAsked).(release := ReleaseOf(s.db, j));
            && GoodRow(s, j, Moved(r, Approved, s.db.now), h')
            && Evolves(pid, r, h, Moved(r, Approved, s.db.now), h', s.db.now)
  {
    PhaseOfNoted(h.events, PublishAsked);
    hide PhaseOf, LastAsked, LogInv, VariantsInv;
    GoodRelease(s, pid, j, r, h, Noted(h, PublishAsked).(release := ReleaseOf(s.db, j)));
  }

  lemma ApproveKeepsInv(s: Sys, pid: Pid)
    requires Inv(s) && pid in s.procs && s.procs[pid].pc.ApproveCommit?
    ensures Kept(s, Approve(s, pid))
  {
    hide Inv, Kept, GoodRow, Evolves, CanTransition, VariantsInv, ReleaseOf, ProcInv, Hist;
    JobAt(s, pid);
    var j := s.procs[pid].job;
    var r, h := s.db.jobs[j], Hist(s, j);
    EdgesInto(r.status, Approved);
    if CanTransition(r.status, Approved) {
      GoodApproval(s, pid, j, r, h);
      RowWrite(s, pid, Moved(r, Approved, s.db.now), Noted(h, PublishAsked).(release := ReleaseOf(s.db, j)), None);
    } else {
      LocalMove(s, pid, None);
    }
  }

  lemma SelectKeepsInv(s: Sys, pid: Pid)
    requires Inv(s) && pid in s.procs && s.procs[pid].pc.SelectCommit?
    ensures var p := s.procs[pid].pc; Kept(s, Select(s, pid, p.variant, p.reselect, p.cont))
  {
    InvAt(s, pid);
    var j := s.procs[pid].job;
    var SelectCommit(v, reselect, cont) := s.procs[pid].pc;
    var r, h := s.db.jobs[j], Hist(s, j);
    EdgesInto(r.status, ReadyToPublish);
    hide Kept, Inv, GoodRow, Evolves, CanTransition, ProcInv;
    var from := if reselect then r.status == ReadyToPublish else CanTransition(r.status, ReadyToPublish);
    if from && OwnsVariant(s.db, j, v) {
      var r', h', next := Moved(r, ReadyToPublish, s.db.now).(selected := Some(v)), Noted(h, Selected(v)),
          PreviewStart(0, cont);
      GoodSelect(s, pid, j, r, h, v);
      CarefreeIsFine(pid, next, ReadyToPublish, h', s.db.now);
      RowWrite(s, pid, r', h', Some(next));
      assert Select(s, pid, v, reselect, cont) == RowWritten(s, pid, r', h', Some(next));
    } else {
      LocalMove(s, pid, None);
    }
  }

  /** An edit rewrites one variant; the job is neither released nor claimed yet. */
  lemma GoodEdited(s: Sys, pid: Pid, j: JobId, r: Job, h: History, v: VariantId, caption: string)
    requires GoodRow(s, j, r, h) && VariantsInv(s) && j in s.db.jobs && r == s.db.jobs[j]
    requires Editable(r.status) && FitsText(caption) && OwnsVariant(s.db, j, v)
    ensures var db' := UpdateVariantCaption(s.db, j, v, caption).db;
            && OwnTables(s, j, db', r)
            && GoodRow(s.(db := db'), j, r, Noted(h, Edited(v)))
            && Evolves(pid, r, h, r, Noted(h, Edited(v)), s.db.now)
            && (forall v :: v in db'.variants && db'.variants[v].job == j ==>
                  v < db'.nextVariant && ImageInv(v, db'.variants[v]))
  {
    PhaseOfNoted(h.events, Edited(v));
    assert s.db.jobs[j := s.db.jobs[j]] == s.db.jobs;
    hide PhaseOf, LastAsked;
  }

  lemma EditKeepsInv(s: Sys, pid: Pid)
    requires Inv(s) && pid in s.procs && s.procs[pid].pc.EditCommit?
    ensures var p := s.procs[pid].pc; Kept(s, Edit(s, pid, p.variant, p.caption))
  {
    InvAt(s, pid);
    var j := s.procs[pid].job;
    var r, h := s.db.jobs[j], Hist(s, j);
    var EditCommit(v, caption) := s.procs[pid].pc;
    assert VariantsInv(s);
    hide Kept, Inv, GoodRow, Evolves, VariantsInv, ProcInv, OwnTables;
    if Editable(r.status) && FitsText(caption) && OwnsVariant(s.db, j, v) {
      GoodEdited(s, pid, j, r, h, v, caption);
      var next := if r.selected == Some(v) then Some(PreviewStart(0, Finish)) else None;
      CarefreeIsFine(pid, PreviewStart(0, Finish), r.status, Noted(h, Edited(v)), s.db.now);
      TableWrite(s, pid, UpdateVariantCaption(s.db, j, v, caption).db, r, Noted(h, Edited(v)), next);
    } else {
      LocalMove(s, pid, None);
    }
  }
}
