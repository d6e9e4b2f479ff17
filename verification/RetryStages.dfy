/**
 Which AI stage a retry resumes. The retry pass picks the stage from the row as it was listed and
 claims the job later; if variants were requested in between, the job goes back to scoring. This
 module says exactly when that happens, and shows a run.
 */
module RetryStages {
  import opened Wrappers
  import opened JobStatus
  import opened PostTables
  import opened Pipeline
  import opened PipelineInvariant
  import opened PipelineSafety
  import opened PipelineRuns
  import opened StepFrames
  import opened StatusMoves
  import OperatorLineage
  import opened PublishTheorems
  import opened WitnessRuns

  /** Action a claims the parked job j for the stage that its retry pass picked. */
  predicate WinsRetry(s: Sys, a: Action, j: JobId) {
    && RunsFor(s, a, j) && s.procs[a.pid].pc.RetryListed?
    && ClaimStatus(s.db, j, WaitingAI, s.procs[a.pid].pc.target).outcome == Committed
  }

  /** The stage that was picked is not the one the row names when it is claimed. */
  predicate Misdirected(s: Sys, a: Action, j: JobId) {
    WinsRetry(s, a, j) && s.procs[a.pid].pc.target != RetryStage(s.db.jobs[j])
  }

  predicate MisdirectedAt(actions: seq<Action>, i: nat, j: JobId)
    requires i < |actions|
  {
    Misdirected(At(actions, i), actions[i], j)
  }

  /** Variants of the job were requested, and yet it is to be scored. */
  predicate ScoredAgain(s: Sys, j: JobId) {
    && j in s.db.jobs && s.db.jobs[j].requestedVariants > 0
    && (s.db.jobs[j].status == ScoringQueued || s.db.jobs[j].status == Scoring)
  }

  // ---- a job is queued for scoring once, when it was created ----

  predicate Queuing(s: Sys, p: Pid) {
    p in s.procs && s.procs[p].pc.Ingested?
  }

  ghost predicate QueuedOnce(s: Sys) {
    && (forall p :: Queuing(s, p) ==>
          && s.procs[p].job in s.db.jobs
          && (s.db.jobs[s.procs[p].job].status == New || s.db.jobs[s.procs[p].job].status == Failed))
    && (forall p, q :: Queuing(s, p) && Queuing(s, q) && s.procs[p].job == s.procs[q].job ==> p == q)
  }

  /** No action but the creation of a job leads to the statement that queues it for scoring. */
  lemma NobodyStartsOver(s: Sys, a: Action)
    ensures var s' := Step(s, a);
            && (a.Ingest? || forall p :: Queuing(s', p) ==> Queuing(s, p) && s'.procs[p] == s.procs[p])
            && (a.Run? ==> !Queuing(s', a.pid))
  {
    hide RunProc, CanList, CanRequest, Create;
    match a
    case Run(pid, c) =>
      if pid in s.procs {
        OperatorLineage.RunMoves(s, pid, c);
        hide OperatorLineage.OfRequest;
        if s.procs[pid].pc.Ingested? { QueuerLeaves(s, pid, c); }
      }
    case List(p) => if CanList(s.db, p) { ListedIsNoStart(s.db, p); }
    case Request(p) => if CanRequest(s.db, p) { RequestedIsNoStart(s.db, p); }
    case _ =>
  }

  lemma QueuerLeaves(s: Sys, pid: Pid, c: Choice)
    requires Queuing(s, pid)
    ensures pid !in RunProc(s, pid, c).procs
  {
    hide UpdateStatus, Hist;
  }

  lemma ListedIsNoStart(db: Tables, p: Proc)
    requires CanList(db, p)
    ensures !p.pc.Ingested?
  {
  }

  lemma RequestedIsNoStart(db: Tables, p: Proc)
    requires CanRequest(db, p)
    ensures !p.pc.Ingested?
  {
  }

  /** While a process is about to queue a job, only that process moves it on from NEW. */
  lemma OnlyItsQueuer(s: Sys, a: Action, p: Pid)
    requires Inv(s) && QueuedOnce(s) && Queuing(s, p) && !(a.Run? && a.pid == p)
    ensures var j, s' := s.procs[p].job, Step(s, a);
            j in s'.db.jobs && (s'.db.jobs[j].status == New || s'.db.jobs[j].status == Failed)
  {
    var j := s.procs[p].job;
    hide Inv, Step, Moves, Kept, RowStep;
    ProcsHaveJobs(s);
    StatusMovesByStatement(s, a, j);
    StepKeeps(s, a);
    StepTaken(s, a, j);
    if Step(s, a).db.jobs[j].status != s.db.jobs[j].status {
      FirstMove(s.procs[a.pid].pc, s.db.jobs[j].status, Step(s, a).db.jobs[j].status);
    }
  }

  lemma StepTaken(s: Sys, a: Action, j: JobId)
    requires Kept(s, Step(s, a)) && j in s.db.jobs
    ensures j in Step(s, a).db.jobs
    ensures RowStep(s.db.jobs[j], Hist(s, j), Step(s, a).db.jobs[j], Hist(Step(s, a), j), s.db.now)
    ensures var st, st' := s.db.jobs[j].status, Step(s, a).db.jobs[j].status; st' == st || EnteredFrom(st', st)
  {
    hide Step, Inv, Hist, WaitInv, SpendsBudget, HasSelection, DueBy, EnteredFrom;
  }

  lemma FirstMove(p: PC, from: Status, to: Status)
    requires Moves(p, from, to) && EnteredFrom(to, from) && (from == New || from == Failed)
    ensures p.Ingested? || to == Failed
  {
  }

  lemma QueuedOnceNext(s: Sys, a: Action)
    requires Inv(s) && QueuedOnce(s)
    ensures QueuedOnce(Step(s, a))
  {
    var s' := Step(s, a);
    hide Inv, Step, QueuedOnce;
    if a.Ingest? {
      ProcsHaveJobs(s);
      PidsBelow(s);
      CreatedQueuedOnce(s, a.job);
    } else {
      QueuingOf(s);
      NobodyStartsOver(s, a);
      forall p | Queuing(s', p)
        ensures s'.procs[p].job in s'.db.jobs
        ensures s'.db.jobs[s'.procs[p].job].status == New || s'.db.jobs[s'.procs[p].job].status == Failed
      {
        OnlyItsQueuer(s, a, p);
      }
      QueuedStill(s, s');
    }
  }

  lemma QueuingOf(s: Sys)
    requires QueuedOnce(s)
    ensures forall p, q :: Queuing(s, p) && Queuing(s, q) && s.procs[p].job == s.procs[q].job ==> p == q
  {
  }

  lemma QueuedStill(s: Sys, s': Sys)
    requires QueuedOnce(s) && forall p :: Queuing(s', p) ==> Queuing(s, p) && s'.procs[p] == s.procs[p]
    requires forall p :: Queuing(s', p) ==>
               && s'.procs[p].job in s'.db.jobs
               && (s'.db.jobs[s'.procs[p].job].status == New || s'.db.jobs[s'.procs[p].job].status == Failed)
    ensures QueuedOnce(s')
  {
  }

  lemma PidsBelow(s: Sys)
    requires Inv(s)
    ensures forall p :: p in s.procs ==> p < s.nextPid
  {
    hide JobInv, ProcInv;
  }

  lemma CreatedQueuedOnce(s: Sys, j: JobId)
    requires QueuedOnce(s) && forall p :: p in s.procs ==> p < s.nextPid && s.procs[p].job in s.db.jobs
    ensures QueuedOnce(Step(s, Ingest(j)))
  {
    var s' := Step(s, Ingest(j));
    if j !in s.db.jobs {
      assert forall p :: Queuing(s', p) ==> p == s.nextPid || (Queuing(s, p) && s'.procs[p] == s.procs[p]);
    }
  }

  lemma {:induction false} AlwaysQueuedOnce(actions: seq<Action>)
    ensures QueuedOnce(After(actions))
  {
    if actions != [] {
      var front := actions[..|actions| - 1];
      AlwaysQueuedOnce(front);
      AlwaysInv(front);
      hide Inv, Step, QueuedOnce;
      QueuedOnceNext(After(front), actions[|actions| - 1]);
    }
  }

  // ---- back to scoring ----

  lemma WonRetry(s: Sys, a: Action, j: JobId)
    requires WinsRetry(s, a, j)
    ensures j in s.db.jobs && s.db.jobs[j].status == WaitingAI
    ensures j in Step(s, a).db.jobs && Step(s, a).db.jobs[j] == Moved(s.db.jobs[j], s.procs[a.pid].pc.target, s.db.now)
  {
    hide Hist;
  }

  /** A misdirected retry only ever goes one way: to scoring, of a job whose variants were requested. */
  lemma MisdirectedIsBack(s: Sys, a: Action, j: JobId)
    requires Inv(s) && Misdirected(s, a, j)
    ensures ScoredAgain(Step(s, a), j)
  {
    hide Inv, Step, ProcInv, Hist, OperatorInv, JobInv;
    WonRetry(s, a, j);
    InvAt(s, a.pid);
    InvRow(s, j);
    PhaseAndRequest(s, j);
    PickedStage(a.pid, s.procs[a.pid].pc, s.db.jobs[j].status, Hist(s, j), s.db.now);
  }

  lemma PickedStage(pid: Pid, p: PC, status: Status, h: History, now: Time)
    requires ProcInv(pid, p, status, h, now) && p.RetryListed?
    ensures p.target == ScoringQueued || (p.target == VariantsQueued && !PhaseOf(h.events).Idle?)
  {
    hide PhaseOf;
  }

  /** Variants were requested exactly if the row names a number of them. */
  lemma PhaseAndRequest(s: Sys, j: JobId)
    requires Inv(s) && j in s.db.jobs
    ensures var r, h := s.db.jobs[j], Hist(s, j);
            && (r.requestedVariants > 0 <==> !PhaseOf(h.events).Idle?)
            && (NeedsGenerate(r.status) ==> r.requestedVariants > 0)
            && (r.status == New ==> r.requestedVariants == 0)
  {
    InvRow(s, j);
    hide Inv, Hist, PhaseOf, LastAsked, ReleaseInv, VariantRefs, PublishInv, LogInv;
  }

  /** Only a misdirected retry takes a job whose variants were requested to scoring. */
  lemma OnlyMisdirected(s: Sys, a: Action, j: JobId)
    requires Inv(s) && QueuedOnce(s) && !ScoredAgain(s, j) && ScoredAgain(Step(s, a), j)
    ensures Misdirected(s, a, j)
  {
    hide Inv, Step, Moves, Kept, RowStep, QueuedOnce, ClaimStatus, Hist;
    StepKeeps(s, a);
    StepFrame(s, a, j);
    NewIsUnrequested(s, a, j);
    StepTaken(s, a, j);
    PhaseAndRequest(s, j);
    RequestStays(s, a, j);
    ProcsHaveJobs(s);
    StatusMovesByStatement(s, a, j);
    ToScoring(s, a, j);
  }

  lemma NewIsUnrequested(s: Sys, a: Action, j: JobId)
    requires Inv(s) && Kept(s, Step(s, a)) && ScoredAgain(Step(s, a), j) && Orderly(s.db, Step(s, a).db)
    ensures j in s.db.jobs
  {
    hide Inv, Step;
  }

  lemma RequestStays(s: Sys, a: Action, j: JobId)
    requires j in s.db.jobs && j in Step(s, a).db.jobs
    requires RowStep(s.db.jobs[j], Hist(s, j), Step(s, a).db.jobs[j], Hist(Step(s, a), j), s.db.now)
    ensures Step(s, a).db.jobs[j].status != VariantsQueued ==>
              Step(s, a).db.jobs[j].requestedVariants == s.db.jobs[j].requestedVariants
  {
    hide Step, Hist, WaitInv, SpendsBudget, HasSelection, DueBy, EnteredFrom;
  }

  lemma ToScoring(s: Sys, a: Action, j: JobId)
    requires QueuedOnce(s) && j in s.db.jobs && j in Step(s, a).db.jobs && !ScoredAgain(s, j)
    requires s.db.jobs[j].requestedVariants > 0 && s.db.jobs[j].status != New
    requires var from, to := s.db.jobs[j].status, Step(s, a).db.jobs[j].status;
             && (to == ScoringQueued || to == Scoring) && (to == from || EnteredFrom(to, from))
             && (to == from || (RunsFor(s, a, j) && Moves(s.procs[a.pid].pc, from, to)))
    ensures Misdirected(s, a, j)
  {
    hide Step, Hist;
    if RunsFor(s, a, j) {
      assert Queuing(s, a.pid) <==> s.procs[a.pid].pc.Ingested?;
    }
  }

  /**
   At some moment of a run a job whose variants were requested is to be scored again, if and only
   if an earlier retry was won for a stage that the row no longer named.
   */
  lemma {:induction false} ScoredAgainIffMisdirected(actions: seq<Action>, n: nat, j: JobId)
    requires n <= |actions|
    ensures (exists k :: 0 <= k <= n && ScoredAgain(At(actions, k), j))
       <==> exists i :: 0 <= i < n && MisdirectedAt(actions, i, j)
  {
    assert actions[..0] == [];
    if n == 0 {
      assert !ScoredAgain(At(actions, 0), j);
    } else {
      hide At, Inv, Kept, Step, Misdirected, QueuedOnce, ScoredAgain;
      var m := n - 1;
      ScoredAgainIffMisdirected(actions, m, j);
      AtNext(actions, m);
      AlwaysQueuedOnce(actions[..m]);
      assert QueuedOnce(At(actions, m)) by { assert At(actions, m) == After(actions[..m]) by { UnfoldAt(actions, m); } }
      if !ScoredAgain(At(actions, m), j) && ScoredAgain(At(actions, n), j) {
        OnlyMisdirected(At(actions, m), actions[m], j);
        assert MisdirectedAt(actions, m, j);
      }
      if MisdirectedAt(actions, m, j) { MisdirectedIsBack(At(actions, m), actions[m], j); }
      assert ScoredAgain(At(actions, n), j) ==>
               ScoredAgain(At(actions, m), j) || MisdirectedAt(actions, m, j);
    }
  }

  lemma UnfoldAt(actions: seq<Action>, m: nat)
    requires m <= |actions|
    ensures At(actions, m) == After(actions[..m])
  {
  }

  // ---- the stage that was parked ----

  /** The queue of the stage in which a job was parked. */
  function QueueOf(stage: Status): Status {
    if stage == GeneratingVariants then VariantsQueued else ScoringQueued
  }

  /** Action m parks job j, and it stays parked until action i. */
  predicate ParkedFromTo(actions: seq<Action>, m: nat, i: nat, j: JobId)
    requires m < i < |actions|
  {
    && j in At(actions, m).db.jobs
    && (At(actions, m).db.jobs[j].status == Scoring || At(actions, m).db.jobs[j].status == GeneratingVariants)
    && forall k :: m < k <= i ==> j in At(actions, k).db.jobs && At(actions, k).db.jobs[j].status == WaitingAI
  }

  lemma {:induction false} ParkedKeepsRequest(actions: seq<Action>, m: nat, k: nat, i: nat, j: JobId)
    requires m <= k <= i && m < i < |actions| && ParkedFromTo(actions, m, i, j)
    ensures j in At(actions, m).db.jobs && j in At(actions, k).db.jobs
    ensures At(actions, k).db.jobs[j].requestedVariants == At(actions, m).db.jobs[j].requestedVariants
    decreases k
  {
    hide At, Hist, Inv, Kept, Step, RowStep;
    if m < k {
      ParkedKeepsRequest(actions, m, k - 1, i, j);
      AtNext(actions, k - 1);
      StepTaken(At(actions, k - 1), actions[k - 1], j);
      RequestStays(At(actions, k - 1), actions[k - 1], j);
    }
  }

  /**
   The retry that takes a job out of WAITING_AI resumes the stage in which the job was parked, if
   and only if the stage picked at the listing is the one the row names at the claim, provided no
   retry of the job was misdirected before.
   */
  lemma RetryResumesIff(actions: seq<Action>, m: nat, i: nat, j: JobId)
    requires m < i < |actions| && ParkedFromTo(actions, m, i, j) && WinsRetry(At(actions, i), actions[i], j)
    requires forall k :: 0 <= k < m ==> !MisdirectedAt(actions, k, j)
    ensures j in At(actions, i + 1).db.jobs && j in At(actions, m).db.jobs
    ensures At(actions, i + 1).db.jobs[j].status == QueueOf(At(actions, m).db.jobs[j].status)
       <==> !MisdirectedAt(actions, i, j)
  {
    hide At, Inv, Kept, Step, Hist, PhaseOf, ClaimStatus;
    AtNext(actions, m);
    AtNext(actions, i);
    ParkedKeepsRequest(actions, m, i, i, j);
    ScoredAgainIffMisdirected(actions, m, j);
    assert !ScoredAgain(At(actions, m), j);
    PhaseAndRequest(At(actions, m), j);
    WonRetry(At(actions, i), actions[i], j);
    if MisdirectedAt(actions, i, j) { MisdirectedIsBack(At(actions, i), actions[i], j); }
  }

  // ---- a run ----

  /** Parked from scoring; retry pass 3 has picked scoring and has not claimed the job yet. */
  lemma PickedScoring() returns (actions: seq<Action>, r: Job)
    ensures var s := After(actions);
            && View(s, r, 4) && r.status == WaitingAI && r.requestedVariants == 0 && r.retries == 1
            && r.nextRetryAt <= s.db.now && 3 in s.procs && s.procs[3] == Proc(0, RetryListed(ScoringQueued))
  {
    hide Step, View;
    r := FRESH_JOB.(status := ScoringQueued);
    AfterTwo([], Ingest(0), Run(0, Proceed));
    Born(START);
    actions := [] + [Ingest(0)] + [Run(0, Proceed)];
    ScorePair(After(actions), r, 1);
    actions := Pair(actions, ScoreListed);
    r := Moved(r, Scoring, 0);
    ParkPair(After(actions), r, 2);
    actions := Pair(actions, StaleListed(Scoring));
    r := Parked(r, 0, "recovered stale worker lease");
    AfterOne(actions, Tick(MINUTE));
    TickView(After(actions), r, 3, MINUTE);
    actions := actions + [Tick(MINUTE)];
    AfterOne(actions, List(Proc(0, RetryListed(ScoringQueued))));
    PicksScoring(After(actions), r);
    actions := actions + [List(Proc(0, RetryListed(ScoringQueued)))];
  }

  lemma Pair(before: seq<Action>, pc: PC) returns (actions: seq<Action>)
    ensures After(actions) == ListRun(After(before), pc)
    ensures |before| <= |actions| && actions[..|before|] == before
  {
    hide Step;
    var list, run := List(Proc(0, pc)), Run(After(before).nextPid, Proceed);
    AfterTwo(before, list, run);
    actions := before + [list] + [run];
  }

  lemma PicksScoring(s: Sys, r: Job)
    requires View(s, r, 3) && r.status == WaitingAI && r.requestedVariants == 0 && r.nextRetryAt <= s.db.now
    ensures var s' := Step(s, List(Proc(0, RetryListed(ScoringQueued))));
            View(s', r, 4) && s'.db == s.db && 3 in s'.procs && s'.procs[3] == Proc(0, RetryListed(ScoringQueued))
  {
  }

  /** Another pass retries the job, it is scored and offered, and its variants are requested. */
  lemma RequestedMeanwhile(before: seq<Action>, r0: Job) returns (actions: seq<Action>, r: Job)
    requires var s := After(before);
             && View(s, r0, 4) && r0.status == WaitingAI && r0.requestedVariants == 0 && r0.retries == 1
             && r0.nextRetryAt <= s.db.now && 3 in s.procs && s.procs[3] == Proc(0, RetryListed(ScoringQueued))
    ensures var s := After(actions);
            && View(s, r, 7) && r.status == VariantsQueued && r.requestedVariants == 1 && r.retries == 0
            && r.nextRetryAt <= s.db.now && 3 in s.procs && s.procs[3] == Proc(0, RetryListed(ScoringQueued))
  {
    hide Step, View, ListRun;
    var now := After(before).db.now;
    RetryPair(After(before), r0, 4);
    actions := Pair(before, RetryListed(ScoringQueued));
    r := Moved(r0, ScoringQueued, now);
    ScorePair(After(actions), r, 5);
    actions := Pair(actions, ScoreListed);
    r := Moved(r, Scoring, now);
    ScoredTwice(After(actions), r, 6, 5);
    AfterTwo(actions, Run(5, SCORED), Run(5, Proceed));
    actions := actions + [Run(5, SCORED)] + [Run(5, Proceed)];
    r := Moved(Staged(r, SCORE, now), WaitingFirstApproval, now);
    OperatorGenerates(After(actions), r, 6);
    AfterTwo(actions, Request(Proc(0, GenerateCommit(1))), Run(6, Proceed));
    actions := actions + [Request(Proc(0, GenerateCommit(1)))] + [Run(6, Proceed)];
    r := Moved(r, VariantsQueued, now).(requestedVariants := 1, selected := None);
  }

  lemma ClaimsStale(s: Sys, r: Job, n: Pid)
    requires View(s, r, n) && r.status == WaitingAI && r.requestedVariants == 1
    requires 3 in s.procs && s.procs[3] == Proc(0, RetryListed(ScoringQueued))
    ensures Misdirected(s, Run(3, Proceed), 0)
  {
  }

  /** A retry pass that listed the job before its variants were requested sends it back to scoring. */
  lemma MisdirectedHappens()
    ensures exists actions: seq<Action>, i :: 0 <= i < |actions| && MisdirectedAt(actions, i, 0)
  {
    hide Step, View, After, ListRun, Misdirected;
    var actions, r := PickedScoring();
    actions, r := RequestedMeanwhile(actions, r);
    GenPair(After(actions), r, 7);
    r := Moved(r, GeneratingVariants, After(actions).db.now);
    actions := Pair(actions, GenListed);
    ParkPair(After(actions), r, 8);
    ParkedWaitsBriefly(r, After(actions).db.now);
    r := Parked(r, After(actions).db.now, "recovered stale worker lease");
    actions := Pair(actions, StaleListed(GeneratingVariants));
    ClaimsStale(After(actions), r, 9);
    var longer, i := actions + [Run(3, Proceed)], |actions|;
    assert longer[..i] == actions && longer[i] == Run(3, Proceed);
    assert At(longer, i) == After(actions);
    assert MisdirectedAt(longer, i, 0);
  }
}
