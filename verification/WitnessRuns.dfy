/**
 Two runs that show the limits of the code. In one, a recovered generation worker clears
 the selection of a job that is past review. In the other, a job changes status 26 times
 without any operator request, so the bound of StatusChangesAreBounded is exact.
 */
module WitnessRuns {
  import opened Wrappers
  import opened JobStatus
  import opened PostTables
  import opened Pipeline
  import opened PipelineRuns
  import opened RetryBudget
  import opened SelectionGate

  /** Job 0 has row r, and processes are numbered below n. */
  ghost predicate View(s: Sys, r: Job, n: Pid) {
    && 0 in s.db.jobs && s.db.jobs[0] == r
    && s.nextPid == n
    && forall p :: p in s.procs ==> p < n
  }

  /** Everything a pair of actions on job 0 leaves alone. */
  ghost predicate Beside(s: Sys, s': Sys) {
    && s'.db.now == s.db.now && s'.db.variants == s.db.variants && s'.db.nextVariant == s.db.nextVariant
    && s'.db.logs == s.db.logs
    && forall p :: p in s.procs ==> p in s'.procs && s'.procs[p] == s.procs[p]
  }

  /** A pass lists the job and runs its next statement. */
  function ListRun(s: Sys, pc: PC): Sys {
    Step(Step(s, List(Proc(0, pc))), Run(s.nextPid, Proceed))
  }

  lemma ParkPair(s: Sys, r: Job, n: Pid)
    requires View(s, r, n) && (r.status == Scoring || r.status == GeneratingVariants)
    ensures var s' := ListRun(s, StaleListed(r.status));
            View(s', Parked(r, s.db.now, "recovered stale worker lease"), n + 1) && Beside(s, s')
  {
    hide Parked;
  }

  lemma RetryPair(s: Sys, r: Job, n: Pid)
    requires View(s, r, n) && r.status == WaitingAI && r.nextRetryAt <= s.db.now
    ensures var to := RetryStage(r);
            var s' := ListRun(s, RetryListed(to));
            View(s', Moved(r, to, s.db.now), n + 1) && Beside(s, s')
  {
  }

  lemma ScorePair(s: Sys, r: Job, n: Pid)
    requires View(s, r, n) && r.status == ScoringQueued && r.nextRetryAt <= s.db.now
    ensures var s' := ListRun(s, ScoreListed);
            && View(s', Moved(r, Scoring, s.db.now), n + 1) && Beside(s, s')
            && n in s'.procs && s'.procs[n] == Proc(0, ScoreClaimed)
  {
  }

  lemma GenPair(s: Sys, r: Job, n: Pid)
    requires View(s, r, n) && r.status == VariantsQueued && r.nextRetryAt <= s.db.now
    ensures var s' := ListRun(s, GenListed);
            && View(s', Moved(r, GeneratingVariants, s.db.now), n + 1) && Beside(s, s')
            && n in s'.procs && s'.procs[n] == Proc(0, GenClaimed)
  {
  }

  lemma Born(s: Sys)
    requires s == START
    ensures var s' := Step(Step(s, Ingest(0)), Run(0, Proceed));
            && View(s', FRESH_JOB.(status := ScoringQueued), 1)
            && s'.db.now == 0 && s'.db.variants == map[] && s'.db.nextVariant == 1 && s'.db.logs == []
  {
  }

  const SCORED := AiScored(true, "tgpt", "gpt")
  const SCORE := ScoreUpdate(Scored, "tgpt", "gpt", "")

  lemma ScoredTwice(s: Sys, r: Job, n: Pid, p: Pid)
    requires View(s, r, n) && r.status == Scoring && p in s.procs && s.procs[p] == Proc(0, ScoreClaimed)
    ensures var s1 := Step(s, Run(p, SCORED));
            var s2 := Step(s1, Run(p, Proceed));
            && View(s1, Staged(r, SCORE, s.db.now), n)
            && View(s2, Moved(Staged(r, SCORE, s.db.now), WaitingFirstApproval, s.db.now), n)
            && s2.db.now == s.db.now && s2.db.variants == s.db.variants && s2.db.nextVariant == s.db.nextVariant
            && s2.db.logs == s.db.logs
            && forall q :: q in s.procs && q != p ==> q in s2.procs && s2.procs[q] == s.procs[q]
  {
  }

  // ---- a late replacement ----

  lemma OperatorGenerates(s: Sys, r: Job, n: Pid)
    requires View(s, r, n) && r.status == WaitingFirstApproval
    ensures var s' := Step(Step(s, Request(Proc(0, GenerateCommit(1)))), Run(n, Proceed));
            && View(s', Moved(r, VariantsQueued, s.db.now).(requestedVariants := 1, selected := None), n + 1)
            && Beside(s, s')
  {
  }

  const ONE := [NewVariant(1, "", "a")]

  /** The worker's variants are stored under the next id and offered for approval. */
  lemma GeneratedAndOffered(s: Sys, r: Job, n: Pid, p: Pid)
    requires View(s, r, n) && r.status == GeneratingVariants && p in s.procs && s.procs[p] == Proc(0, GenClaimed)
    requires s.db.variants == map[] && s.db.nextVariant == 1
    ensures var s' := Step(Step(s, Run(p, AiVariants(ONE))), Run(p, Proceed));
            && 0 in s'.db.jobs && s'.db.jobs[0].status == WaitingVariantApproval
            && s'.nextPid == n && OwnsVariant(s'.db, 0, 1)
            && s'.db.variants[1] == Inserted(0, ONE[0]) && s'.db.logs == s.db.logs && s'.db.now == s.db.now
            && s'.db.jobs[0].nextRetryAt == s.db.now
            && (forall q :: q in s'.procs ==> q < n)
            && forall q :: q in s.procs && q != p ==> q in s'.procs && s'.procs[q] == s.procs[q]
  {
    StoresOne(s.db);
    hide ReplaceVariants;
    var s1 := Step(s, Run(p, AiVariants(ONE)));
    assert s1.procs[p] == Proc(0, GenSaved);
  }

  lemma StoresOne(db: Tables)
    requires 0 in db.jobs && db.variants == map[] && db.nextVariant == 1
    ensures var e := ReplaceVariants(db, 0, ONE);
            && e.outcome == Committed && OwnsVariant(e.db, 0, 1)
            && 0 in e.db.jobs && e.db.jobs[0].status == db.jobs[0].status
            && e.db.variants[1] == Inserted(0, ONE[0]) && e.db.logs == db.logs && e.db.now == db.now
  {
    InsertAllAt(map[], 1, 0, ONE);
    assert InsertAll(map[], 1, 0, ONE)[1] == Inserted(0, ONE[0]);
    assert WithoutJob(db.variants, 0) == map[];
    hide InsertAll, WithoutJob;
  }

  lemma OperatorReads(s: Sys, n: Pid)
    requires 0 in s.db.jobs && s.db.jobs[0].status == WaitingVariantApproval && s.nextPid == n
             && OwnsVariant(s.db, 0, 1)
    ensures var s1 := Step(s, Request(Proc(0, SelectStart(1, Finish))));
            var s2 := Step(Step(s1, Run(n, Proceed)), Run(n, Proceed));
            s2.db == s.db && s2.procs == s.procs[n := Proc(0, SelectCommit(1, false, Finish))] && s2.nextPid == n + 1
  {
    var s1 := Step(s, Request(Proc(0, SelectStart(1, Finish))));
    assert s1.procs[n] == Proc(0, SelectStart(1, Finish));
    assert Step(s1, Run(n, Proceed)).procs[n] == Proc(0, SelectRead(1, Finish));
  }

  lemma OperatorSelects(s: Sys, n: Pid)
    requires 0 in s.db.jobs && s.db.jobs[0].status == WaitingVariantApproval && OwnsVariant(s.db, 0, 1)
    requires n in s.procs && s.procs[n] == Proc(0, SelectCommit(1, false, Finish))
    ensures var s' := Step(s, Run(n, Proceed));
            && 0 in s'.db.jobs && s'.db.jobs[0] == Moved(s.db.jobs[0], ReadyToPublish, s.db.now).(selected := Some(1))
            && s'.db == s.db.(jobs := s'.db.jobs) && s'.nextPid == s.nextPid
            && s'.procs == s.procs[n := Proc(0, PreviewStart(0, Finish))]
  {
  }

  lemma AfterOne(actions: seq<Action>, a: Action)
    ensures After(actions + [a]) == Step(After(actions), a)
  {
    assert (actions + [a])[..|actions|] == actions;
  }

  lemma AfterTwo(actions: seq<Action>, a: Action, b: Action)
    ensures After(actions + [a] + [b]) == Step(Step(After(actions), a), b)
  {
    hide Step;
    AfterOne(actions, a);
    AfterOne(actions + [a], b);
  }

  lemma TickView(s: Sys, r: Job, n: Pid, seconds: Time)
    requires View(s, r, n)
    ensures var s' := Step(s, Tick(seconds));
            View(s', r, n) && s'.procs == s.procs && s'.db == s.db.(now := s.db.now + seconds)
  {
  }

  /** Worker 3 claimed generation, was taken for stale, and the job is queued for generation again. */
  lemma RecoveredGeneration() returns (actions: seq<Action>, r: Job)
    ensures var s := After(actions);
            && View(s, r, 6) && r.status == VariantsQueued && r.nextRetryAt <= s.db.now
            && 3 in s.procs && s.procs[3] == Proc(0, GenClaimed)
            && s.db.variants == map[] && s.db.nextVariant == 1
  {
    hide Step, View, Beside, ListRun;
    actions := [];
    r := FRESH_JOB.(status := ScoringQueued);
    AfterTwo(actions, Ingest(0), Run(0, Proceed));
    Born(After(actions));
    actions := actions + [Ingest(0)] + [Run(0, Proceed)];
    actions, r := Scored1(actions, r);
    actions, r := Generated3(actions, r);
  }

  lemma Scored1(before: seq<Action>, r: Job) returns (actions: seq<Action>, r': Job)
    requires var s := After(before);
             && View(s, r, 1) && r == FRESH_JOB.(status := ScoringQueued)
             && s.db.now == 0 && s.db.variants == map[] && s.db.nextVariant == 1 && s.db.logs == []
    ensures var s := After(actions);
            && s.db.logs == []
            && View(s, r', 3) && r'.status == VariantsQueued && r'.requestedVariants == 1 && r'.retries == 0
                  && r'.nextRetryAt == 0
            && s.db.now == 0 && s.db.variants == map[] && s.db.nextVariant == 1
  {
    hide Step, View;
    actions, r' := before, Moved(r, Scoring, 0);
    AfterTwo(actions, List(Proc(0, ScoreListed)), Run(After(actions).nextPid, Proceed));
    ScorePair(After(actions), r, 1);
    actions := actions + [List(Proc(0, ScoreListed))] + [Run(After(actions).nextPid, Proceed)];
    AfterTwo(actions, Run(1, SCORED), Run(1, Proceed));
    ScoredTwice(After(actions), r', 2, 1);
    actions := actions + [Run(1, SCORED)] + [Run(1, Proceed)];
    r' := Moved(Staged(r', SCORE, 0), WaitingFirstApproval, 0);
    AfterTwo(actions, Request(Proc(0, GenerateCommit(1))), Run(2, Proceed));
    OperatorGenerates(After(actions), r', 2);
    actions := actions + [Request(Proc(0, GenerateCommit(1)))] + [Run(2, Proceed)];
    r' := Moved(r', VariantsQueued, 0).(requestedVariants := 1, selected := None);
  }

  lemma Generated3(before: seq<Action>, r: Job) returns (actions: seq<Action>, r': Job)
    requires var s := After(before);
             && View(s, r, 3) && r.status == VariantsQueued && r.requestedVariants == 1 && r.retries == 0
                   && r.nextRetryAt == 0
             && s.db.now == 0 && s.db.variants == map[] && s.db.nextVariant == 1
    ensures var s := After(actions);
            && View(s, r', 6) && r'.status == VariantsQueued && r'.nextRetryAt <= s.db.now
            && 3 in s.procs && s.procs[3] == Proc(0, GenClaimed)
            && s.db.variants == map[] && s.db.nextVariant == 1
  {
    hide Step, View;
    actions, r' := before, Moved(r, GeneratingVariants, 0);
    AfterTwo(actions, List(Proc(0, GenListed)), Run(After(actions).nextPid, Proceed));
    GenPair(After(actions), r, 3);
    actions := actions + [List(Proc(0, GenListed))] + [Run(After(actions).nextPid, Proceed)];
    AfterTwo(actions, List(Proc(0, StaleListed(GeneratingVariants))), Run(After(actions).nextPid, Proceed));
    ParkPair(After(actions), r', 4);
    actions := actions + [List(Proc(0, StaleListed(GeneratingVariants)))] + [Run(After(actions).nextPid, Proceed)];
    r' := Parked(r', 0, "recovered stale worker lease");
    AfterOne(actions, Tick(MINUTE));
    TickView(After(actions), r', 5, MINUTE);
    actions := actions + [Tick(MINUTE)];
    AfterTwo(actions, List(Proc(0, RetryListed(VariantsQueued))), Run(After(actions).nextPid, Proceed));
    RetryPair(After(actions), r', 5);
    actions := actions + [List(Proc(0, RetryListed(VariantsQueued)))] + [Run(After(actions).nextPid, Proceed)];
    r' := Moved(r', VariantsQueued, MINUTE);
  }

  /**
   The hypothesis of SelectionHeldIffNoLateReplace is needed: a run exists in which worker 3,
   whose job was recovered and generated again, replaces the variants of a reviewed job.
   */
  lemma LateReplaceHappens()
    ensures exists actions: seq<Action>, i :: 0 <= i < |actions| && LateReplace(At(actions, i), actions[i], 0)
  {
    hide Step, View;
    var actions, r := RecoveredGeneration();
    AfterTwo(actions, List(Proc(0, GenListed)), Run(After(actions).nextPid, Proceed));
    GenPair(After(actions), r, 6);
    actions := actions + [List(Proc(0, GenListed))] + [Run(After(actions).nextPid, Proceed)];
    AfterTwo(actions, Run(6, AiVariants(ONE)), Run(6, Proceed));
    GeneratedAndOffered(After(actions), Moved(r, GeneratingVariants, After(actions).db.now), 7, 6);
    actions := actions + [Run(6, AiVariants(ONE))] + [Run(6, Proceed)];
    actions := Reviewed3(actions);
    var last := Run(3, AiVariants(ONE));
    assert (actions + [last])[..|actions|] == actions;
    assert LateReplace(At(actions + [last], |actions|), last, 0);
  }

  lemma Reviewed3(before: seq<Action>) returns (actions: seq<Action>)
    requires var s := After(before);
             && 0 in s.db.jobs && s.db.jobs[0].status == WaitingVariantApproval && OwnsVariant(s.db, 0, 1)
             && s.nextPid == 7 && 3 in s.procs && s.procs[3] == Proc(0, GenClaimed)
    ensures var s := After(actions);
            && 0 in s.db.jobs && s.db.jobs[0].status == ReadyToPublish
            && 3 in s.procs && s.procs[3] == Proc(0, GenClaimed)
  {
    hide Step;
    var ask := Request(Proc(0, SelectStart(1, Finish)));
    AfterOne(before, ask);
    AfterTwo(before + [ask], Run(7, Proceed), Run(7, Proceed));
    OperatorReads(After(before), 7);
    actions := before + [ask] + [Run(7, Proceed)] + [Run(7, Proceed)];
    AfterOne(actions, Run(7, Proceed));
    OperatorSelects(After(actions), 7);
    actions := actions + [Run(7, Proceed)];
  }

  // ---- twenty-six status changes ----

  /** A run without operator requests in which job 0, created by its first action, has changed status c times. */
  ghost predicate Unattended(actions: seq<Action>, c: nat) {
    && (forall m :: 0 <= m < |actions| ==> !actions[m].Request?)
    && 1 <= |actions| && 0 in At(actions, 1).db.jobs
    && Changes(actions, 1, |actions|, 0) == c
  }

  lemma {:induction false} ChangesOfPrefix(actions: seq<Action>, a: Action, k: nat)
    requires 1 <= k <= |actions|
    ensures Changes(actions + [a], 1, k, 0) == Changes(actions, 1, k, 0)
  {
    assert (actions + [a])[..k] == actions[..k];
    if k > 1 {
      ChangesOfPrefix(actions, a, k - 1);
      assert (actions + [a])[..k - 1] == actions[..k - 1];
    }
  }

  lemma OneMore(actions: seq<Action>, c: nat, a: Action)
    requires Unattended(actions, c) && !a.Request?
    ensures After(actions + [a]) == Step(After(actions), a)
    ensures Unattended(actions + [a], c + if ChangesStatus(After(actions), Step(After(actions), a), 0) then 1 else 0)
  {
    hide Step, ChangesStatus;
    var longer := actions + [a];
    AfterOne(actions, a);
    ChangesOfPrefix(actions, a, |actions|);
    assert longer[..1] == actions[..1] && longer[..|actions|] == actions && longer[..|longer|] == longer;
    forall m | 0 <= m < |longer|
      ensures !longer[m].Request?
    {
      if m < |actions| { assert longer[m] == actions[m]; }
    }
  }

  /** Two more actions of which the first leaves the status alone. */
  lemma TwoMore(actions: seq<Action>, c: nat, a: Action, b: Action, r: Job, r': Job)
    requires Unattended(actions, c) && !a.Request? && !b.Request?
    requires var s := After(actions);
             var s1, s2 := Step(s, a), Step(Step(s, a), b);
             && 0 in s.db.jobs && 0 in s1.db.jobs && 0 in s2.db.jobs
             && s.db.jobs[0] == r && s1.db.jobs[0] == r && s2.db.jobs[0] == r' && r.status != r'.status
    ensures After(actions + [a] + [b]) == Step(Step(After(actions), a), b)
    ensures Unattended(actions + [a] + [b], c + 1)
  {
    hide Step, Unattended;
    OneMore(actions, c, a);
    OneMore(actions + [a], c, b);
  }

  lemma ListLeavesJobs(s: Sys, p: Proc)
    ensures Step(s, List(p)).db == s.db
  {
    hide CanList;
  }

  /** Worker 1 still means to fail the job for a missing context; the newest worker has just claimed scoring. */
  ghost predicate Stalled(s: Sys, r: Job, n: Pid) {
    && View(s, r, n) && n >= 2 && r.status == Scoring && r.requestedVariants == 0
    && 1 in s.procs && s.procs[1] == Proc(0, ContextMissing("x"))
  }

  lemma StallWorker(s: Sys, r: Job)
    requires View(s, r, 2) && r.status == Scoring && r.requestedVariants == 0
    requires 1 in s.procs && s.procs[1] == Proc(0, ScoreClaimed)
    ensures Stalled(Step(s, Run(1, LoadError("x"))), r, 2)
  {
  }

  /** One list-and-run pair that moves the status of job 0 from r to r'. */
  lemma PairMore(actions: seq<Action>, c: nat, pc: PC, r: Job, r': Job, n: Pid)
    requires Unattended(actions, c) && View(After(actions), r, n)
    requires View(ListRun(After(actions), pc), r', n + 1) && r.status != r'.status
    ensures var longer := actions + [List(Proc(0, pc))] + [Run(n, Proceed)];
            After(longer) == ListRun(After(actions), pc) && Unattended(longer, c + 1)
  {
    hide Step, Unattended;
    ListLeavesJobs(After(actions), Proc(0, pc));
    TwoMore(actions, c, List(Proc(0, pc)), Run(n, Proceed), r, r');
  }

  lemma Opening() returns (actions: seq<Action>, r: Job)
    ensures Unattended(actions, 2) && Stalled(After(actions), r, 2) && r.retries == 0
  {
    actions := [Ingest(0)];
    AfterOne([], Ingest(0));
    assert actions == [] + [Ingest(0)] && actions[..1] == actions;
    Born(START);
    assert Unattended(actions, 0);
    r := FRESH_JOB.(status := ScoringQueued);
    hide Step, Unattended, Stalled, ListRun, View;
    BornIsNew();
    OneMore(actions, 0, Run(0, Proceed));
    actions := actions + [Run(0, Proceed)];
    ScorePair(After(actions), r, 1);
    PairMore(actions, 1, ScoreListed, r, Moved(r, Scoring, 0), 1);
    actions := actions + [List(Proc(0, ScoreListed))] + [Run(1, Proceed)];
    r := Moved(r, Scoring, 0);
    StallWorker(After(actions), r);
    StallIsNoChange(After(actions), r);
    OneMore(actions, 2, Run(1, LoadError("x")));
    actions := actions + [Run(1, LoadError("x"))];
  }

  lemma BornIsNew()
    ensures ChangesStatus(Step(START, Ingest(0)), Step(Step(START, Ingest(0)), Run(0, Proceed)), 0)
  {
  }

  lemma StallIsNoChange(s: Sys, r: Job)
    requires View(s, r, 2) && Stalled(Step(s, Run(1, LoadError("x"))), r, 2)
    ensures !ChangesStatus(s, Step(s, Run(1, LoadError("x"))), 0)
  {
    hide Step;
  }

  lemma ParkedWaitsBriefly(r: Job, now: Time)
    requires r.retries + 1 < MAX_AI_RETRIES
    ensures var r' := Parked(r, now, "recovered stale worker lease");
            r' == r.(status := WaitingAI, aiError := r'.aiError, retries := r.retries + 1,
                     nextRetryAt := r'.nextRetryAt, updatedAt := now)
            && r'.nextRetryAt <= now + 16 * MINUTE
  {
  }

  /** Recovery parks the job, the retry pass queues it and a new worker claims it: three changes, one more retry. */
  lemma Cycle(before: seq<Action>, c: nat, r0: Job, n: Pid) returns (actions: seq<Action>, r: Job)
    requires Unattended(before, c) && Stalled(After(before), r0, n) && r0.retries + 1 < MAX_AI_RETRIES
    ensures Unattended(actions, c + 3) && Stalled(After(actions), r, n + 3) && r.retries == r0.retries + 1
    ensures n + 2 in After(actions).procs && After(actions).procs[n + 2] == Proc(0, ScoreClaimed)
  {
    hide Step, Unattended, ListRun, View, Parked;
    actions := before;
    var now := After(actions).db.now;
    r := Parked(r0, now, "recovered stale worker lease");
    ParkedWaitsBriefly(r0, now);
    ParkPair(After(actions), r0, n);
    PairMore(actions, c, StaleListed(Scoring), r0, r, n);
    actions := actions + [List(Proc(0, StaleListed(Scoring)))] + [Run(n, Proceed)];
    TickView(After(actions), r, n + 1, 16 * MINUTE);
    TickIsNoChange(After(actions), 16 * MINUTE);
    OneMore(actions, c + 1, Tick(16 * MINUTE));
    actions := actions + [Tick(16 * MINUTE)];
    now := After(actions).db.now;
    RetryPair(After(actions), r, n + 1);
    PairMore(actions, c + 1, RetryListed(ScoringQueued), r, Moved(r, ScoringQueued, now), n + 1);
    actions := actions + [List(Proc(0, RetryListed(ScoringQueued)))] + [Run(n + 1, Proceed)];
    r := Moved(r, ScoringQueued, now);
    ScorePair(After(actions), r, n + 2);
    PairMore(actions, c + 2, ScoreListed, r, Moved(r, Scoring, now), n + 2);
    actions := actions + [List(Proc(0, ScoreListed))] + [Run(n + 2, Proceed)];
    r := Moved(r, Scoring, now);
  }

  lemma TickIsNoChange(s: Sys, seconds: Time)
    ensures !ChangesStatus(s, Step(s, Tick(seconds)), 0)
  {
  }

  lemma {:induction false} Cycles(k: nat) returns (actions: seq<Action>, r: Job)
    requires k < MAX_AI_RETRIES
    ensures Unattended(actions, 2 + 3 * k) && Stalled(After(actions), r, 2 + 3 * k) && r.retries == k
    ensures k > 0 ==> var p := 3 * k + 1; p in After(actions).procs && After(actions).procs[p] == Proc(0, ScoreClaimed)
  {
    if k == 0 {
      actions, r := Opening();
    } else {
      actions, r := Cycles(k - 1);
      hide Unattended, Stalled, After;
      actions, r := Cycle(actions, 2 + 3 * (k - 1), r, 2 + 3 * (k - 1));
    }
  }

  lemma FailAtGate(s: Sys, r: Job, n: Pid)
    requires View(s, r, n) && r.status == WaitingFirstApproval && 1 in s.procs
             && s.procs[1] == Proc(0, ContextMissing("x"))
    ensures ChangesStatus(s, Step(s, Run(1, Proceed)), 0) && LateFailure(s, Run(1, Proceed), 0)
  {
  }

  /** From the last claim of scoring to the gate, and on to the failure by the stalled worker: three changes. */
  lemma Finale(before: seq<Action>, c: nat, r: Job, n: Pid, p: Pid) returns (actions: seq<Action>)
    requires Unattended(before, c) && Stalled(After(before), r, n)
    requires p != 1 && p in After(before).procs && After(before).procs[p] == Proc(0, ScoreClaimed)
    ensures Unattended(actions, c + 3) && EndsLate(actions)
  {
    hide Step, View, Unattended, LateFailure;
    var s := After(before);
    ScoredTwice(s, r, n, p);
    var r1 := Staged(r, SCORE, s.db.now);
    var r2 := Moved(Staged(r, SCORE, s.db.now), WaitingFirstApproval, s.db.now);
    var s1 := Step(s, Run(p, SCORED));
    var s2 := Step(s1, Run(p, Proceed));
    hide Moved;
    OneMore(before, c, Run(p, SCORED));
    ViewChange(s, s1, r, r1, n);
    actions := before + [Run(p, SCORED)];
    OneMore(actions, c + 1, Run(p, Proceed));
    ViewChange(s1, s2, r1, r2, n);
    actions := actions + [Run(p, Proceed)];
    OneMore(actions, c + 2, Run(1, Proceed));
    FailAtGate(s2, r2, n);
    assert (actions + [Run(1, Proceed)])[..|actions|] == actions;
    actions := actions + [Run(1, Proceed)];
  }

  /** The last action is a late failure. */
  ghost predicate EndsLate(actions: seq<Action>) {
    actions != [] && LateFailure(At(actions, |actions| - 1), actions[|actions| - 1], 0)
  }

  /**
   The bound of StatusChangesAreBounded is reached: a run without any operator request in which
   a job changes status 26 times. The last change is a late failure: the MarkFailed of a worker
   that lost its claim seven recoveries ago, of a job that is waiting for its first approval.
   */
  lemma TwentySixChangesHappen()
    ensures exists actions: seq<Action> ::
              && (forall m :: 0 <= m < |actions| ==> !actions[m].Request?)
              && 1 <= |actions| && 0 in At(actions, 1).db.jobs
              && Changes(actions, 1, |actions|, 0) == 26
              && !NoLateFailure(actions, 1, |actions|, 0)
  {
    hide Step, View, After, Changes, At, Stalled, LateFailure;
    var actions, r := Cycles(7);
    actions := Finale(actions, 23, r, 23, 22);
    LateIsCounted(actions);
  }

  lemma LateIsCounted(actions: seq<Action>)
    requires EndsLate(actions) && Unattended(actions, 26)
    ensures !NoLateFailure(actions, 1, |actions|, 0)
  {
    hide LateFailure, At, ChangesStatus;
    assert Changes(actions, 1, 1, 0) == 0;
  }

  lemma ViewChange(s: Sys, s': Sys, r: Job, r': Job, n: Pid)
    requires View(s, r, n) && View(s', r', n) && r.status != r'.status
    ensures ChangesStatus(s, s', 0)
  {
  }
}
