/**
 A run in which a job exhausts its retries within a minute: eight workers listed it while it
 was queued and seven retry passes while it waited, and each claims it as soon as it can. So the
 hypothesis of ExhaustionTakesAnHour, that queued jobs are taken when due, is needed.
 */
module EarlyExhaustion {
  import opened Wrappers
  import opened JobStatus
  import opened PostTables
  import opened Pipeline
  import opened WitnessRuns

  /** The n processes from pid first on stand at pc, for job 0. */
  ghost predicate Crowd(s: Sys, first: Pid, n: nat, pc: PC) {
    forall p :: first <= p < first + n ==> p in s.procs && s.procs[p] == Proc(0, pc)
  }

  lemma {:induction false} ListMany(before: seq<Action>, pc: PC, n: nat) returns (actions: seq<Action>)
    requires CanList(After(before).db, Proc(0, pc))
    ensures var s, s' := After(before), After(actions);
            && s'.db == s.db && s'.hist == s.hist && s'.nextPid == s.nextPid + n
            && (forall p :: p in s.procs && p < s.nextPid ==> p in s'.procs && s'.procs[p] == s.procs[p])
            && Crowd(s', s.nextPid, n, pc)
  {
    hide CanList, Step, After;
    actions := before;
    if n > 0 {
      actions := ListMany(before, pc, n - 1);
      ListsOne(After(actions), pc);
      AfterOne(actions, List(Proc(0, pc)));
      actions := actions + [List(Proc(0, pc))];
    }
  }

  lemma ListsOne(s: Sys, pc: PC)
    requires CanList(s.db, Proc(0, pc))
    ensures Step(s, List(Proc(0, pc))) == Spawn(s, Proc(0, pc))
  {
    hide CanList;
  }

  /** Parked k times, now a minute after the first park, with the rest of both crowds still waiting. */
  ghost predicate Waiting(s: Sys, k: nat) {
    && 1 <= k <= 7 && 0 in s.db.jobs && s.db.jobs[0].status == WaitingAI && s.db.jobs[0].retries == k
    && s.db.now == MINUTE && Hist(s, 0).firstPark == Some(0) && s.nextPid == 16
    && Crowd(s, k + 1, 8 - k, ScoreListed) && Crowd(s, 8 + k, 8 - k, RetryListed(ScoringQueued))
  }

  /** The next retry pass queues the job, the next worker claims it. */
  lemma Reclaimed(s: Sys, k: nat)
    requires Waiting(s, k)
    ensures var s' := Step(Step(s, Run(8 + k, Proceed)), Run(k + 1, Proceed));
            && 0 in s'.db.jobs && s'.db.jobs[0].status == Scoring && s'.db.jobs[0].retries == k
            && s'.db.now == MINUTE && Hist(s', 0).firstPark == Some(0) && s'.nextPid == 16
            && s'.procs == s.procs[k + 1 := Proc(0, ScoreClaimed)] - {8 + k}
  {
    var s1 := Step(s, Run(8 + k, Proceed));
    assert s1.procs == s.procs - {8 + k};
  }

  lemma Reparked(s: Sys, k: nat, p: Pid)
    requires 0 in s.db.jobs && s.db.jobs[0].status == Scoring && s.db.jobs[0].retries == k >= 1
    requires p in s.procs && s.procs[p] == Proc(0, ScoreClaimed)
    ensures var s' := Step(s, Run(p, AiFailed));
            && 0 in s'.db.jobs && s'.db.jobs[0] == Parked(s.db.jobs[0], s.db.now, "scoring: all AI providers failed")
            && s'.db.now == s.db.now && Hist(s', 0).firstPark == Hist(s, 0).firstPark
            && s'.nextPid == s.nextPid && s'.procs == s.procs - {p}
  {
    hide Parked;
  }

  lemma Round(before: seq<Action>, k: nat) returns (actions: seq<Action>)
    requires Waiting(After(before), k)
    ensures var s := After(actions);
            if k < 7 then Waiting(s, k + 1)
            else
              && 0 in s.db.jobs && s.db.jobs[0].status == Failed && s.db.jobs[0].retries == 8
              && s.db.jobs[0].updatedAt == MINUTE && Hist(s, 0).firstPark == Some(0)
  {
    hide Step, Hist, RetryDelay;
    var s := After(before);
    Reclaimed(s, k);
    AfterTwo(before, Run(8 + k, Proceed), Run(k + 1, Proceed));
    actions := before + [Run(8 + k, Proceed)] + [Run(k + 1, Proceed)];
    Reparked(After(actions), k, k + 1);
    AfterOne(actions, Run(k + 1, AiFailed));
    actions := actions + [Run(k + 1, AiFailed)];
  }

  lemma {:induction false} Rounds(before: seq<Action>, k: nat) returns (actions: seq<Action>)
    requires Waiting(After(before), k)
    ensures var s := After(actions);
            && 0 in s.db.jobs && s.db.jobs[0].status == Failed && s.db.jobs[0].retries == MAX_AI_RETRIES
            && s.db.jobs[0].updatedAt == MINUTE && Hist(s, 0).firstPark == Some(0)
    decreases 7 - k
  {
    assert 1 <= k <= 7;
    hide After, Waiting;
    actions := Round(before, k);
    if k < 7 { actions := Rounds(actions, k + 1); }
  }

  lemma FirstPark(s: Sys)
    requires 0 in s.db.jobs && s.db.jobs[0] == FRESH_JOB.(status := ScoringQueued) && s.db.now == 0
    requires s.nextPid == 9 && Crowd(s, 1, 8, ScoreListed)
    ensures var s' := Step(Step(Step(s, Run(1, Proceed)), Run(1, AiFailed)), Tick(MINUTE));
            && 0 in s'.db.jobs && s'.db.jobs[0].status == WaitingAI && s'.db.jobs[0].retries == 1
            && s'.db.jobs[0].requestedVariants == 0 && s'.db.jobs[0].nextRetryAt == MINUTE == s'.db.now
            && Hist(s', 0).firstPark == Some(0) && s'.nextPid == 9 && Crowd(s', 2, 7, ScoreListed)
  {
    var s1 := Step(s, Run(1, Proceed));
    assert s1.procs == s.procs[1 := Proc(0, ScoreClaimed)];
    var s2 := Step(s1, Run(1, AiFailed));
    assert s2.procs == s.procs - {1} && 0 in s2.db.jobs && s2.db.jobs[0].status == WaitingAI;
  }

  lemma AllWaiting() returns (actions: seq<Action>)
    ensures Waiting(After(actions), 1)
  {
    hide Step;
    actions := [];
    AfterTwo(actions, Ingest(0), Run(0, Proceed));
    Born(After(actions));
    actions := actions + [Ingest(0)] + [Run(0, Proceed)];
    actions := ListMany(actions, ScoreListed, 8);
    FirstPark(After(actions));
    AfterTwo(actions, Run(1, Proceed), Run(1, AiFailed));
    actions := actions + [Run(1, Proceed)] + [Run(1, AiFailed)];
    AfterOne(actions, Tick(MINUTE));
    actions := actions + [Tick(MINUTE)];
    actions := ListMany(actions, RetryListed(ScoringQueued), 7);
  }

  /** A job fails by exhausting its retries one minute after its first park. */
  lemma ExhaustedInAMinuteHappens()
    ensures exists actions: seq<Action> ::
              var s := After(actions);
              && 0 in s.db.jobs && s.db.jobs[0].status == Failed && s.db.jobs[0].retries == MAX_AI_RETRIES
              && Hist(s, 0).firstPark == Some(0) && s.db.jobs[0].updatedAt == MINUTE
  {
    hide After, Waiting, Hist;
    var actions := AllWaiting();
    actions := Rounds(actions, 1);
  }
}
