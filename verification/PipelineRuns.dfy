/**
 From single actions to whole runs. Everything here holds for every sequence of
 actions, so for every interleaving and every crash.
 */
module PipelineRuns {
  import opened Wrappers
  import opened JobStatus
  import opened PostTables
  import opened Pipeline
  import opened PipelineInvariant
  import opened PipelineSafety

  // ---- every action ----

  lemma TickKeeps(s: Sys, seconds: Time)
    requires Inv(s)
    ensures Kept(s, Step(s, Tick(seconds)))
  {
    var s' := Step(s, Tick(seconds));
    TickJobs(s, seconds);
    TickProcs(s, seconds);
    KeptSame(s);
    hide JobsInv, ProcsInv, RowStep;
  }

  lemma TickJobs(s: Sys, seconds: Time)
    requires JobsInv(s)
    ensures JobsInv(Step(s, Tick(seconds)))
  {
    hide GoodRow;
    forall j | j in s.db.jobs
      ensures JobInv(Step(s, Tick(seconds)), j)
    {
      assert JobInv(s, j);
      RowLater(s, seconds, j, s.db.jobs[j], Hist(s, j));
    }
  }

  lemma RowLater(s: Sys, seconds: Time, j: JobId, r: Job, h: History)
    requires GoodRow(s, j, r, h)
    ensures GoodRow(Step(s, Tick(seconds)), j, r, h)
  {
    hide OperatorInv, VariantRefs, PublishInv, LogInv, PhaseOf, LastAsked;
  }

  lemma TickProcs(s: Sys, seconds: Time)
    requires ProcsInv(s)
    ensures ProcsInv(Step(s, Tick(seconds)))
  {
    forall q | q in s.procs
      ensures ProcOk(Step(s, Tick(seconds)), q)
    {
      assert ProcOk(s, q);
    }
  }

  lemma CrashKeeps(s: Sys, pid: Pid)
    requires Inv(s)
    ensures Kept(s, Step(s, Crash(pid)))
  {
    hide Kept, Inv;
    if pid in s.procs {
      assert Step(s, Crash(pid)) == Become(s, pid, None);
      LocalMove(s, pid, None);
    } else {
      assert s.procs - {pid} == s.procs;
      KeptSame(s);
    }
  }

  /** A new process may start if its program counter relies on nothing that is not so. */
  lemma SpawnKeeps(s: Sys, p: Proc)
    requires Inv(s) && p.job in s.db.jobs
    requires ProcInv(s.nextPid, p.pc, s.db.jobs[p.job].status, Hist(s, p.job), s.db.now)
    ensures Kept(s, Spawn(s, p))
  {
    SpawnJobs(s, p);
    SpawnProcs(s, p);
    KeptSame(s);
    hide JobsInv, ProcsInv, RowStep;
  }

  lemma SpawnJobs(s: Sys, p: Proc)
    requires JobsInv(s)
    ensures JobsInv(Spawn(s, p))
  {
    hide PhaseOf, LastAsked;
    forall j | j in s.db.jobs
      ensures JobInv(Spawn(s, p), j)
    {
      assert JobInv(s, j);
    }
  }

  lemma SpawnProcs(s: Sys, p: Proc)
    requires ProcsInv(s) && p.job in s.db.jobs
    requires ProcInv(s.nextPid, p.pc, s.db.jobs[p.job].status, Hist(s, p.job), s.db.now)
    ensures ProcsInv(Spawn(s, p))
  {
    hide ProcInv;
    forall q | q in Spawn(s, p).procs
      ensures ProcOk(Spawn(s, p), q)
    {
      if q != s.nextPid { assert ProcOk(s, q); }
    }
  }

  lemma ListingIsFine(s: Sys, p: Proc)
    requires Inv(s) && CanList(s.db, p)
    ensures p.job in s.db.jobs
    ensures ProcInv(s.nextPid, p.pc, s.db.jobs[p.job].status, Hist(s, p.job), s.db.now)
  {
    hide CanList, ProcInv, PhaseOf, LastAsked;
    ListedJob(s.db, p);
    assert JobInv(s, p.job);
    RowFacts(s, p.job, s.db.jobs[p.job], Hist(s, p.job));
    ListedFromRow(s.nextPid, s.db, p, Hist(s, p.job));
    hide *;
  }

  lemma ListedJob(db: Tables, p: Proc)
    requires CanList(db, p)
    ensures p.job in db.jobs
  {
  }

  lemma ListedFromRow(pid: Pid, db: Tables, p: Proc, h: History)
    requires CanList(db, p)
    requires p.job in db.jobs
    requires db.jobs[p.job].requestedVariants > 0 ==> !PhaseOf(h.events).Idle?
    requires db.jobs[p.job].status == Publishing ==> h.claimant.Some?
    requires db.jobs[p.job].status == Approved ==> !h.release.Unreleased?
    ensures ProcInv(pid, p.pc, db.jobs[p.job].status, h, db.now)
  {
    hide PhaseOf, LastAsked;
  }

  /** What a listing may conclude from the row it returns. */
  lemma RowFacts(s: Sys, j: JobId, r: Job, h: History)
    requires GoodRow(s, j, r, h)
    ensures r.requestedVariants > 0 ==> !PhaseOf(h.events).Idle?
    ensures r.status == Publishing ==> h.claimant.Some?
    ensures r.status == Approved ==> !h.release.Unreleased?
  {
    hide PhaseOf, LastAsked;
  }

  lemma RequestIsFine(s: Sys, p: Proc)
    requires CanRequest(s.db, p)
    ensures ProcInv(s.nextPid, p.pc, s.db.jobs[p.job].status, Hist(s, p.job), s.db.now)
  {
  }

  lemma IngestKeeps(s: Sys, j: JobId)
    requires Inv(s)
    ensures Kept(s, Step(s, Ingest(j)))
  {
    if j in s.db.jobs {
      KeptSame(s);
    } else {
      var s1 := s.(db := Create(s.db, j).db);
      assert Hist(s, j) == NO_HISTORY;
      CreateKeeps(s, j);
      hide Kept, Inv;
      SpawnKeeps(s1, Proc(j, Ingested));
      KeptThen(s, s1, Spawn(s1, Proc(j, Ingested)));
    }
  }

  lemma CreateKeeps(s: Sys, j: JobId)
    requires Inv(s) && j !in s.db.jobs
    ensures Kept(s, s.(db := Create(s.db, j).db))
    ensures Inv(s.(db := Create(s.db, j).db))
  {
    hide JobsInv, ProcsInv, RowStep, Hist;
    CreatedJobs(s, j);
    CreatedProcs(s, j);
    CreatedProgress(s, j);
    hide Progress;
  }

  lemma CreatedProgress(s: Sys, j: JobId)
    requires j !in s.db.jobs
    ensures Progress(s, s.(db := Create(s.db, j).db))
  {
    hide RowStep;
    forall k | k in s.db.jobs
      ensures RowStep(s.db.jobs[k], Hist(s, k), s.db.jobs[k], Hist(s, k), s.db.now)
    {
      RowStays(s.db.jobs[k], Hist(s, k), s.db.now);
    }
  }

  lemma KeptThen(s: Sys, s1: Sys, s2: Sys)
    requires Kept(s, s1) && Kept(s1, s2)
    requires s1.hist == s.hist && s1.db.now == s.db.now
    requires forall j :: j in s.db.jobs ==> j in s1.db.jobs && s1.db.jobs[j] == s.db.jobs[j]
    ensures Kept(s, s2)
  {
    hide Inv, RowStep;
  }

  lemma CreatedJobs(s: Sys, j: JobId)
    requires Inv(s) && j !in s.db.jobs
    ensures JobsInv(s.(db := Create(s.db, j).db))
  {
    hide GoodRow;
    var s1 := s.(db := Create(s.db, j).db);
    forall k | k in s1.db.jobs
      ensures JobInv(s1, k)
    {
      if k == j {
        NoLogYet(s, j);
        FreshIsGood(s1, j);
      } else {
        assert JobInv(s, k);
        SameTables(s, s1, k, s.db.jobs[k], Hist(s, k));
      }
    }
  }

  lemma FreshIsGood(s: Sys, j: JobId)
    requires LogInv(j, NO_HISTORY, s.db.logs)
    ensures GoodRow(s, j, FRESH_JOB.(nextRetryAt := s.db.now, updatedAt := s.db.now), NO_HISTORY)
  {
  }

  /** The log never mentions a job that does not exist. */
  lemma NoLogYet(s: Sys, j: JobId)
    requires Inv(s) && j !in s.db.jobs
    ensures LogInv(j, NO_HISTORY, s.db.logs)
  {
  }

  lemma CreatedProcs(s: Sys, j: JobId)
    requires ProcsInv(s) && j !in s.db.jobs
    ensures ProcsInv(s.(db := Create(s.db, j).db))
  {
    hide ProcInv;
    forall q | q in s.procs
      ensures ProcOk(s.(db := Create(s.db, j).db), q)
    {
      assert ProcOk(s, q);
    }
  }

  lemma RunKeeps(s: Sys, pid: Pid, c: Choice)
    requires Inv(s) && pid in s.procs
    ensures Kept(s, RunProc(s, pid, c))
  {
    hide Kept, Inv, StepScoring, StepVariants, StepUpkeep, StepPublish, StepPreview, StepReview, StepOperator;
    ScoringKeepsInv(s, pid, c);
    VariantWorkerKeepsInv(s, pid, c);
    UpkeepKeepsInv(s, pid, c);
    PublishKeepsInv(s, pid, c);
    PreviewKeepsInv(s, pid, c);
    ReviewKeepsInv(s, pid);
    OperatorKeepsInv(s, pid);
  }

  /** The invariant is inductive: every action of the protocol keeps it and treats every row properly. */
  lemma StepKeeps(s: Sys, a: Action)
    requires Inv(s)
    ensures Kept(s, Step(s, a))
  {
    hide Kept, Inv, ProcInv, RunProc, CanList, CanRequest;
    match a
    case Tick(seconds) => TickKeeps(s, seconds);
    case Ingest(j) => IngestKeeps(s, j);
    case List(p) =>
      if CanList(s.db, p) { ListingIsFine(s, p); SpawnKeeps(s, p); } else { KeptSame(s); }
    case Request(p) =>
      if CanRequest(s.db, p) { RequestHasJob(s, p); RequestIsFine(s, p); SpawnKeeps(s, p); } else { KeptSame(s); }
    case Run(pid, c) =>
      if pid in s.procs { RunKeeps(s, pid, c); } else { KeptSame(s); }
    case Crash(pid) => CrashKeeps(s, pid);
  }

  lemma RequestHasJob(s: Sys, p: Proc)
    requires CanRequest(s.db, p)
    ensures p.job in s.db.jobs
  {
  }

  // ---- every run ----

  lemma {:induction false} AlwaysInv(actions: seq<Action>)
    ensures Inv(After(actions))
  {
    if actions == [] {
    } else {
      AlwaysInv(actions[..|actions| - 1]);
      StepKeeps(After(actions[..|actions| - 1]), actions[|actions| - 1]);
    }
  }

  /** The state after the first i actions. */
  function At(actions: seq<Action>, i: nat): Sys
    requires i <= |actions|
  {
    After(actions[..i])
  }

  lemma AtNext(actions: seq<Action>, i: nat)
    requires i < |actions|
    ensures At(actions, i + 1) == Step(At(actions, i), actions[i])
    ensures Inv(At(actions, i)) && Kept(At(actions, i), At(actions, i + 1))
  {
    hide Kept, Inv, Step;
    var prefix := actions[..i + 1];
    assert prefix[..i] == actions[..i] && prefix[i] == actions[i];
    AlwaysInv(actions[..i]);
    StepKeeps(At(actions, i), actions[i]);
  }

  /** One action seen from one job. */
  lemma RowNext(actions: seq<Action>, i: nat, j: JobId)
    requires i < |actions| && j in At(actions, i).db.jobs
    ensures var s, s' := At(actions, i), At(actions, i + 1);
            j in s'.db.jobs && RowStep(s.db.jobs[j], Hist(s, j), s'.db.jobs[j], Hist(s', j), s.db.now)
  {
    hide RowStep, Inv, At;
    AtNext(actions, i);
  }
}
