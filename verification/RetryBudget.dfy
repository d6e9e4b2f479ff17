/**
 The retry counter breaks the only automatic cycles. Between two operator writes a
 job changes status a bounded number of times, and a job that fails because its
 retries are exhausted has waited out the whole backoff.
 */
module RetryBudget {
  import opened JobStatus
  import opened PostTables
  import opened Pipeline
  import opened PipelineInvariant
  import opened PipelineSafety
  import opened PipelineRuns
  import opened StepFrames
  import opened StatusMoves
  import opened PublishTheorems

  predicate ChangesStatus(s: Sys, s': Sys, j: JobId) {
    j in s.db.jobs && j in s'.db.jobs && s.db.jobs[j].status != s'.db.jobs[j].status
  }

  /** How often job j changes status from the i-th to the k-th state of a run. */
  function Changes(actions: seq<Action>, i: nat, k: nat, j: JobId): nat
    requires i <= k <= |actions|
  {
    if i == k then 0
    else Changes(actions, i, k - 1, j) + (if ChangesStatus(At(actions, k - 1), At(actions, k), j) then 1 else 0)
  }

  predicate NoOperatorWrites(actions: seq<Action>, i: nat, k: nat, j: JobId)
    requires i <= k <= |actions|
  {
    forall m :: i <= m < k ==> !OperatorActs(At(actions, m), actions[m], j)
  }

  function LastFailure(before: Job, after: Job): nat {
    if after.status == Failed && before.status != Failed then 1 else 0
  }

  lemma BudgetRange(r: Job, now: Time)
    requires RowInv(r, now)
    ensures 0 <= Budget(r) <= 25
    ensures r.status == Failed ==> Budget(r) == 0
  {
  }

  lemma PayOne(before: Job, mid: Job, after: Job, spent: nat)
    requires spent + Budget(mid) <= Budget(before) + LastFailure(before, mid)
    requires SpendsBudget(mid, after) && 0 <= Budget(mid) && (after.status == Failed ==> Budget(after) == 0)
    requires before.status == Failed ==> mid.status == Failed
    requires mid.status == Failed ==> after.status == Failed
    ensures spent + (if mid.status != after.status then 1 else 0) + Budget(after)
         <= Budget(before) + LastFailure(before, after)
  {
    hide Budget;
  }

  /** One action that is not an operator write, seen by the budget. */
  lemma PaidStep(actions: seq<Action>, m: nat, j: JobId)
    requires m < |actions| && j in At(actions, m).db.jobs && !OperatorActs(At(actions, m), actions[m], j)
    ensures j in At(actions, m + 1).db.jobs
    ensures var mid, after := At(actions, m).db.jobs[j], At(actions, m + 1).db.jobs[j];
            && SpendsBudget(mid, after) && 0 <= Budget(mid) && (after.status == Failed ==> Budget(after) == 0)
            && (mid.status == Failed ==> after.status == Failed)
  {
    hide At, Hist, OperatorActs, Budget, SpendsBudget, EnteredFrom, WaitInv, HasSelection, DueBy;
    RowNext(actions, m, j);
    NoWriteNoDecision(actions, m, j);
    RowInvAt(actions, m, j);
    RowInvAt(actions, m + 1, j);
    BudgetRange(At(actions, m).db.jobs[j], At(actions, m).db.now);
    BudgetRange(At(actions, m + 1).db.jobs[j], At(actions, m + 1).db.now);
  }

  /** The budget pays for every status change but a final failure. */
  lemma {:induction false} BudgetPays(actions: seq<Action>, i: nat, k: nat, j: JobId)
    requires i <= k <= |actions| && j in At(actions, i).db.jobs
    requires NoOperatorWrites(actions, i, k, j)
    ensures j in At(actions, k).db.jobs
    ensures var before, after := At(actions, i).db.jobs[j], At(actions, k).db.jobs[j];
            Changes(actions, i, k, j) + Budget(after) <= Budget(before) + LastFailure(before, after)
    decreases k - i
  {
    if i < k {
      var m := k - 1;
      hide At, OperatorActs, Budget, SpendsBudget;
      BudgetPays(actions, i, m, j);
      PaidStep(actions, m, j);
      if At(actions, i).db.jobs[j].status == Failed { FinishedIsFinal(actions, i, m, j); }
      hide LastFailure;
      PayOne(At(actions, i).db.jobs[j], At(actions, m).db.jobs[j], At(actions, k).db.jobs[j],
          Changes(actions, i, m, j));
    }
  }

  lemma RowInvAt(actions: seq<Action>, i: nat, j: JobId)
    requires i <= |actions| && j in At(actions, i).db.jobs
    ensures RowInv(At(actions, i).db.jobs[j], At(actions, i).db.now)
  {
    AlwaysInv(actions[..i]);
    assert JobInv(At(actions, i), j);
    hide Inv, At;
  }

  /**
   Between two operator writes a job changes status at most 26 times, and at most 25 times
   unless it ends in FAILED, under every interleaving of workers, retries and recoveries.
   */
  lemma StatusChangesAreBounded(actions: seq<Action>, i: nat, k: nat, j: JobId)
    requires i <= k <= |actions| && j in At(actions, i).db.jobs
    requires NoOperatorWrites(actions, i, k, j)
    ensures Changes(actions, i, k, j) <= 26
    ensures j in At(actions, k).db.jobs
            && (At(actions, k).db.jobs[j].status != Failed ==> Changes(actions, i, k, j) <= 25)
  {
    hide At, Hist, OperatorActs, Budget, Changes;
    BudgetPays(actions, i, k, j);
    RowInvAt(actions, i, j);
    RowInvAt(actions, k, j);
    BudgetRange(At(actions, i).db.jobs[j], At(actions, i).db.now);
    BudgetRange(At(actions, k).db.jobs[j], At(actions, k).db.now);
  }

  // ---- when the last change is free ----

  /** The statuses in which a job waits for its operator and has nothing left to spend. */
  predicate WaitsForOperator(st: Status) {
    st == WaitingFirstApproval || st == WaitingVariantApproval || st == ReadyToPublish
  }

  /** A worker that lost its claim long ago fails a job that waits for its operator. */
  predicate LateFailure(s: Sys, a: Action, j: JobId) {
    RunsFor(s, a, j) && s.procs[a.pid].pc.ContextMissing? && j in s.db.jobs && WaitsForOperator(s.db.jobs[j].status)
  }

  predicate NoLateFailure(actions: seq<Action>, i: nat, k: nat, j: JobId)
    requires i <= k <= |actions|
  {
    forall m :: i <= m < k ==> !LateFailure(At(actions, m), actions[m], j)
  }

  /** The other statements that could move the job rely on its not waiting for its operator. */
  lemma LateStatement(pid: Pid, p: PC, r: Job, h: History, now: Time, nextPid: Pid, to: Status)
    requires ProcInv(pid, p, r.status, h, now) && PublishInv(r, h, nextPid) && WaitsForOperator(r.status)
    requires to == VariantsQueued || to == ReadyToPublish || to == Scheduled || to == Approved || to == Skipped
             || to == Failed
    requires Moves(p, r.status, to) && !OperatorCommit(p)
    ensures p.ContextMissing?
  {
    hide PhaseOf, LastAsked;
  }

  lemma OnlyContextIsLate(s: Sys, a: Action, j: JobId, to: Status)
    requires Inv(s) && j in s.db.jobs && WaitsForOperator(s.db.jobs[j].status) && RunsFor(s, a, j)
    requires CanTransition(s.db.jobs[j].status, to) && Moves(s.procs[a.pid].pc, s.db.jobs[j].status, to)
    requires !OperatorCommit(s.procs[a.pid].pc)
    ensures s.procs[a.pid].pc.ContextMissing?
  {
    hide Inv, Hist, LogInv, VariantRefs, OperatorInv, ReleaseInv, RowInv, PublishInv, ProcInv, Moves, WaitsForOperator,
         CanTransition, OperatorCommit;
    InvAt(s, a.pid);
    TargetsOfGates(s.db.jobs[j].status, to);
    LateStatement(a.pid, s.procs[a.pid].pc, s.db.jobs[j], Hist(s, j), s.db.now, s.nextPid, to);
  }

  lemma TargetsOfGates(from: Status, to: Status)
    requires WaitsForOperator(from) && CanTransition(from, to)
    ensures to == VariantsQueued || to == ReadyToPublish || to == Scheduled || to == Approved || to == Skipped
            || to == Failed
  {
  }

  lemma ContextFailsGate(s: Sys, a: Action, j: JobId)
    requires LateFailure(s, a, j)
    ensures j in Step(s, a).db.jobs && Step(s, a).db.jobs[j].status == Failed
  {
    hide Hist;
  }

  /** A job that waits for its operator changes status without an operator write exactly by a late failure. */
  lemma WaitingChangesIffLateFailure(actions: seq<Action>, m: nat, j: JobId)
    requires m < |actions| && j in At(actions, m).db.jobs && WaitsForOperator(At(actions, m).db.jobs[j].status)
    requires !OperatorActs(At(actions, m), actions[m], j)
    ensures ChangesStatus(At(actions, m), At(actions, m + 1), j) <==> LateFailure(At(actions, m), actions[m], j)
  {
    hide At, Inv, Kept, Step, Moves, CanTransition;
    var s, s' := At(actions, m), At(actions, m + 1);
    AtNext(actions, m);
    ProcsHaveJobs(s);
    StatusMovesByStatement(s, actions[m], j);
    if ChangesStatus(s, s', j) {
      RowNextEdge(actions, m, j);
      OnlyContextIsLate(s, actions[m], j, s'.db.jobs[j].status);
    }
    if LateFailure(s, actions[m], j) { ContextFailsGate(s, actions[m], j); }
  }

  lemma RowNextEdge(actions: seq<Action>, m: nat, j: JobId)
    requires m < |actions| && j in At(actions, m).db.jobs && ChangesStatus(At(actions, m), At(actions, m + 1), j)
    ensures CanTransition(At(actions, m).db.jobs[j].status, At(actions, m + 1).db.jobs[j].status)
  {
    hide At, Hist, WaitInv, SpendsBudget, HasSelection, DueBy, EnteredFrom, CanTransition;
    RowNext(actions, m, j);
    EdgesInto(At(actions, m).db.jobs[j].status, At(actions, m + 1).db.jobs[j].status);
  }

  /** What is left to spend is at least one unless the job waits for its operator or is finished. */
  lemma SomethingLeft(r: Job, now: Time)
    requires RowInv(r, now) && !WaitsForOperator(r.status) && !IsTerminal(r.status)
    ensures 1 <= Budget(r)
  {
  }

  /** Without a late failure every change is paid for, the last one too. */
  lemma {:induction false} BudgetPaysAll(actions: seq<Action>, i: nat, k: nat, j: JobId)
    requires i <= k <= |actions| && j in At(actions, i).db.jobs
    requires NoOperatorWrites(actions, i, k, j) && NoLateFailure(actions, i, k, j)
    ensures j in At(actions, k).db.jobs
    ensures Changes(actions, i, k, j) + Budget(At(actions, k).db.jobs[j]) <= Budget(At(actions, i).db.jobs[j])
    decreases k - i
  {
    hide At, OperatorActs, LateFailure, Budget, SpendsBudget, WaitsForOperator, IsTerminal;
    if i < k {
      var m := k - 1;
      BudgetPaysAll(actions, i, m, j);
      PaidInFull(actions, m, j);
    }
  }

  lemma PaidInFull(actions: seq<Action>, m: nat, j: JobId)
    requires m < |actions| && j in At(actions, m).db.jobs
    requires !OperatorActs(At(actions, m), actions[m], j) && !LateFailure(At(actions, m), actions[m], j)
    ensures j in At(actions, m + 1).db.jobs
    ensures (if ChangesStatus(At(actions, m), At(actions, m + 1), j) then 1 else 0)
            + Budget(At(actions, m + 1).db.jobs[j])
         <= Budget(At(actions, m).db.jobs[j])
  {
    hide At, OperatorActs, LateFailure, Budget, CanTransition;
    PaidStep(actions, m, j);
    var r, r' := At(actions, m).db.jobs[j], At(actions, m + 1).db.jobs[j];
    if ChangesStatus(At(actions, m), At(actions, m + 1), j) {
      if WaitsForOperator(r.status) { WaitingChangesIffLateFailure(actions, m, j); }
      RowNextEdge(actions, m, j);
      TerminalIffDeadEnd(r.status);
      RowInvAt(actions, m, j);
      SomethingLeft(r, At(actions, m).db.now);
    }
  }

  /**
   Between two operator writes a job changes status at most 25 times unless a late failure ends
   the stretch, whether or not the job fails.
   */
  lemma BoundedWithoutLateFailure(actions: seq<Action>, i: nat, k: nat, j: JobId)
    requires i <= k <= |actions| && j in At(actions, i).db.jobs
    requires NoOperatorWrites(actions, i, k, j) && NoLateFailure(actions, i, k, j)
    ensures Changes(actions, i, k, j) <= 25
  {
    hide At, OperatorActs, LateFailure, Budget, Changes;
    BudgetPaysAll(actions, i, k, j);
    RowInvAt(actions, i, j);
    RowInvAt(actions, k, j);
    BudgetRange(At(actions, i).db.jobs[j], At(actions, i).db.now);
    BudgetRange(At(actions, k).db.jobs[j], At(actions, k).db.now);
  }

  // ---- backoff ----

  /** If action m takes job j out of an AI queue, its retry time has come. */
  predicate Prompt(actions: seq<Action>, m: nat, j: JobId)
    requires m < |actions|
  {
    var s, s' := At(actions, m), At(actions, m + 1);
    j in s.db.jobs && j in s'.db.jobs && TakenFromQueue(s.db.jobs[j], s'.db.jobs[j]) ==>
      s.db.jobs[j].nextRetryAt <= s.db.now
  }

  lemma WaitGrows(r: Job, h: History, now: Time, now': Time)
    requires WaitInv(r, h, now) && now <= now'
    ensures WaitInv(r, h, now')
  {
  }

  lemma {:induction false} WaitsAddUp(actions: seq<Action>, i: nat, j: JobId)
    requires i <= |actions| && forall m :: 0 <= m < i ==> Prompt(actions, m, j)
    ensures j in At(actions, i).db.jobs ==>
              WaitInv(At(actions, i).db.jobs[j], Hist(At(actions, i), j), At(actions, i).db.now)
  {
    assert actions[..0] == [];
    if i > 0 {
      var m := i - 1;
      var s, s' := At(actions, m), At(actions, i);
      WaitsAddUp(actions, m, j);
      AtNext(actions, m);
      StepFrame(s, actions[m], j);
      assert Prompt(actions, m, j);
      hide At, Hist, WaitInv, EnteredFrom, SpendsBudget, HasSelection, DueBy, Inv, Step, Kept;
      if j in s.db.jobs {
        RowNext(actions, m, j);
        WaitGrows(s'.db.jobs[j], Hist(s', j), s.db.now, s'.db.now);
      } else if j in s'.db.jobs {
        RowInvAt(actions, i, j);
        NoRetriesNoWait(s'.db.jobs[j], Hist(s', j), s'.db.now);
      }
    }
  }

  lemma NoRetriesNoWait(r: Job, h: History, now: Time)
    requires r.retries == 0
    ensures WaitInv(r, h, now)
  {
  }

  lemma WholeBackoff()
    ensures WaitSum(MAX_AI_RETRIES - 1) == 63 * MINUTE
  {
    assert WaitSum(3) == 7 * MINUTE;
    assert WaitSum(5) == 31 * MINUTE;
  }

  lemma ExhaustedWaited(r: Job, h: History, now: Time)
    requires WaitInv(r, h, now) && r.status == Failed && r.retries == MAX_AI_RETRIES
    ensures h.firstPark.Some? && h.firstPark.value + WaitSum(MAX_AI_RETRIES - 1) <= r.updatedAt
  {
    hide WaitSum;
  }

  /**
   A job that failed by exhausting its retries had its eighth park at least 63 minutes after
   its first since the last completed AI stage, if its queue claims happened when due. The
   hypothesis is needed because a worker may claim on a listing made before a later park.
   */
  lemma ExhaustionTakesAnHour(actions: seq<Action>, j: JobId)
    requires forall m :: 0 <= m < |actions| ==> Prompt(actions, m, j)
    requires j in After(actions).db.jobs
    requires After(actions).db.jobs[j].status == Failed && After(actions).db.jobs[j].retries == MAX_AI_RETRIES
    ensures var s := After(actions);
            Hist(s, j).firstPark.Some? && Hist(s, j).firstPark.value + 63 * MINUTE <= s.db.jobs[j].updatedAt
  {
    hide After, WaitSum, Hist, Prompt, WaitInv;
    assert actions[..|actions|] == actions;
    WaitsAddUp(actions, |actions|, j);
    WholeBackoff();
    ExhaustedWaited(After(actions).db.jobs[j], Hist(After(actions), j), After(actions).db.now);
  }
}
