/**
 A post that was published while its job ends up FAILED: exactly when that happens, on which of
 the two sides of the external call it is decided, and when recovery finds nothing in the log.
 */
module LostPublishes {
  import opened Wrappers
  import opened JobStatus
  import opened PostTables
  import opened Pipeline
  import opened PipelineInvariant
  import opened PipelineSafety
  import opened PipelineRuns
  import opened StepFrames
  import opened StatusMoves
  import OperatorLineage
  import opened PublishTheorems

  /** Action a is one of the two statements that can fail a job behind the live worker's back. */
  predicate Overrules(s: Sys, a: Action, j: JobId) {
    RunsFor(s, a, j) && (s.procs[a.pid].pc == StaleLogged(None) || s.procs[a.pid].pc.ContextMissing?)
  }

  /** Action i overrules the live worker while job j is in PUBLISHING. */
  predicate OverruledAt(actions: seq<Action>, i: nat, j: JobId)
    requires i < |actions|
  {
    var s := At(actions, i);
    j in s.db.jobs && s.db.jobs[j].status == Publishing && Overrules(s, actions[i], j)
  }

  lemma OverruledFails(s: Sys, a: Action, j: JobId)
    requires Overrules(s, a, j) && j in s.db.jobs && s.db.jobs[j].status == Publishing
    ensures j in Step(s, a).db.jobs && Step(s, a).db.jobs[j].status == Failed
  {
    hide Hist;
  }

  // ---- failed for another reason ----

  predicate Gone(s: Sys, pid: Pid) {
    pid !in s.procs && pid < s.nextPid
  }

  /** A process that is gone stays gone. */
  lemma GoneStays(s: Sys, a: Action, pid: Pid)
    requires Gone(s, pid)
    ensures Gone(Step(s, a), pid)
  {
    hide RunProc, CanList, CanRequest, Create;
    if a.Run? && a.pid in s.procs {
      OperatorLineage.RunMoves(s, a.pid, a.choice);
      hide OperatorLineage.OfRequest;
    }
  }

  /** The job is FAILED, nobody called the publisher for it, and nobody is left who could. */
  ghost predicate NeverCalled(s: Sys, j: JobId) {
    && j in s.db.jobs && s.db.jobs[j].status == Failed
    && Hist(s, j).calls == []
    && (Hist(s, j).claimant.Some? ==> Gone(s, Hist(s, j).claimant.value))
  }

  lemma NeverCalledStays(s: Sys, a: Action, j: JobId)
    requires Inv(s) && Kept(s, Step(s, a)) && NeverCalled(s, j)
    ensures NeverCalled(Step(s, a), j)
  {
    hide Inv, Step, Hist, Gone, CallsPublisher, EnteredFrom, WaitInv, SpendsBudget, HasSelection, DueBy;
    StepFrame(s, a, j);
    if Hist(s, j).claimant.Some? { GoneStays(s, a, Hist(s, j).claimant.value); }
    if CallsPublisher(s, a, j) {
      CallerHolds(s, a, j);
      assert false;
    }
  }

  lemma CallerHolds(s: Sys, a: Action, j: JobId)
    requires Inv(s) && CallsPublisher(s, a, j)
    ensures j in s.db.jobs && Hist(s, j).calls == [] && Hist(s, j).claimant.Some?
    ensures !Gone(s, Hist(s, j).claimant.value)
  {
    hide Inv, Step, Hist;
    Caller(s, a, j);
  }

  /** The call that was made was refused. */
  predicate CallRefused(s: Sys, j: JobId) {
    Hist(s, j).calls != [] && Hist(s, j).calls[0].media.None?
  }

  /** Whoever fails a job either overrules its live worker, or is that worker and done with it. */
  lemma FailingStep(s: Sys, a: Action, j: JobId)
    requires Inv(s) && Kept(s, Step(s, a)) && j in s.db.jobs && s.db.jobs[j].status != Failed
    requires j in Step(s, a).db.jobs && Step(s, a).db.jobs[j].status == Failed
    ensures (s.db.jobs[j].status == Publishing && Overrules(s, a, j))
         || NeverCalled(Step(s, a), j) || CallRefused(Step(s, a), j)
  {
    var s' := Step(s, a);
    hide Inv, Kept, Step, Hist, Moves, Overrules, Gone;
    ProcsHaveJobs(s);
    StatusMovesByStatement(s, a, j);
    ClaimantAt(s, s', j);
    if Hist(s', j).claimant.Some? && !Overrules(s, a, j) { OwnFailure(s, a, j); }
  }

  lemma ClaimantAt(s: Sys, s': Sys, j: JobId)
    requires Inv(s) && Kept(s, s') && j in s.db.jobs && s.db.jobs[j].status != Failed
    requires j in s'.db.jobs && s'.db.jobs[j].status == Failed
    ensures Hist(s', j).claimant == Hist(s, j).claimant
    ensures Hist(s', j).claimant.None? ==> Hist(s', j).calls == []
    ensures Hist(s, j).claimant.Some? ==> s.db.jobs[j].status == Publishing
  {
    hide Inv, Hist, RowStep, RowInv, OperatorInv, ReleaseInv, VariantRefs, PublishInv, LogInv;
    KeptInv(s, s');
    InvRow(s, j);
    InvRow(s', j);
    assert PublishInv(s.db.jobs[j], Hist(s, j), s.nextPid) && PublishInv(s'.db.jobs[j], Hist(s', j), s'.nextPid);
    FailingRow(s.db.jobs[j], Hist(s, j), s.nextPid, s'.db.jobs[j], Hist(s', j), s'.nextPid, s.db.now);
  }

  lemma FailingRow(r: Job, h: History, nextPid: Pid, r': Job, h': History, nextPid': Pid, now: Time)
    requires PublishInv(r, h, nextPid) && PublishInv(r', h', nextPid') && RowStep(r, h, r', h', now)
    requires r.status != Failed && r'.status == Failed
    ensures h'.claimant == h.claimant
    ensures h'.claimant.None? ==> h'.calls == []
    ensures h.claimant.Some? ==> r.status == Publishing
  {
    hide EnteredFrom, WaitInv, SpendsBudget, HasSelection, DueBy;
  }

  lemma OwnFailure(s: Sys, a: Action, j: JobId)
    requires Inv(s) && j in s.db.jobs && s.db.jobs[j].status == Publishing && RunsFor(s, a, j)
    requires Moves(s.procs[a.pid].pc, Publishing, Failed) && !Overrules(s, a, j)
    requires j in Step(s, a).db.jobs && Step(s, a).db.jobs[j].status == Failed
    requires Hist(Step(s, a), j).claimant == Hist(s, j).claimant
    ensures NeverCalled(Step(s, a), j) || CallRefused(Step(s, a), j)
  {
    hide Inv, Step, Hist, Moves, ProcInv, JobInv;
    InvAt(s, a.pid);
    OnlyOwnerIsLeft(a.pid, s.procs[a.pid].pc, Hist(s, j), s.db.now);
    StepFrame(s, a, j);
    OwnerLeaves(s, a);
  }

  lemma OnlyOwnerIsLeft(pid: Pid, p: PC, h: History, now: Time)
    requires ProcInv(pid, p, Publishing, h, now) && Moves(p, Publishing, Failed)
    requires p != StaleLogged(None) && !p.ContextMissing?
    ensures p.PublishFailing? && h.claimant == Some(pid) && (h.calls != [] ==> h.calls[0].media.None?)
  {
    hide PhaseOf, Holds, Returned, MediaIdOf;
  }

  lemma OwnerLeaves(s: Sys, a: Action)
    requires a.Run? && a.pid in s.procs && s.procs[a.pid].pc.PublishFailing? && a.pid < s.nextPid
    ensures Gone(Step(s, a), a.pid)
  {
    hide MarkFailed, Hist;
  }

  /** Why a job is FAILED. */
  lemma {:induction false} FailedWhy(actions: seq<Action>, n: nat, j: JobId)
    requires n <= |actions| && j in At(actions, n).db.jobs && At(actions, n).db.jobs[j].status == Failed
    ensures (exists i :: 0 <= i < n && OverruledAt(actions, i, j))
         || NeverCalled(At(actions, n), j) || CallRefused(At(actions, n), j)
  {
    assert actions[..0] == [];
    if n > 0 {
      var m := n - 1;
      hide At, Inv, Kept, Step, Hist, NeverCalled, CallRefused, OverruledAt;
      AtNext(actions, m);
      StepFrame(At(actions, m), actions[m], j);
      if At(actions, m).db.jobs[j].status == Failed {
        FailedWhy(actions, m, j);
        if NeverCalled(At(actions, m), j) { NeverCalledStays(At(actions, m), actions[m], j); }
        if CallRefused(At(actions, m), j) { RefusalStays(actions, m, j); }
      } else {
        FailingStep(At(actions, m), actions[m], j);
        assert NeverCalled(At(actions, n), j) || CallRefused(At(actions, n), j) || OverruledAt(actions, m, j)
          by { hide NeverCalled, CallRefused; }
      }
    }
  }

  lemma RefusalStays(actions: seq<Action>, m: nat, j: JobId)
    requires m < |actions| && j in At(actions, m).db.jobs && CallRefused(At(actions, m), j)
    ensures CallRefused(At(actions, m + 1), j)
  {
    hide At, Hist;
    CallsStay(actions, m, m + 1, j);
  }

  lemma OverruledStaysFailed(actions: seq<Action>, i: nat, n: nat, j: JobId)
    requires i < n <= |actions| && OverruledAt(actions, i, j)
    ensures j in At(actions, n).db.jobs && At(actions, n).db.jobs[j].status == Failed
  {
    hide At, Inv, Kept, Step, Overrules;
    AtNext(actions, i);
    OverruledFails(At(actions, i), actions[i], j);
    FinishedIsFinal(actions, i + 1, n, j);
  }

  // ---- published, and failed ----

  /**
   A job that was in fact published is FAILED if and only if, at some time before, recovery that
   found no success or a worker that lost its claim long ago failed it out of PUBLISHING. That
   may have been after the call or before it: the live worker never looks at the status again.
   */
  lemma PublishedIsLostIff(actions: seq<Action>, n: nat, j: JobId)
    requires n <= |actions|
    requires var calls := Hist(At(actions, n), j).calls; calls != [] && calls[0].media.Some?
    ensures j in At(actions, n).db.jobs
    ensures At(actions, n).db.jobs[j].status == Failed <==> exists i :: 0 <= i < n && OverruledAt(actions, i, j)
  {
    hide At, OverruledAt, Inv, Hist;
    InvAtTime(actions, n);
    HistHasJob(At(actions, n), j);
    if At(actions, n).db.jobs[j].status == Failed { FailedWhy(actions, n, j); }
    if i :| 0 <= i < n && OverruledAt(actions, i, j) { OverruledStaysFailed(actions, i, n, j); }
  }

  /** The step in which a published job is lost. */
  lemma LostInPublishing(actions: seq<Action>, i: nat, j: JobId)
    requires i < |actions| && j in At(actions, i).db.jobs && At(actions, i).db.jobs[j].status == Publishing
    requires var calls := Hist(At(actions, i), j).calls; calls != [] && calls[0].media.Some?
    ensures j in At(actions, i + 1).db.jobs
    ensures At(actions, i + 1).db.jobs[j].status == Failed <==> Overrules(At(actions, i), actions[i], j)
  {
    hide At, Overrules, Hist;
    CallsStay(actions, i, i + 1, j);
    PublishedIsLostIff(actions, i, j);
    PublishedIsLostIff(actions, i + 1, j);
    assert OverruledAt(actions, i, j) <==> Overrules(At(actions, i), actions[i], j);
  }

  lemma InvAtTime(actions: seq<Action>, n: nat)
    requires n <= |actions|
    ensures Inv(At(actions, n))
  {
    AlwaysInv(actions[..n]);
    hide Inv, After;
  }

  /** The publisher is called for a job that is FAILED already if and only if its worker was overruled before. */
  lemma CalledWhenFailedIff(actions: seq<Action>, k: nat, j: JobId)
    requires k < |actions| && CallsPublisher(At(actions, k), actions[k], j)
    ensures j in At(actions, k).db.jobs
    ensures At(actions, k).db.jobs[j].status == Failed <==> exists i :: 0 <= i < k && OverruledAt(actions, i, j)
  {
    hide At, OverruledAt, Inv, Hist, CallsPublisher, Gone;
    InvAtTime(actions, k);
    CallerHolds(At(actions, k), actions[k], j);
    if At(actions, k).db.jobs[j].status == Failed { FailedWhy(actions, k, j); }
    if i :| 0 <= i < k && OverruledAt(actions, i, j) { OverruledStaysFailed(actions, i, k, j); }
  }

  // ---- what recovery finds ----

  /** Recovery looks for a success in the log of job j. */
  predicate LooksUp(s: Sys, a: Action, j: JobId) {
    RunsFor(s, a, j) && s.procs[a.pid].pc == StaleListed(Publishing)
  }

  predicate Logged(db: Tables, j: JobId) {
    exists k :: 0 <= k < |db.logs| && RecordsSuccess(db.logs[k], j)
  }

  /**
   In every reachable state recovery finds nothing if and only if its read fails or the live worker
   has not written its success yet. Every success in the log is readable.
   */
  lemma LookupMissesIff(actions: seq<Action>, i: nat, j: JobId)
    requires i < |actions| && LooksUp(At(actions, i), actions[i], j)
    ensures var p, procs := actions[i].pid, At(actions, i + 1).procs;
            && p in procs
            && (procs[p].pc == StaleLogged(None) <==> actions[i].choice.StatementLost? || !Logged(At(actions, i).db, j))
  {
    hide At, Inv, Kept, Hist, MediaIdOf;
    var s := At(actions, i);
    AtNext(actions, i);
    LogsAreReadable(s, actions[i].pid, j);
    FoundOnceLogged(s.db.logs, j);
    hide SuccessfulPublishMediaID;
  }

  lemma LogsAreReadable(s: Sys, pid: Pid, j: JobId)
    requires Inv(s) && pid in s.procs && s.procs[pid].job == j
    ensures forall k :: 0 <= k < |s.db.logs| && RecordsSuccess(s.db.logs[k], j) ==>
            MediaIdOf(s.db.logs[k].response.value).Some?
  {
    InvAt(s, pid);
    hide Inv, RowInv, OperatorInv, ReleaseInv, VariantRefs, PublishInv, ProcInv, Hist, MediaIdOf;
  }
}
