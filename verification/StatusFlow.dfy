/**
 Claims over whole runs: whoever writes, a job only moves along the transition table, and
 the claims won out of a status never outnumber the entries into it, because each win is an
 exit. PUBLISHING is entered by a won claim only, and at most one is ever won.
 */
module StatusFlow {
  import opened Wrappers
  import opened JobStatus
  import opened PostTables
  import opened Pipeline
  import opened PipelineInvariant
  import opened PipelineRuns
  import opened PipelineSafety
  import opened StepFrames
  import opened StatusMoves
  import opened PublishTheorems

  predicate IsIn(s: Sys, j: JobId, st: Status) {
    j in s.db.jobs && s.db.jobs[j].status == st
  }

  function Entries(actions: seq<Action>, k: nat, j: JobId, st: Status): nat
    requires k <= |actions|
  {
    if k == 0 then 0
    else
      var step := !IsIn(At(actions, k - 1), j, st) && IsIn(At(actions, k), j, st);
      Entries(actions, k - 1, j, st) + if step then 1 else 0
  }

  function Exits(actions: seq<Action>, k: nat, j: JobId, st: Status): nat
    requires k <= |actions|
  {
    if k == 0 then 0
    else
      var step := IsIn(At(actions, k - 1), j, st) && !IsIn(At(actions, k), j, st);
      Exits(actions, k - 1, j, st) + if step then 1 else 0
  }

  /** Whatever an action is, a job it finds follows the table or stays, and a job it creates is NEW. */
  lemma StatusFollowsTable(actions: seq<Action>, i: nat, j: JobId)
    requires i < |actions| && j in At(actions, i + 1).db.jobs
    ensures var to := At(actions, i + 1).db.jobs[j].status;
            if j in At(actions, i).db.jobs then
              var from := At(actions, i).db.jobs[j].status; from == to || CanTransition(from, to)
            else to == New
  {
    hide At, Hist, WaitInv, SpendsBudget, HasSelection, DueBy, Inv, Kept, Step, EnteredFrom, CanTransition;
    AtNext(actions, i);
    StepFrame(At(actions, i), actions[i], j);
    if j in At(actions, i).db.jobs {
      RowNext(actions, i, j);
      EdgesInto(At(actions, i).db.jobs[j].status, At(actions, i + 1).db.jobs[j].status);
    }
  }

  /** Entries equal exits plus one if the status is current. */
  lemma {:induction false} EntriesBalanceExits(actions: seq<Action>, k: nat, j: JobId, st: Status)
    requires k <= |actions|
    ensures Entries(actions, k, j, st) == Exits(actions, k, j, st) + (if IsIn(At(actions, k), j, st) then 1 else 0)
  {
    hide At;
    StartsEmpty(actions);
    if k > 0 {
      EntriesBalanceExits(actions, k - 1, j, st);
    }
  }

  /** A finished status is entered at most once and never left. */
  lemma {:induction false} FinishedIsEnteredOnce(actions: seq<Action>, k: nat, j: JobId, st: Status)
    requires k <= |actions| && IsTerminal(st)
    ensures Exits(actions, k, j, st) == 0 && Entries(actions, k, j, st) <= 1
  {
    EntriesBalanceExits(actions, k, j, st);
    if k > 0 {
      hide At;
      FinishedIsEnteredOnce(actions, k - 1, j, st);
      if IsIn(At(actions, k - 1), j, st) { FinishedIsFinal(actions, k - 1, k, j); }
    }
  }

  lemma {:induction false} ApprovedOnce(actions: seq<Action>, k: nat, j: JobId)
    requires k <= |actions|
    ensures Entries(actions, k, j, Approved) <= 1
    ensures Entries(actions, k, j, Approved) == 1 ==>
              j in At(actions, k).db.jobs && !Hist(At(actions, k), j).release.Unreleased?
  {
    hide At, Hist, Inv, Kept, Step, RowStep, CanTransition;
    StartsEmpty(actions);
    if k > 0 {
      var s, s' := At(actions, k - 1), At(actions, k);
      ApprovedOnce(actions, k - 1, j);
      AtNext(actions, k - 1);
      if j in s.db.jobs {
        RowNext(actions, k - 1, j);
        KeptInv(s, s');
        ReleaseStep(s, s', j);
        if EntersApproved(s, s', j) { UnreleasedBefore(s, s', j); }
      } else if j in s'.db.jobs {
        StatusFollowsTable(actions, k - 1, j);
      }
    }
  }

  lemma StartsEmpty(actions: seq<Action>)
    ensures At(actions, 0) == START
  {
    assert actions[..0] == [];
  }

  lemma ReleaseStep(s: Sys, s': Sys, j: JobId)
    requires Inv(s) && Inv(s') && j in s.db.jobs && j in s'.db.jobs
    requires RowStep(s.db.jobs[j], Hist(s, j), s'.db.jobs[j], Hist(s', j), s.db.now)
    ensures s'.db.jobs[j].status == Approved ==> !Hist(s', j).release.Unreleased?
    ensures !Hist(s, j).release.Unreleased? ==> !Hist(s', j).release.Unreleased?
  {
    hide Inv, PhaseOf, LastAsked, WaitInv, SpendsBudget, HasSelection, DueBy, EnteredFrom, Hist;
    hide RowInv, OperatorInv, VariantRefs, PublishInv, LogInv;
    assert JobInv(s', j) by { InvRow(s', j); }
  }

  // ---- claims ----

  /** The claim that the process p is about to make, if its next statement is one. */
  function ClaimOf(db: Tables, p: Proc): Option<Effect> {
    match p.pc
    case ScoreListed => Some(ClaimStatus(db, p.job, ScoringQueued, Scoring))
    case GenListed => Some(ClaimStatus(db, p.job, VariantsQueued, GeneratingVariants))
    case RetryListed(target) => Some(ClaimStatus(db, p.job, WaitingAI, target))
    case PublishLoaded(_) => Some(ClaimStatus(db, p.job, Approved, Publishing))
    case DueListed(asOf) => Some(ClaimScheduledDue(db, p.job, asOf))
    case _ => None
  }

  /** Action a is a claim of job j that commits while the job is in the status from. */
  predicate WinsClaim(s: Sys, a: Action, j: JobId, from: Status) {
    && RunsFor(s, a, j) && IsIn(s, j, from)
    && ClaimOf(s.db, s.procs[a.pid]).Some? && ClaimOf(s.db, s.procs[a.pid]).value.outcome == Committed
  }

  /** How many of the first k actions are claims won out of the status from. */
  function Wins(actions: seq<Action>, k: nat, j: JobId, from: Status): nat
    requires k <= |actions|
  {
    if k == 0 then 0
    else Wins(actions, k - 1, j, from) + (if WinsClaim(At(actions, k - 1), actions[k - 1], j, from) then 1 else 0)
  }

  lemma WinIsExit(s: Sys, a: Action, j: JobId, from: Status)
    requires WinsClaim(s, a, j, from)
    ensures !IsIn(Step(s, a), j, from)
    ensures s.procs[a.pid].pc.PublishLoaded? ==> from == Approved && IsIn(Step(s, a), j, Publishing)
  {
    hide Hist, ReleaseOf;
  }

  lemma WonStep(actions: seq<Action>, m: nat, j: JobId, from: Status)
    requires m < |actions| && WinsClaim(At(actions, m), actions[m], j, from)
    ensures IsIn(At(actions, m), j, from) && !IsIn(At(actions, m + 1), j, from)
  {
    hide At, Step, Inv, Kept;
    AtNext(actions, m);
    WinIsExit(At(actions, m), actions[m], j, from);
  }

  lemma {:induction false} WinsAreExits(actions: seq<Action>, k: nat, j: JobId, from: Status)
    requires k <= |actions|
    ensures Wins(actions, k, j, from) <= Exits(actions, k, j, from)
  {
    hide At, WinsClaim, IsIn;
    if k > 0 {
      WinsAreExits(actions, k - 1, j, from);
      if WinsClaim(At(actions, k - 1), actions[k - 1], j, from) { WonStep(actions, k - 1, j, from); }
    }
  }

  /** However many workers and instances race, the claims won out of a status never outnumber the entries into it. */
  lemma WinsNeverExceedEntries(actions: seq<Action>, k: nat, j: JobId, from: Status)
    requires k <= |actions|
    ensures Wins(actions, k, j, from) <= Entries(actions, k, j, from)
  {
    hide At;
    WinsAreExits(actions, k, j, from);
    EntriesBalanceExits(actions, k, j, from);
  }

  /** PUBLISHING is entered by a won claim of an APPROVED job, and by nothing else. */
  lemma EntersPublishingIffWins(actions: seq<Action>, i: nat, j: JobId)
    requires i < |actions|
    ensures !IsIn(At(actions, i), j, Publishing) && IsIn(At(actions, i + 1), j, Publishing)
       <==> WinsClaim(At(actions, i), actions[i], j, Approved)
  {
    hide At, Inv, Kept, Step, Moves, WinsClaim;
    var s, s' := At(actions, i), At(actions, i + 1);
    AtNext(actions, i);
    if !IsIn(s, j, Publishing) && IsIn(s', j, Publishing) {
      StatusFollowsTable(actions, i, j);
      ProcsHaveJobs(s);
      StatusMovesByStatement(s, actions[i], j);
      OnlyFromApproved(s.db.jobs[j].status);
      OnlyClaimsPublish(s, actions[i], j);
    }
    if WinsClaim(s, actions[i], j, Approved) {
      ApprovedClaims(s, actions[i], j);
      WinIsExit(s, actions[i], j, Approved);
    }
  }

  lemma OnlyClaimsPublish(s: Sys, a: Action, j: JobId)
    requires RunsFor(s, a, j) && IsIn(s, j, Approved) && Moves(s.procs[a.pid].pc, Approved, Publishing)
    ensures WinsClaim(s, a, j, Approved)
  {
  }

  lemma ApprovedClaims(s: Sys, a: Action, j: JobId)
    requires WinsClaim(s, a, j, Approved)
    ensures s.procs[a.pid].pc.PublishLoaded? && !IsIn(s, j, Publishing)
  {
    hide CanTransition;
  }

  /** At most one claim of PUBLISHING is ever won for a job, and each entry into PUBLISHING is one. */
  lemma PublishingIsWonOnce(actions: seq<Action>, k: nat, j: JobId)
    requires k <= |actions|
    ensures Entries(actions, k, j, Publishing) == Wins(actions, k, j, Approved) <= 1
  {
    hide At;
    EntriesAreWins(actions, k, j);
    WinsNeverExceedEntries(actions, k, j, Approved);
    ApprovedOnce(actions, k, j);
  }

  lemma {:induction false} EntriesAreWins(actions: seq<Action>, k: nat, j: JobId)
    requires k <= |actions|
    ensures Entries(actions, k, j, Publishing) == Wins(actions, k, j, Approved)
  {
    hide At, WinsClaim, IsIn;
    if k > 0 {
      EntriesAreWins(actions, k - 1, j);
      EntersPublishingIffWins(actions, k - 1, j);
    }
  }

  lemma OnlyFromApproved(from: Status)
    ensures CanTransition(from, Publishing) <==> from == Approved
  {
  }
}
