/**
 ReplaceVariants looks at no status, so a generation worker whose job was recovered in
 the meantime can clear the selection of a job that is past review. That is the only
 way to lose a selection: the jobs past review always have one exactly in the runs
 without such a late replacement.
 */
module SelectionGate {
  import opened JobStatus
  import opened PostTables
  import opened Pipeline
  import opened PipelineInvariant
  import opened PipelineSafety
  import opened PipelineRuns
  import opened StepFrames

  /** Action a replaces the variants of job j although the job is already past review. */
  predicate LateReplace(s: Sys, a: Action, j: JobId) {
    Replaces(s, a, j) && j in s.db.jobs && Gated(s.db.jobs[j].status)
  }

  /** Every READY_TO_PUBLISH, SCHEDULED, APPROVED or PUBLISHING job j has a selected variant. */
  predicate SelectionHeld(s: Sys, j: JobId) {
    j in s.db.jobs ==> HasSelection(s.db.jobs[j])
  }

  /** A selection that is held is a variant of the job itself. */
  lemma SelectionIsOwn(actions: seq<Action>, j: JobId)
    requires j in After(actions).db.jobs && After(actions).db.jobs[j].selected.Some?
    ensures OwnsVariant(After(actions).db, j, After(actions).db.jobs[j].selected.value)
  {
    AlwaysInv(actions);
    assert JobInv(After(actions), j);
    hide Inv, PhaseOf, LastAsked, After, ReleaseInv, PublishInv;
  }

  lemma HeldUnlessLate(actions: seq<Action>, i: nat, j: JobId)
    requires i < |actions| && SelectionHeld(At(actions, i), j)
    requires !LateReplace(At(actions, i), actions[i], j)
    ensures SelectionHeld(At(actions, i + 1), j)
  {
    hide At, Hist, EnteredFrom, WaitInv, SpendsBudget, DueBy, Inv, Kept, Step, Replaces;
    var s, s' := At(actions, i), At(actions, i + 1);
    AtNext(actions, i);
    StepFrame(s, actions[i], j);
    if j in s.db.jobs { RowNext(actions, i, j); }
  }

  lemma LostWhenLate(s: Sys, a: Action, j: JobId)
    requires LateReplace(s, a, j)
    ensures !SelectionHeld(Step(s, a), j)
  {
    hide InsertAll, WithoutJob, WellNumbered;
  }

  lemma {:induction false} HeldThroughout(actions: seq<Action>, i: nat, j: JobId)
    requires i <= |actions|
    requires forall m :: 0 <= m < i ==> !LateReplace(At(actions, m), actions[m], j)
    ensures SelectionHeld(At(actions, i), j)
  {
    assert actions[..0] == [];
    if i > 0 {
      HeldThroughout(actions, i - 1, j);
      HeldUnlessLate(actions, i - 1, j);
    }
  }

  /** A job past review has a selection at every moment of a run if and only if no replacement came late. */
  lemma SelectionHeldIffNoLateReplace(actions: seq<Action>, j: JobId)
    ensures (forall i :: 0 <= i <= |actions| ==> SelectionHeld(At(actions, i), j))
       <==> (forall i :: 0 <= i < |actions| ==> !LateReplace(At(actions, i), actions[i], j))
  {
    hide At, SelectionHeld, LateReplace;
    if forall i :: 0 <= i <= |actions| ==> SelectionHeld(At(actions, i), j) {
      forall i | 0 <= i < |actions|
        ensures !LateReplace(At(actions, i), actions[i], j)
      {
        AtNext(actions, i);
        assert SelectionHeld(At(actions, i + 1), j);
        if LateReplace(At(actions, i), actions[i], j) {
          LostWhenLate(At(actions, i), actions[i], j);
          assert false;
        }
      }
    }
    if forall i :: 0 <= i < |actions| ==> !LateReplace(At(actions, i), actions[i], j) {
      forall i | 0 <= i <= |actions|
        ensures SelectionHeld(At(actions, i), j)
      {
        HeldThroughout(actions, i, j);
      }
    }
  }
}
