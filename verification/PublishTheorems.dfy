/**
 What the protocol promises about the external publisher, over every run: it is
 called at most once for a job, with exactly what was approved and artwork made
 from exactly that text, only after an operator asked for it, and a PUBLISHED job
 records exactly what the publisher answered.
 */
module PublishTheorems {
  import opened Wrappers
  import opened JobStatus
  import opened PostTables
  import opened Pipeline
  import opened PipelineInvariant
  import opened PipelineSafety
  import opened PipelineRuns
  import opened StepFrames
  import opened StatusMoves
  import opened OperatorLineage

  predicate EntersApproved(s: Sys, s': Sys, j: JobId) {
    j in s.db.jobs && j in s'.db.jobs && s.db.jobs[j].status != Approved && s'.db.jobs[j].status == Approved
  }

  /** What the process about to call relies on. */
  lemma Caller(s: Sys, a: Action, j: JobId)
    requires Inv(s) && CallsPublisher(s, a, j)
    ensures var h, pc := Hist(s, j), s.procs[a.pid].pc;
            && j in s.db.jobs
            && Holds(a.pid, h, pc.variant) && pc.caption == h.release.caption
                  && pc.image == Upload(pc.variant, pc.caption)
    ensures Hist(Step(s, a), j).calls != []
  {
    PublisherAt(s, a.pid);
    InvAt(s, a.pid);
    hide Inv, GoodRow, ProcInv, MediaIdOf;
  }

  // ---- what is recorded stays recorded ----

  lemma {:induction false} CallsStay(actions: seq<Action>, i: nat, k: nat, j: JobId)
    requires i <= k <= |actions| && j in At(actions, i).db.jobs
    requires Hist(At(actions, i), j).calls != []
    ensures j in At(actions, k).db.jobs && Hist(At(actions, k), j).calls == Hist(At(actions, i), j).calls
    decreases k - i
  {
    hide At, Hist;
    if i < k {
      RowNext(actions, i, j);
      CallsStay(actions, i + 1, k, j);
    }
  }

  lemma {:induction false} ReleaseStays(actions: seq<Action>, i: nat, k: nat, j: JobId)
    requires i <= k <= |actions| && j in At(actions, i).db.jobs
    requires !Hist(At(actions, i), j).release.Unreleased?
    ensures j in At(actions, k).db.jobs && Hist(At(actions, k), j).release == Hist(At(actions, i), j).release
    decreases k - i
  {
    hide At, Hist, EnteredFrom, WaitInv, SpendsBudget;
    if i < k {
      RowNext(actions, i, j);
      ReleaseStays(actions, i + 1, k, j);
    }
  }

  // ---- at most one call ----

  /** In no run is the external publisher called twice for the same job. */
  lemma PublisherCalledAtMostOnce(actions: seq<Action>, i: nat, k: nat, j: JobId)
    requires i < k < |actions|
    requires CallsPublisher(At(actions, i), actions[i], j)
    ensures !CallsPublisher(At(actions, k), actions[k], j)
  {
    hide At, Kept, CallsPublisher, Inv, Step, Hist;
    AtNext(actions, i);
    AtNext(actions, k);
    Caller(At(actions, i), actions[i], j);
    RowNext(actions, i, j);
    CallsStay(actions, i + 1, k, j);
    if CallsPublisher(At(actions, k), actions[k], j) {
      Caller(At(actions, k), actions[k], j);
      assert false;
    }
  }

  // ---- the call sends what was approved ----

  lemma ApprovalFixesRelease(s: Sys, s': Sys, j: JobId)
    requires Inv(s) && Kept(s, s') && EntersApproved(s, s', j)
    requires forall v :: v in s.db.variants && v in s'.db.variants ==> s'.db.variants[v] == s.db.variants[v]
    requires forall v :: v in s.db.variants ==> v in s'.db.variants
    ensures !Hist(s', j).release.Unreleased?
    ensures Hist(s', j).release.Chosen? ==>
              var v := Hist(s', j).release.variant;
              s.db.jobs[j].selected == Some(v) && v in s.db.variants
                  && s.db.variants[v].caption == Hist(s', j).release.caption
  {
    assert RowStep(s.db.jobs[j], Hist(s, j), s'.db.jobs[j], Hist(s', j), s.db.now);
    assert JobInv(s, j) && JobInv(s', j);
    hide Inv, Progress, EnteredFrom, WaitInv, SpendsBudget, PhaseOf, LastAsked;
  }

  /** What a call sends is what was approved in state s: the selected variant, its caption and artwork made from it. */
  predicate SendsApproved(s: Sys, j: JobId, sent: PC) {
    && sent.PublishReady? && j in s.db.jobs
    && s.db.jobs[j].selected == Some(sent.variant) && sent.variant in s.db.variants
    && sent.caption == s.db.variants[sent.variant].caption
    && sent.image == Upload(sent.variant, sent.caption)
  }

  lemma SendsWhatWasApproved(actions: seq<Action>, i: nat, k: nat, j: JobId)
    requires i < k < |actions|
    requires EntersApproved(At(actions, i), At(actions, i + 1), j)
    requires CallsPublisher(At(actions, k), actions[k], j)
    ensures SendsApproved(At(actions, i), j, At(actions, k).procs[actions[k].pid].pc)
  {
    var s, s' := At(actions, i), At(actions, i + 1);
    hide At, Kept, Inv, Step, Hist, CallsPublisher;
    AtNext(actions, i);
    AtNext(actions, k);
    StepFrame(s, actions[i], j);
    assert s'.db.variants == s.db.variants;
    ApprovalFixesRelease(s, s', j);
    ReleaseStays(actions, i + 1, k, j);
    CallerAt(At(actions, k), actions[k], j);
  }

  lemma CallerAt(s: Sys, a: Action, j: JobId)
    requires Inv(s) && CallsPublisher(s, a, j)
    ensures var h, pc := Hist(s, j), s.procs[a.pid].pc;
            && pc.PublishReady? && h.release.Chosen? && h.release.variant == pc.variant
            && pc.caption == h.release.caption && pc.image == Upload(pc.variant, pc.caption)
  {
    hide Inv, Step, Hist;
    Caller(s, a, j);
  }

  lemma CallIsReleased(actions: seq<Action>, k: nat, j: JobId)
    requires k < |actions| && CallsPublisher(At(actions, k), actions[k], j)
    ensures actions[k].Run? && actions[k].pid in At(actions, k).procs
    ensures !Hist(At(actions, k), j).release.Unreleased?
  {
    hide At, Kept, Inv, Step, Hist;
    AtNext(actions, k);
    CallerAt(At(actions, k), actions[k], j);
  }

  /** Something is released only after the job entered APPROVED. */
  lemma {:induction false} ReleasedWasApproved(actions: seq<Action>, n: nat, j: JobId)
    requires n <= |actions| && !Hist(At(actions, n), j).release.Unreleased?
    ensures exists i :: 0 <= i < n && EntersApproved(At(actions, i), At(actions, i + 1), j)
  {
    hide At, Hist, Inv, Kept, Step, RowStep, EntersApproved;
    StartsUnreleased(actions, j);
    if n > 0 {
      var m := n - 1;
      AtNext(actions, m);
      if !Hist(At(actions, m), j).release.Unreleased? {
        ReleasedWasApproved(actions, m, j);
      } else {
        ReleaseIsApproval(actions, m, j);
      }
    }
  }

  lemma StartsUnreleased(actions: seq<Action>, j: JobId)
    ensures Hist(At(actions, 0), j).release.Unreleased?
  {
    assert actions[..0] == [];
  }

  lemma ReleaseIsApproval(actions: seq<Action>, m: nat, j: JobId)
    requires m < |actions|
    requires Hist(At(actions, m), j).release.Unreleased? && !Hist(At(actions, m + 1), j).release.Unreleased?
    ensures EntersApproved(At(actions, m), At(actions, m + 1), j)
  {
    hide At, Inv, Kept, Step, EnteredFrom, WaitInv, SpendsBudget, HasSelection, DueBy, PhaseOf, LastAsked, Hist;
    var s, s' := At(actions, m), At(actions, m + 1);
    AtNext(actions, m);
    KeptInv(s, s');
    ReleasedIsPast(s', j);
    StepFrame(s, actions[m], j);
    if j in s.db.jobs { RowNext(actions, m, j); }
  }

  lemma ReleasedIsPast(s: Sys, j: JobId)
    requires Inv(s) && !Hist(s, j).release.Unreleased?
    ensures j in s.db.jobs && s.db.jobs[j].status != New
  {
    if j in s.hist { InvRow(s, j); }
    hide PhaseOf, LastAsked, ProcInv, VariantsInv;
  }

  /**
   Before every call of the publisher the job entered APPROVED, and the call sends the variant
   that was selected then, with the caption that variant had at that moment, and artwork
   rendered from exactly that caption. No hypothesis on the interleaving is needed, although the
   selection is read before the claim and the row after it.
   */
  lemma PublishesWhatWasApproved(actions: seq<Action>, k: nat, j: JobId)
    requires k < |actions| && CallsPublisher(At(actions, k), actions[k], j)
    ensures exists i :: && 0 <= i < k && EntersApproved(At(actions, i), At(actions, i + 1), j)
                        && SendsApproved(At(actions, i), j, At(actions, k).procs[actions[k].pid].pc)
  {
    CallIsReleased(actions, k, j);
    hide *;
    ReleasedWasApproved(actions, k, j);
    var i :| 0 <= i < k && EntersApproved(At(actions, i), At(actions, i + 1), j);
    SendsWhatWasApproved(actions, i, k, j);
  }

  /** Every stored image URL, in every reachable state, was rendered from the caption stored beside it. */
  lemma StoredArtworkMatchesCaption(actions: seq<Action>, v: VariantId)
    requires v in After(actions).db.variants
    ensures var row := After(actions).db.variants[v];
            row.image == Blank || row.image == Upload(v, row.caption)
  {
    AlwaysInv(actions);
    hide JobsInv, ProcsInv, After;
  }

  // ---- what PUBLISHED means ----

  lemma {:induction false} CallHappened(actions: seq<Action>, n: nat, j: JobId)
    requires n <= |actions| && Hist(At(actions, n), j).calls != []
    ensures exists i :: 0 <= i < n && CallsPublisher(At(actions, i), actions[i], j)
                        && Hist(At(actions, i + 1), j).calls == Hist(At(actions, n), j).calls
  {
    assert actions[..0] == [];
    if n == 0 {
    } else {
      var m := n - 1;
      AtNext(actions, m);
      StepFrame(At(actions, m), actions[m], j);
      if Hist(At(actions, m), j).calls != [] {
        CallHappened(actions, m, j);
        HistHasJob(At(actions, m), j);
        hide At, Hist, CallsPublisher, Inv, Kept, Step;
        CallsStay(actions, m, n, j);
      } else {
        hide At, Hist, CallsPublisher, Inv, Kept, Step;
        assert CallsPublisher(At(actions, m), actions[m], j);
      }
    }
  }

  lemma HistHasJob(s: Sys, j: JobId)
    requires Inv(s) && Hist(s, j).calls != []
    ensures j in s.db.jobs
  {
    hide GoodRow, ProcInv;
  }

  lemma RecordedAnswer(s: Sys, a: Action, j: JobId)
    requires Inv(s) && CallsPublisher(s, a, j)
    ensures var calls := Hist(Step(s, a), j).calls;
            calls != [] && (calls[0].media.Some? ==>
                              a.choice.PublishedAs? && calls[0].media == Some(a.choice.receipt.media)
                                  && a.choice.receipt.media != "")
  {
    Caller(s, a, j);
    hide Inv, MediaIdOf, Step;
    CallIsStep(s, a, j);
  }

  lemma CallIsStep(s: Sys, a: Action, j: JobId)
    requires CallsPublisher(s, a, j)
    ensures var p := s.procs[a.pid].pc;
            Step(s, a) == CallPublisher(s, a.pid, p.variant, p.caption, p.image, a.choice)
  {
    hide CallPublisher;
  }

  /**
   A PUBLISHED job made a call that succeeded (by PublisherCalledAtMostOnce its only call) and
   stores the media id that call answered, whoever completed it: the live worker or recovery.
   */
  lemma PublishedStoresTheAnswer(actions: seq<Action>, j: JobId)
    requires j in After(actions).db.jobs && After(actions).db.jobs[j].status == Published
    ensures exists i :: 0 <= i < |actions| && CallsPublisher(At(actions, i), actions[i], j)
                        && actions[i].choice.PublishedAs?
                        && actions[i].choice.receipt.media == After(actions).db.jobs[j].mediaId != ""
  {
    hide After, Hist, CallsPublisher, Kept, Step, Inv;
    AlwaysInv(actions);
    assert actions[..|actions|] == actions;
    var calls := Hist(After(actions), j).calls;
    PublishedHasCalled(After(actions), j);
    CallHappened(actions, |actions|, j);
    var i :| 0 <= i < |actions| && CallsPublisher(At(actions, i), actions[i], j)
             && Hist(At(actions, i + 1), j).calls == calls;
    hide At;
    AtNext(actions, i);
    RecordedAnswer(At(actions, i), actions[i], j);
  }

  lemma PublishedHasCalled(s: Sys, j: JobId)
    requires Inv(s) && j in s.db.jobs && s.db.jobs[j].status == Published
    ensures var calls := Hist(s, j).calls; calls != [] && calls[0].media == Some(s.db.jobs[j].mediaId)
  {
    assert JobInv(s, j);
    hide Inv, RowInv, OperatorInv, ReleaseInv, VariantRefs, LogInv, Hist;
  }

  /** The result of a finished job is final: status, media id, error and times never change again. */
  lemma {:induction false} FinishedIsFinal(actions: seq<Action>, i: nat, k: nat, j: JobId)
    requires i <= k <= |actions| && j in At(actions, i).db.jobs
    requires IsTerminal(At(actions, i).db.jobs[j].status)
    ensures j in At(actions, k).db.jobs
    ensures var before, after := At(actions, i).db.jobs[j], At(actions, k).db.jobs[j];
            after == before.(selected := after.selected)
    decreases k - i
  {
    hide At, Hist, EnteredFrom, WaitInv, SpendsBudget;
    if i < k {
      RowNext(actions, i, j);
      FinishedIsFinal(actions, i + 1, k, j);
    }
  }

  // ---- what an operator has to have done ----

  /** Generate at g, then select v at s, and no generation or other selection after it. */
  predicate Settled(es: seq<OpEvent>, v: VariantId, g: nat, s: nat) {
    && g < s < |es|
    && es[g].Generated? && es[s] == Selected(v)
    && forall k :: s < k < |es| ==> !es[k].Generated? && !es[k].Selected?
  }

  /** Settled, and after the selection a publish or schedule request that was not cancelled. */
  predicate Authorised(es: seq<OpEvent>, v: VariantId, g: nat, s: nat, a: nat) {
    && Settled(es, v, g, s)
    && s < a < |es|
    && (es[a].PublishAsked? || es[a].ScheduleAsked?)
    && forall k :: a < k < |es| ==> !es[k].ScheduleCancelled?
  }

  ghost predicate PhaseMeans(es: seq<OpEvent>) {
    var p := PhaseOf(es);
    && (p.Offered? ==> exists g :: 0 <= g < |es| && es[g].Generated?)
    && (p.Picked? || p.Cleared? ==> exists g, s :: Settled(es, p.variant, g, s))
    && (p.Cleared? ==> exists g, s, a :: Authorised(es, p.variant, g, s, a))
  }

  lemma SettledExtends(front: seq<OpEvent>, e: OpEvent, v: VariantId, g: nat, s: nat)
    requires Settled(front, v, g, s) && !e.Generated? && !e.Selected?
    ensures Settled(front + [e], v, g, s)
  {
  }

  lemma PhaseStep(front: seq<OpEvent>, e: OpEvent)
    requires PhaseMeans(front)
    ensures PhaseMeans(front + [e])
  {
    var es := front + [e];
    var p := PhaseOf(front);
    PhaseOfNoted(front, e);
    hide PhaseOf, LastAsked;
    assert es[|front|] == e && forall k :: 0 <= k < |front| ==> es[k] == front[k];
    if e.Selected? && !p.Idle? {
      var g: nat :| g < |front| && front[g].Generated?;
      assert Settled(es, e.variant, g, |front|);
    } else if (p.Picked? || p.Cleared?) && !e.Generated? {
      var g, s :| Settled(front, p.variant, g, s);
      SettledExtends(front, e, p.variant, g, s);
      if p.Picked? && (e.PublishAsked? || e.ScheduleAsked?) {
        assert Authorised(es, p.variant, g, s, |front|);
      } else if p.Cleared? && !e.ScheduleCancelled? {
        var g', s', a :| Authorised(front, p.variant, g', s', a);
        SettledExtends(front, e, p.variant, g', s');
        assert Authorised(es, p.variant, g', s', a);
      }
    }
  }

  /** The phase folded from the log says what the log contains. */
  lemma {:induction false} PhaseSpeaks(es: seq<OpEvent>)
    ensures PhaseMeans(es)
  {
    if es != [] {
      var front := es[..|es| - 1];
      PhaseSpeaks(front);
      hide PhaseMeans;
      PhaseStep(front, es[|es| - 1]);
      assert es == front + [es[|es| - 1]];
    }
  }

  /**
   No job reaches PUBLISHING unless its operators generated, then selected the variant that is
   being published, with no generation or other selection after it, and then asked to publish
   or schedule and did not take it back. By DecisionsAreOperators nothing else writes that log.
   */
  lemma PublishingWasAuthorised(actions: seq<Action>, j: JobId)
    requires j in After(actions).db.jobs
    requires After(actions).db.jobs[j].status == Publishing || After(actions).db.jobs[j].status == Published
    ensures var h := Hist(After(actions), j);
            h.release.Chosen? && exists g, s, a :: Authorised(h.events, h.release.variant, g, s, a)
  {
    var s := After(actions);
    AlwaysInv(actions);
    assert JobInv(s, j);
    var h := Hist(s, j);
    assert h.release.Chosen? && PhaseOf(h.events) == Cleared(h.release.variant);
    hide GoodRow, Inv, After, Hist, PhaseOf, LastAsked;
    PhaseSpeaks(h.events);
  }

  /**
   The decisions of a job only change by the write of a process that an operator's request
   started; no worker, retry, recovery or promotion adds to them.
   */
  lemma DecisionsAreOperators(actions: seq<Action>, i: nat, j: JobId)
    requires i < |actions| && Hist(At(actions, i + 1), j).events != Hist(At(actions, i), j).events
    ensures OperatorActs(At(actions, i), actions[i], j)
    ensures actions[i].Run? && actions[i].pid in Requested(actions[..i])
  {
    hide At, Kept, Inv, Step, Hist, OperatorActs, Requested;
    AtNext(actions, i);
    StepFrame(At(actions, i), actions[i], j);
    OperatorWritesAreRequested(actions, i, j);
  }

  lemma NoWriteNoDecision(actions: seq<Action>, i: nat, j: JobId)
    requires i < |actions| && !OperatorActs(At(actions, i), actions[i], j)
    ensures Hist(At(actions, i + 1), j).events == Hist(At(actions, i), j).events
  {
    hide At, Hist, OperatorActs, Requested;
    if Hist(At(actions, i + 1), j).events != Hist(At(actions, i), j).events { DecisionsAreOperators(actions, i, j); }
  }

  // ---- scheduled promotion, retry filter ----

  /** A promotion that no operator wrote finds the scheduled time in force at that moment passed. */
  lemma PromotedOnlyWhenDue(actions: seq<Action>, i: nat, j: JobId)
    requires i < |actions| && j in At(actions, i).db.jobs && !OperatorActs(At(actions, i), actions[i], j)
    requires At(actions, i).db.jobs[j].status == Scheduled && EntersApproved(At(actions, i), At(actions, i + 1), j)
    ensures var s := At(actions, i);
            s.db.jobs[j].scheduledAt.Some? && s.db.jobs[j].scheduledAt.value <= s.db.now
  {
    hide At, Inv, Step, Hist, OperatorActs, EnteredFrom, WaitInv, SpendsBudget;
    RowNext(actions, i, j);
    NoWriteNoDecision(actions, i, j);
  }

  /** Action a is the write of a publish request for job j. */
  predicate Approves(s: Sys, a: Action, j: JobId) {
    RunsFor(s, a, j) && s.procs[a.pid].pc.ApproveCommit?
  }

  predicate StillAhead(r: Job, now: Time) {
    r.status == Scheduled && r.scheduledAt.Some? && r.scheduledAt.value > now
  }

  /**
   A job leaves SCHEDULED for APPROVED with its time still ahead if and only if a publish request,
   checked before the job was scheduled, is written while the time is ahead.
   */
  lemma PromotedEarlyIffRequested(actions: seq<Action>, i: nat, j: JobId)
    requires i < |actions| && j in At(actions, i).db.jobs
             && StillAhead(At(actions, i).db.jobs[j], At(actions, i).db.now)
    ensures EntersApproved(At(actions, i), At(actions, i + 1), j) <==> Approves(At(actions, i), actions[i], j)
  {
    hide At, Inv, Kept, Step, Hist, Moves, OperatorActs;
    var s, s' := At(actions, i), At(actions, i + 1);
    AtNext(actions, i);
    ProcsHaveJobs(s);
    StatusMovesByStatement(s, actions[i], j);
    if EntersApproved(s, s', j) {
      if !OperatorActs(s, actions[i], j) {
        PromotedOnlyWhenDue(actions, i, j);
        assert false;
      }
      OperatorsApproveByRequest(s, actions[i], j);
    }
    if Approves(s, actions[i], j) { ApprovalPromotes(s, actions[i], j); }
  }

  lemma ProcsHaveJobs(s: Sys)
    requires Inv(s)
    ensures forall p :: p in s.procs ==> s.procs[p].job in s.db.jobs
  {
    hide JobInv, ProcInv;
  }

  lemma OperatorsApproveByRequest(s: Sys, a: Action, j: JobId)
    requires OperatorActs(s, a, j) && Moves(s.procs[a.pid].pc, Scheduled, Approved)
    ensures Approves(s, a, j)
  {
  }

  lemma ApprovalPromotes(s: Sys, a: Action, j: JobId)
    requires Approves(s, a, j) && j in s.db.jobs && s.db.jobs[j].status == Scheduled
    ensures EntersApproved(s, Step(s, a), j)
  {
    hide ReleaseOf;
  }

  /** A SCHEDULED job always carries a time, and it is the one its operators asked for last. */
  lemma ScheduledAsAsked(actions: seq<Action>, j: JobId)
    requires j in After(actions).db.jobs && After(actions).db.jobs[j].status == Scheduled
    ensures var at := After(actions).db.jobs[j].scheduledAt;
            at.Some? && at == LastAsked(Hist(After(actions), j).events)
  {
    hide Inv, After, Hist, PhaseOf, LastAsked, ReleaseInv, VariantRefs, PublishInv, LogInv;
    AlwaysInv(actions);
    InvRow(After(actions), j);
  }

  lemma InvRow(s: Sys, j: JobId)
    requires Inv(s) && j in s.db.jobs
    ensures JobInv(s, j)
  {
    hide GoodRow, ProcInv;
  }

  /** APPROVED is entered at most once, so a job is promoted and queued for publishing at most once. */
  lemma ApprovedAtMostOnce(actions: seq<Action>, i: nat, k: nat, j: JobId)
    requires i < k < |actions|
    requires EntersApproved(At(actions, i), At(actions, i + 1), j)
    ensures !EntersApproved(At(actions, k), At(actions, k + 1), j)
  {
    hide At, Inv, Step, Hist, EnteredFrom, WaitInv, SpendsBudget, DueBy;
    RowNext(actions, i, j);
    ReleaseStays(actions, i + 1, k, j);
    AtNext(actions, k);
    hide RowStep, Kept;
    if EntersApproved(At(actions, k), At(actions, k + 1), j) {
      UnreleasedBefore(At(actions, k), At(actions, k + 1), j);
      assert false;
    }
  }

  lemma UnreleasedBefore(s: Sys, s': Sys, j: JobId)
    requires Inv(s) && Kept(s, s') && EntersApproved(s, s', j)
    ensures Hist(s, j).release.Unreleased?
  {
    assert JobInv(s, j);
    assert RowStep(s.db.jobs[j], Hist(s, j), s'.db.jobs[j], Hist(s', j), s.db.now);
    hide Inv, Progress, Hist, RowInv, OperatorInv, VariantRefs, PublishInv, LogInv;
    EntryIsFirst(s.db.jobs[j], Hist(s, j), s'.db.jobs[j], Hist(s', j), s.db.now);
  }

  lemma EntryIsFirst(r: Job, h: History, r': Job, h': History, now: Time)
    requires ReleaseInv(r, h, now) && RowStep(r, h, r', h', now)
    requires r.status != Approved && r'.status == Approved
    ensures h.release.Unreleased?
  {
    hide PhaseOf, LastAsked, WaitInv, SpendsBudget, HasSelection, DueBy;
  }

  /** In every reachable state the publish listing returns every APPROVED job: no retry time hides one. */
  lemma ApprovedIsNeverHidden(actions: seq<Action>, j: JobId)
    requires j in After(actions).db.jobs && After(actions).db.jobs[j].status == Approved
    ensures CanList(After(actions).db, Proc(j, PublishListed))
  {
    RetryColumns(actions, j);
    hide After;
  }

  /** The retry columns in every reachable state. */
  lemma RetryColumns(actions: seq<Action>, j: JobId)
    requires j in After(actions).db.jobs
    ensures var r := After(actions).db.jobs[j];
            && r.retries <= MAX_AI_RETRIES
            && (r.retries == MAX_AI_RETRIES ==> r.status == Failed)
            && (r.status == WaitingAI ==> 1 <= r.retries)
            && (PastFirstGate(r.status) ==> r.retries == 0 && r.nextRetryAt <= After(actions).db.now)
  {
    AlwaysInv(actions);
    assert JobInv(After(actions), j);
    hide Inv, PhaseOf, LastAsked, After, ReleaseInv, PublishInv;
  }
}
