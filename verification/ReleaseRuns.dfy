/**
 Runs past review: a job is published; a job is promoted before its time by a publish request
 that was checked before the job was scheduled; a job that was in fact published ends up FAILED
 although nothing was lost and its log says otherwise; and a job is published after it was FAILED.
 */
module ReleaseRuns {
  import opened Wrappers
  import opened JobStatus
  import opened PostTables
  import opened Pipeline
  import opened PipelineInvariant
  import opened PipelineRuns
  import opened PublishTheorems
  import opened StepFrames
  import opened LostPublishes
  import opened WitnessRuns

  const ART := Upload(1, "a")

  /** Job 0 has status st, selected variant 1 with its artwork, and nothing in the log; processes are below n. */
  ghost predicate Staged1(s: Sys, st: Status, n: Pid) {
    && 0 in s.db.jobs && s.db.jobs[0].status == st && s.db.jobs[0].selected == Some(1)
    && s.db.jobs[0].nextRetryAt <= s.db.now == 0
    && 1 in s.db.variants && s.db.variants[1] == Variant(0, 1, "", "a", ART)
    && s.db.logs == [] && s.nextPid == n && forall p :: p in s.procs ==> p < n
  }

  // ---- to a reviewed job ----

  lemma PreviewThree(s: Sys)
    requires 0 in s.db.jobs && s.db.jobs[0].selected == Some(1)
    requires 1 in s.db.variants && s.db.variants[1] == Variant(0, 1, "", "a", Blank)
    requires 4 in s.procs && s.procs[4] == Proc(0, PreviewStart(0, Finish))
    ensures var s' := Step(Step(Step(s, Run(4, Proceed)), Run(4, Proceed)), Run(4, Proceed));
            && s'.db == s.db.(variants := s.db.variants[1 := Variant(0, 1, "", "a", ART)])
            && s'.procs == s.procs - {4} && s'.nextPid == s.nextPid
  {
    var s1 := Step(s, Run(4, Proceed));
    assert s1 == s.(procs := s.procs[4 := Proc(0, PreviewLoaded(1, 0, Finish))]);
    var s2 := Step(s1, Run(4, Proceed));
    assert s2 == s.(procs := s.procs[4 := Proc(0, PreviewRead(1, "a", 0, Finish))]);
  }

  lemma ReviewedJob() returns (actions: seq<Action>)
    ensures Staged1(After(actions), ReadyToPublish, 5)
  {
    hide Step, View;
    actions := [];
    var r := FRESH_JOB.(status := ScoringQueued);
    AfterTwo(actions, Ingest(0), Run(0, Proceed));
    Born(After(actions));
    actions := actions + [Ingest(0)] + [Run(0, Proceed)];
    actions, r := Scored1(actions, r);
    AfterTwo(actions, List(Proc(0, GenListed)), Run(After(actions).nextPid, Proceed));
    GenPair(After(actions), r, 3);
    actions := actions + [List(Proc(0, GenListed))] + [Run(After(actions).nextPid, Proceed)];
    AfterTwo(actions, Run(3, AiVariants(ONE)), Run(3, Proceed));
    GeneratedAndOffered(After(actions), Moved(r, GeneratingVariants, 0), 4, 3);
    actions := actions + [Run(3, AiVariants(ONE))] + [Run(3, Proceed)];
    actions := SelectedAndShown(actions);
  }

  lemma SelectedAndShown(before: seq<Action>) returns (actions: seq<Action>)
    requires var s := After(before);
             && 0 in s.db.jobs && s.db.jobs[0].status == WaitingVariantApproval && OwnsVariant(s.db, 0, 1)
             && s.db.variants[1] == Inserted(0, ONE[0]) && s.db.logs == [] && s.db.now == 0
             && s.db.jobs[0].nextRetryAt == 0 && s.nextPid == 4 && forall q :: q in s.procs ==> q < 4
    ensures Staged1(After(actions), ReadyToPublish, 5)
  {
    hide Step;
    var ask := Request(Proc(0, SelectStart(1, Finish)));
    AfterOne(before, ask);
    AfterTwo(before + [ask], Run(4, Proceed), Run(4, Proceed));
    OperatorReads(After(before), 4);
    actions := before + [ask] + [Run(4, Proceed)] + [Run(4, Proceed)];
    AfterOne(actions, Run(4, Proceed));
    OperatorSelects(After(actions), 4);
    actions := actions + [Run(4, Proceed)];
    PreviewThree(After(actions));
    AfterTwo(actions, Run(4, Proceed), Run(4, Proceed));
    AfterOne(actions + [Run(4, Proceed)] + [Run(4, Proceed)], Run(4, Proceed));
    actions := actions + [Run(4, Proceed)] + [Run(4, Proceed)] + [Run(4, Proceed)];
  }

  // ---- one statement at a time ----

  /** Process p, which works on job 0, moves from its statement to the next. */
  function Onward(s: Sys, p: Pid, next: PC): Sys {
    s.(procs := s.procs[p := Proc(0, next)])
  }

  lemma Starts(s: Sys, pc: PC)
    ensures CanList(s.db, Proc(0, pc)) ==>
            Step(s, List(Proc(0, pc))) == Onward(s, s.nextPid, pc).(nextPid := s.nextPid + 1)
    ensures CanRequest(s.db, Proc(0, pc)) ==>
              Step(s, Request(Proc(0, pc))) == Onward(s, s.nextPid, pc).(nextPid := s.nextPid + 1)
  {
    hide CanList, CanRequest;
  }

  lemma ReadsReview(s: Sys, p: Pid, at: Time, cont: Cont)
    requires p in s.procs && 0 in s.db.jobs && s.db.jobs[0].status == ReadyToPublish && s.db.jobs[0].selected == Some(1)
    ensures s.procs[p] == Proc(0, QueueRead) ==> Step(s, Run(p, Proceed)) == Onward(s, p, ReviewLoaded(1, ThenApprove))
    ensures s.procs[p] == Proc(0, ScheduleRead(at)) ==>
              Step(s, Run(p, Proceed)) == Onward(s, p, ReviewLoaded(1, ThenSchedule(at)))
  {
  }

  lemma SeesArtwork(s: Sys, p: Pid, cont: Cont)
    requires p in s.procs && s.procs[p] == Proc(0, ReviewLoaded(1, cont)) && Resume(cont).Some?
    requires 1 in s.db.variants && s.db.variants[1].image == ART
    ensures Step(s, Run(p, Proceed)) == Onward(s, p, Resume(cont).value)
  {
    hide Resume;
  }

  lemma Approving(s: Sys, p: Pid)
    requires p in s.procs && s.procs[p] == Proc(0, ApproveCommit) && 0 in s.db.jobs
    requires s.db.jobs[0].status == ReadyToPublish || s.db.jobs[0].status == Scheduled
    ensures var s' := Step(s, Run(p, Proceed));
            && s'.db == Put(s.db, 0, Moved(s.db.jobs[0], Approved, s.db.now))
            && s'.procs == s.procs - {p} && s'.nextPid == s.nextPid
  {
    hide ReleaseOf;
  }

  lemma Scheduling(s: Sys, p: Pid, at: Time)
    requires p in s.procs && s.procs[p] == Proc(0, ScheduleCommit(at)) && 0 in s.db.jobs
    requires s.db.jobs[0].status == ReadyToPublish && s.db.jobs[0].selected.Some?
    ensures var s' := Step(s, Run(p, Proceed));
            && s'.db == Put(s.db, 0, Moved(s.db.jobs[0], Scheduled, s.db.now).(scheduledAt := Some(at)))
            && s'.procs == s.procs - {p} && s'.nextPid == s.nextPid
  {
  }

  // ---- promoted before its time ----

  /** A publish request is checked while the job is READY_TO_PUBLISH; only its write is left. */
  lemma RequestChecked(before: seq<Action>) returns (actions: seq<Action>)
    requires Staged1(After(before), ReadyToPublish, 5)
    ensures var s := After(actions);
            Staged1(s, ReadyToPublish, 6) && 5 in s.procs && s.procs[5] == Proc(0, ApproveCommit)
  {
    hide Step;
    var s0 := After(before);
    Starts(s0, QueueRead);
    var s1 := Step(s0, Request(Proc(0, QueueRead)));
    ReadsReview(s1, 5, 0, Finish);
    SeesArtwork(Step(s1, Run(5, Proceed)), 5, ThenApprove);
    AfterTwo(before, Request(Proc(0, QueueRead)), Run(5, Proceed));
    actions := before + [Request(Proc(0, QueueRead))] + [Run(5, Proceed)];
    AfterOne(actions, Run(5, Proceed));
    actions := actions + [Run(5, Proceed)];
  }

  lemma OvertakenBySchedule(before: seq<Action>) returns (actions: seq<Action>)
    requires var s := After(before);
             Staged1(s, ReadyToPublish, 6) && 5 in s.procs && s.procs[5] == Proc(0, ApproveCommit)
    ensures var s := After(actions);
            && 0 in s.db.jobs && StillAhead(s.db.jobs[0], s.db.now)
            && 5 in s.procs && s.procs[5] == Proc(0, ApproveCommit)
  {
    hide Step;
    var s0 := After(before);
    Starts(s0, ScheduleRead(MINUTE));
    var s1 := Step(s0, Request(Proc(0, ScheduleRead(MINUTE))));
    ReadsReview(s1, 6, MINUTE, Finish);
    var s2 := Step(s1, Run(6, Proceed));
    SeesArtwork(s2, 6, ThenSchedule(MINUTE));
    Scheduling(Step(s2, Run(6, Proceed)), 6, MINUTE);
    AfterTwo(before, Request(Proc(0, ScheduleRead(MINUTE))), Run(6, Proceed));
    actions := before + [Request(Proc(0, ScheduleRead(MINUTE)))] + [Run(6, Proceed)];
    AfterTwo(actions, Run(6, Proceed), Run(6, Proceed));
    actions := actions + [Run(6, Proceed)] + [Run(6, Proceed)];
  }

  lemma WritesEarly(actions: seq<Action>)
    requires var s := After(actions);
             && 0 in s.db.jobs && StillAhead(s.db.jobs[0], s.db.now)
             && 5 in s.procs && s.procs[5] == Proc(0, ApproveCommit)
    ensures var s' := After(actions + [Run(5, Proceed)]); EntersApproved(After(actions), s', 0)
  {
    hide Step;
    AfterOne(actions, Run(5, Proceed));
    Approving(After(actions), 5);
  }

  /**
   A job leaves SCHEDULED a minute before its time: the publish request was checked while the job
   was READY_TO_PUBLISH, the job was then scheduled, and the request was written.
   */
  lemma PromotedEarlyHappens()
    ensures exists actions: seq<Action>, i :: && 0 <= i < |actions| && 0 in At(actions, i).db.jobs
              && StillAhead(At(actions, i).db.jobs[0], At(actions, i).db.now)
              && EntersApproved(At(actions, i), At(actions, i + 1), 0)
  {
    hide After, EntersApproved, StillAhead, Staged1;
    var actions := ReviewedJob();
    actions := RequestChecked(actions);
    actions := OvertakenBySchedule(actions);
    WritesEarly(actions);
    var longer := actions + [Run(5, Proceed)];
    var i := |actions|;
    assert longer[..i] == actions && longer[..i + 1] == longer;
    assert At(longer, i) == After(actions) && At(longer, i + 1) == After(longer);
  }

  // ---- published ----

  const RECEIPT := Receipt("m", "{}", Response("m", ""))

  lemma Loads(s: Sys, p: Pid)
    requires p in s.procs && s.procs[p] == Proc(0, PublishListed) && 0 in s.db.jobs && s.db.jobs[0].selected == Some(1)
    ensures Step(s, Run(p, Proceed)) == Onward(s, p, PublishLoaded(1))
  {
  }

  lemma Claims(s: Sys, p: Pid)
    requires p in s.procs && s.procs[p] == Proc(0, PublishLoaded(1)) && 0 in s.db.jobs
             && s.db.jobs[0].status == Approved
    ensures var s' := Step(s, Run(p, Proceed));
            && s'.db == Put(s.db, 0, Moved(s.db.jobs[0], Publishing, s.db.now))
            && s'.procs == s.procs[p := Proc(0, PublishClaimed(1))] && s'.nextPid == s.nextPid
            && Hist(s', 0).calls == Hist(s, 0).calls
  {
  }

  lemma ReadsBack(s: Sys, p: Pid)
    requires p in s.procs && 1 in s.db.variants && s.db.variants[1] == Variant(0, 1, "", "a", ART)
    ensures s.procs[p] == Proc(0, PublishClaimed(1)) ==>
            Step(s, Run(p, Proceed)) == Onward(s, p, PublishRead(1, "a", ART))
    ensures s.procs[p] == Proc(0, PublishRead(1, "a", ART)) ==>
              Step(s, Run(p, Proceed)) == Onward(s, p, PublishReady(1, "a", ART))
  {
  }

  lemma Calls(s: Sys, p: Pid)
    requires p in s.procs && s.procs[p] == Proc(0, PublishReady(1, "a", ART)) && Hist(s, 0).calls == []
    ensures var s' := Step(s, Run(p, PublishedAs(RECEIPT)));
            && s'.db == s.db && s'.nextPid == s.nextPid
            && s'.procs == s.procs[p := Proc(0, PublishReturned(Some(RECEIPT), ""))]
            && Hist(s', 0).calls == [Call(1, "a", ART, Some("m"))]
  {
  }

  const ENTRY := PublishLog(0, "instagram", Some("{}"), Some(Response("m", "")), true, "")

  lemma Logs(s: Sys, p: Pid)
    requires p in s.procs && s.procs[p] == Proc(0, PublishReturned(Some(RECEIPT), "")) && s.db.logs == []
    ensures var s' := Step(s, Run(p, Proceed));
            && s' == Onward(s, p, PublishLogged("m")).(db := s.db.(logs := [ENTRY]))
            && SuccessfulPublishMediaID(s'.db.logs, 0) == Found("m")
  {
    assert LogEntry(0, Some(RECEIPT), "") == ENTRY;
  }

  lemma Marks(s: Sys, p: Pid)
    requires p in s.procs && 0 in s.db.jobs && s.db.jobs[0].status == Publishing
    requires s.procs[p] == Proc(0, PublishLogged("m")) || s.procs[p] == Proc(0, StaleLogged(None))
    ensures var s' := Step(s, Run(p, Proceed));
            && 0 in s'.db.jobs && s'.db.logs == s.db.logs
            && s'.db.jobs[0].status == (if s.procs[p].pc.PublishLogged? then Published else Failed)
            && s'.procs == s.procs - {p} && Hist(s', 0).calls == Hist(s, 0).calls
  {
  }

  lemma LooksInVain(s: Sys, p: Pid)
    requires p in s.procs && s.procs[p] == Proc(0, StaleListed(Publishing)) && s.db.logs == []
    ensures Step(s, Run(p, Proceed)) == Onward(s, p, StaleLogged(None))
  {
  }

  /** Job 0 is being published by process 6, which has the answer and has written nothing yet. */
  ghost predicate JustPublished(s: Sys) {
    && 0 in s.db.jobs && s.db.jobs[0].status == Publishing && s.db.logs == []
    && 6 in s.procs && s.procs[6] == Proc(0, PublishReturned(Some(RECEIPT), "")) && s.nextPid == 7
    && Hist(s, 0).calls == [Call(1, "a", ART, Some("m"))]
  }

  lemma ApprovedJob() returns (actions: seq<Action>)
    ensures Staged1(After(actions), Approved, 6)
  {
    hide Step;
    actions := ReviewedJob();
    actions := RequestChecked(actions);
    AfterOne(actions, Run(5, Proceed));
    Approving(After(actions), 5);
    actions := actions + [Run(5, Proceed)];
  }

  lemma NoCallYet(actions: seq<Action>)
    requires Staged1(After(actions), Approved, 6)
    ensures Hist(After(actions), 0).calls == []
  {
    hide After;
    AlwaysInv(actions);
    InvRow(After(actions), 0);
    hide Inv, RowInv, OperatorInv, ReleaseInv, VariantRefs, LogInv, Hist;
  }

  lemma ClaimedJob() returns (actions: seq<Action>)
    ensures var s := After(actions);
            && 0 in s.db.jobs && s.db.jobs[0].status == Publishing && s.db.logs == []
            && 1 in s.db.variants && s.db.variants[1] == Variant(0, 1, "", "a", ART)
            && 6 in s.procs && s.procs[6] == Proc(0, PublishClaimed(1)) && s.nextPid == 7 && Hist(s, 0).calls == []
  {
    hide Step;
    actions := ApprovedJob();
    NoCallYet(actions);
    var s0 := After(actions);
    Starts(s0, PublishListed);
    var s1 := Step(s0, List(Proc(0, PublishListed)));
    Loads(s1, 6);
    Claims(Step(s1, Run(6, Proceed)), 6);
    AfterTwo(actions, List(Proc(0, PublishListed)), Run(6, Proceed));
    actions := actions + [List(Proc(0, PublishListed))] + [Run(6, Proceed)];
    AfterOne(actions, Run(6, Proceed));
    actions := actions + [Run(6, Proceed)];
  }

  lemma CalledJob() returns (actions: seq<Action>)
    ensures JustPublished(After(actions))
  {
    hide Step;
    actions := ClaimedJob();
    var s0 := After(actions);
    ReadsBack(s0, 6);
    var s1 := Step(s0, Run(6, Proceed));
    ReadsBack(s1, 6);
    Calls(Step(s1, Run(6, Proceed)), 6);
    AfterTwo(actions, Run(6, Proceed), Run(6, Proceed));
    actions := actions + [Run(6, Proceed)] + [Run(6, Proceed)];
    AfterOne(actions, Run(6, PublishedAs(RECEIPT)));
    actions := actions + [Run(6, PublishedAs(RECEIPT))];
  }

  /** PUBLISHED is reached, so the promises about published jobs are not empty. */
  lemma PublishedHappens()
    ensures exists actions :: 0 in After(actions).db.jobs && After(actions).db.jobs[0].status == Published
  {
    hide Step;
    var actions := CalledJob();
    Logs(After(actions), 6);
    Marks(Step(After(actions), Run(6, Proceed)), 6);
    AfterTwo(actions, Run(6, Proceed), Run(6, Proceed));
    actions := actions + [Run(6, Proceed)] + [Run(6, Proceed)];
  }

  // ---- published and failed ----

  lemma LookedTooEarly() returns (actions: seq<Action>, m: nat)
    ensures m < |actions| && LooksUp(At(actions, m), actions[m], 0) && !actions[m].choice.StatementLost?
    ensures var s := After(actions);
            && 0 in s.db.jobs && s.db.jobs[0].status == Publishing
                  && SuccessfulPublishMediaID(s.db.logs, 0) == Found("m")
            && Hist(s, 0).calls == [Call(1, "a", ART, Some("m"))]
            && 7 in s.procs && s.procs[7] == Proc(0, StaleLogged(None))
  {
    hide Step;
    actions := CalledJob();
    var s0 := After(actions);
    Starts(s0, StaleListed(Publishing));
    AfterOne(actions, List(Proc(0, StaleListed(Publishing))));
    actions := actions + [List(Proc(0, StaleListed(Publishing)))];
    m := |actions|;
    LooksInVain(After(actions), 7);
    Logs(Step(After(actions), Run(7, Proceed)), 6);
    AfterTwo(actions, Run(7, Proceed), Run(6, Proceed));
    var longer := actions + [Run(7, Proceed)] + [Run(6, Proceed)];
    assert longer[..m] == actions && longer[m] == Run(7, Proceed);
    hide SuccessfulPublishMediaID;
    actions := longer;
  }

  /**
   Nothing is lost and the log can be read, yet a job that was published ends up FAILED: recovery
   took the live worker for stale and looked before it had written its success.
   */
  lemma PublishedThenFailedHappens()
    ensures exists actions: seq<Action>, m, i :: && 0 <= m < i < |actions|
              && LooksUp(At(actions, m), actions[m], 0) && !actions[m].choice.StatementLost?
              && SuccessfulPublishMediaID(At(actions, i).db.logs, 0) == Found("m")
              && 0 in At(actions, i).db.jobs && At(actions, i).db.jobs[0].status == Publishing
              && Overrules(At(actions, i), actions[i], 0)
  {
    hide After, LooksUp, SuccessfulPublishMediaID;
    var actions, m := LookedTooEarly();
    var last := Run(7, Proceed);
    var longer, i := actions + [last], |actions|;
    assert longer[..i] == actions && longer[..m] == actions[..m] && longer[m] == actions[m] && longer[i] == last;
    assert At(longer, m) == At(actions, m) && At(longer, i) == After(actions);
    assert Overrules(At(longer, i), longer[i], 0);
    hide Overrules;
  }

  // ---- failed, then published ----

  /** The live worker has rendered; recovery took it for stale and failed the job meanwhile. */
  lemma FailedMeanwhile() returns (actions: seq<Action>)
    ensures var s := After(actions);
            && 0 in s.db.jobs && s.db.jobs[0].status == Failed && Hist(s, 0).calls == []
            && 6 in s.procs && s.procs[6] == Proc(0, PublishReady(1, "a", ART))
  {
    hide Step;
    actions := ClaimedJob();
    var s0 := After(actions);
    ReadsBack(s0, 6);
    ReadsBack(Step(s0, Run(6, Proceed)), 6);
    AfterTwo(actions, Run(6, Proceed), Run(6, Proceed));
    actions := actions + [Run(6, Proceed)] + [Run(6, Proceed)];
    Starts(After(actions), StaleListed(Publishing));
    AfterOne(actions, List(Proc(0, StaleListed(Publishing))));
    actions := actions + [List(Proc(0, StaleListed(Publishing)))];
    LooksInVain(After(actions), 7);
    Marks(Step(After(actions), Run(7, Proceed)), 7);
    AfterTwo(actions, Run(7, Proceed), Run(7, Proceed));
    actions := actions + [Run(7, Proceed)] + [Run(7, Proceed)];
  }

  /** The publisher is called, and answers, for a job that is FAILED already and stays so. */
  lemma PublishedAfterFailedHappens()
    ensures exists actions: seq<Action>, i :: && 0 <= i < |actions|
              && CallsPublisher(At(actions, i), actions[i], 0) && actions[i].choice == PublishedAs(RECEIPT)
              && 0 in At(actions, i).db.jobs && At(actions, i).db.jobs[0].status == Failed
              && Hist(At(actions, i + 1), 0).calls == [Call(1, "a", ART, Some("m"))]
  {
    hide Step;
    var actions := FailedMeanwhile();
    var last := Run(6, PublishedAs(RECEIPT));
    var longer, i := actions + [last], |actions|;
    Calls(After(actions), 6);
    AfterOne(actions, last);
    assert longer[..i] == actions && longer[i] == last && longer[..i + 1] == longer;
    hide After, Hist;
    assert At(longer, i) == After(actions) && At(longer, i + 1) == After(longer);
    assert CallsPublisher(At(longer, i), longer[i], 0);
  }
}
