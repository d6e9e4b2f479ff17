/** A run in which the notice of a job that waits too long for its first approval is created twice. */
module ApprovalReminders {
  import opened Wrappers
  import opened JobStatus
  import PostTables
  import Pipeline
  import WitnessRuns
  import opened OutboxTable
  import opened NoticeDedupe

  /** The job protocol alone. */
  function Works(actions: seq<Pipeline.Action>): seq<Event> {
    seq(|actions|, i requires 0 <= i < |actions| => Work(actions[i]))
  }

  lemma {:induction false} WorksAlone(actions: seq<Pipeline.Action>)
    ensures var pipe := Pipeline.After(actions);
            After(Works(actions)) == World(pipe, Outbox(map[], 1, pipe.db.now), map[], 0, map[])
  {
    hide Pipeline.Step;
    if actions != [] {
      var front := actions[..|actions| - 1];
      WorksAlone(front);
      assert Works(actions)[..|actions| - 1] == Works(front);
    }
  }

  lemma AfterOne(events: seq<Event>, e: Event)
    ensures After(events + [e]) == Step(After(events), e)
  {
    assert (events + [e])[..|events|] == events;
  }

  lemma WaitingJob() returns (actions: seq<Pipeline.Action>)
    ensures var db := Pipeline.After(actions).db;
            0 in db.jobs && db.jobs[0].status == WaitingFirstApproval && db.now == 0
  {
    hide Pipeline.Step, WitnessRuns.View;
    actions := [];
    var r := PostTables.FRESH_JOB.(status := ScoringQueued);
    WitnessRuns.AfterTwo(actions, Pipeline.Ingest(0), Pipeline.Run(0, Pipeline.Proceed));
    WitnessRuns.Born(Pipeline.After(actions));
    actions := actions + [Pipeline.Ingest(0)] + [Pipeline.Run(0, Pipeline.Proceed)];
    var list := Pipeline.List(Pipeline.Proc(0, Pipeline.ScoreListed));
    var run := Pipeline.Run(Pipeline.After(actions).nextPid, Pipeline.Proceed);
    WitnessRuns.AfterTwo(actions, list, run);
    WitnessRuns.ScorePair(Pipeline.After(actions), r, 1);
    actions := actions + [list] + [run];
    WitnessRuns.AfterTwo(actions, Pipeline.Run(1, WitnessRuns.SCORED), Pipeline.Run(1, Pipeline.Proceed));
    WitnessRuns.ScoredTwice(Pipeline.After(actions), PostTables.Moved(r, Scoring, 0), 2, 1);
    actions := actions + [Pipeline.Run(1, WitnessRuns.SCORED)] + [Pipeline.Run(1, Pipeline.Proceed)];
    WaitsForFirst(Pipeline.After(actions), PostTables.Moved(r, Scoring, 0));
  }

  lemma WaitsForFirst(s: Pipeline.Sys, r: PostTables.Job)
    requires WitnessRuns.View(s,
               PostTables.Moved(PostTables.Staged(r, WitnessRuns.SCORE, s.db.now), WaitingFirstApproval, s.db.now), 2)
    ensures 0 in s.db.jobs && s.db.jobs[0].status == WaitingFirstApproval
  {
  }

  const KEY := FirstApproval(0)

  /** Somebody sees the job waiting and enqueues its notice at once. */
  function Reminded(w: World): World {
    Step(Step(w, Ask(KEY)), Announce(w.nextN))
  }

  lemma ReminderIsCreated(w: World)
    requires AtGate(w, KEY) && !KeyTaken(w.box.rows, KEY)
    ensures var w' := Reminded(w);
            && w'.pipe == w.pipe && w'.nextN == w.nextN + 1 && Created(w', KEY) == Created(w, KEY) + 1
            && w'.box == w.box.(nextId := w.box.nextId + 1, rows := w'.box.rows)
            && w'.box.rows
               == w.box.rows[w.box.nextId := Fresh(KEY, Encoded(Notification("", "", Some(KEY))), w.box.now)]
  {
    hide KeyTaken;
  }

  /** The only notice is sent at once, and purged after the retention. */
  function SentAndPurged(w: World): World {
    Step(Step(Step(w, Sent(1)), Work(Pipeline.Tick(RETENTION + 1))), Purge(1))
  }

  lemma NoticeIsGone(w: World)
    requires w.box.now == 0 == w.pipe.db.now && w.box.rows.Keys == {1}
    requires AtGate(w, KEY)
    ensures var w' := SentAndPurged(w);
            AtGate(w', KEY) && w'.box.rows == map[] && w'.created == w.created && w'.nextN == w.nextN
  {
  }

  /** One more event; if it announces the key, it does so at once. */
  lemma Grow(events: seq<Event>, e: Event)
    requires AllWithin(events, KEY, 1)
    requires Announces(After(events), e, KEY) ==> After(events).pipe.db.now == After(events).notifiers[e.n].seen
    ensures After(events + [e]) == Step(After(events), e) && AllWithin(events + [e], KEY, 1)
  {
    hide Step;
    AfterOne(events, e);
    var longer := events + [e];
    hide After;
    forall i | 0 <= i < |longer|
      ensures var w := After(longer[..i]);
              Announces(w, longer[i], KEY) ==> w.pipe.db.now < w.notifiers[longer[i].n].seen + 1
    {
      if i < |events| { assert longer[..i] == events[..i] && longer[i] == events[i]; }
      else { assert longer[..i] == events; }
    }
  }

  lemma WorksAreQuiet(actions: seq<Pipeline.Action>)
    ensures AllWithin(Works(actions), KEY, 1)
  {
    hide After;
  }

  lemma RemindNow(events: seq<Event>) returns (more: seq<Event>)
    requires AllWithin(events, KEY, 1) && AtGate(After(events), KEY)
    ensures After(more) == Reminded(After(events)) && AllWithin(more, KEY, 1)
  {
    hide After, AllWithin;
    Grow(events, Ask(KEY));
    Grow(events + [Ask(KEY)], Announce(After(events).nextN));
    more := events + [Ask(KEY)] + [Announce(After(events).nextN)];
  }

  lemma WaitAMonth(events: seq<Event>) returns (more: seq<Event>)
    requires AllWithin(events, KEY, 1)
    ensures After(more) == SentAndPurged(After(events)) && AllWithin(more, KEY, 1)
  {
    hide After, AllWithin, Step;
    var tick := Work(Pipeline.Tick(RETENTION + 1));
    Grow(events, Sent(1));
    Grow(events + [Sent(1)], tick);
    Grow(events + [Sent(1)] + [tick], Purge(1));
    more := events + [Sent(1)] + [tick] + [Purge(1)];
  }

  /** The notice of a waiting job is created twice although everybody enqueues at once. */
  lemma RemindedTwiceHappens()
    ensures exists events :: Created(After(events), KEY) == 2 && AllWithin(events, KEY, 1)
  {
    hide Pipeline.After, Pipeline.Step, KeyTaken, After, AllWithin, Step, Reminded, SentAndPurged;
    var actions := WaitingJob();
    WorksAlone(actions);
    WorksAreQuiet(actions);
    var e0 := Works(actions);
    NothingTaken(After(e0).box.rows);
    ReminderIsCreated(After(e0));
    var e1 := RemindNow(e0);
    NoticeIsGone(After(e1));
    var e2 := WaitAMonth(e1);
    NothingTaken(After(e2).box.rows);
    ReminderIsCreated(After(e2));
    var e3 := RemindNow(e2);
    assert Created(After(e3), KEY) == 2;
  }

  lemma NothingTaken(rows: map<MsgId, Row>)
    requires rows == map[]
    ensures !KeyTaken(rows, KEY)
  {
  }
}
