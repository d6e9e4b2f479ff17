/**
 The notices about finished jobs and about jobs that wait for an approval, with the job
 protocol and the outbox running side by side on one clock. A worker that moved a job
 enqueues its notice; repair passes enqueue it again and again; delivered messages are purged
 after a month. The notice of a finished job is nevertheless created at most once, because
 repair looks back a week only and a finished row's time of completion never moves. The notice
 of a waiting job is created once if the job leaves its gate within the retention.
 */
module NoticeDedupe {
  import opened Wrappers
  import opened JobStatus
  import PostTables
  import Pipeline
  import PipelineInvariant
  import PipelineRuns
  import StepFrames
  import opened OutboxTable

  type JobId = PostTables.JobId

  const DAY: Time := 24 * 60 * MINUTE
  const LOOKBACK := 7 * DAY
  const RETENTION := 30 * DAY
  // How long a worker or a repair pass may take from reading the clock to the enqueue.
  const GAP := RETENTION - LOOKBACK

  /** Somebody who looked at time seen, found something to report and is about to enqueue it. */
  datatype Notifier = Notifier(key: Key, seen: Time)

  datatype Event =
    | Work(a: Pipeline.Action) // anything the job protocol does; its ticks move the one clock
    | See(job: JobId, asOf: Time) // a worker that just finished the job, or a repair pass that lists it
    | Ask(key: Key) // a worker that just moved the job to a gate, or a repair pass that lists it there
    | Announce(n: nat)
    | Vanish(n: nat)
    | EnqueueOther(key: Key, payload: Payload)
    | Lease(id: MsgId)
    | Sent(id: MsgId)
    | Refuse(id: MsgId, attempts: nat, error: string)
    | Purge(cutoff: Time)

  datatype World = World(
    pipe: Pipeline.Sys,
    box: Outbox,
    notifiers: map<nat, Notifier>,
    nextN: nat,
    created: map<Key, nat>) // how often a key was stored; nobody reads it

  const START := World(Pipeline.START, Outbox(map[], 1, 0), map[], 0, map[])

  predicate Finished(s: Status) {
    s == Published || s == Failed
  }

  function NoticeKey(job: JobId, s: Status): Key {
    if s == Published then PublishedNotice(job) else FailedNotice(job)
  }

  /** The status in which a job waits for the approval a key asks for. */
  function Gate(key: Key): Option<Status> {
    match key
    case FirstApproval(_) => Some(WaitingFirstApproval)
    case VariantContent(_, _) => Some(WaitingVariantApproval)
    case VariantApproval(_, _) => Some(WaitingVariantApproval)
    case _ => None
  }

  function Created(w: World, key: Key): nat {
    if key in w.created then w.created[key] else 0
  }

  /** What a notice says does not matter here. */
  function Announced(w: World, n: nat): World
    requires n in w.notifiers
  {
    var key := w.notifiers[n].key;
    w.(box := Insert(w.box, key, Encoded(Notification("", "", Some(key)))),
       notifiers := w.notifiers - {n},
       created := if KeyTaken(w.box.rows, key) then w.created else w.created[key := Created(w, key) + 1])
  }

  /**
   The listing filter of a repair pass that read the clock at asOf; a worker that has just
   finished the job meets it too, with the time of completion.
   */
  predicate Visible(w: World, job: JobId, asOf: Time) {
    && job in w.pipe.db.jobs && Finished(w.pipe.db.jobs[job].status)
    && asOf <= w.pipe.db.now && asOf <= w.pipe.db.jobs[job].updatedAt + LOOKBACK
  }

  /** Waiting jobs are listed however long they have waited. Which variants a pass asks about is left open. */
  predicate AtGate(w: World, key: Key) {
    Gate(key).Some? && key.job in w.pipe.db.jobs && w.pipe.db.jobs[key.job].status == Gate(key).value
  }

  function Noticed(w: World, n: Notifier): World {
    w.(notifiers := w.notifiers[w.nextN := n], nextN := w.nextN + 1)
  }

  /** The keys of notices that neither a finished nor a waiting job repeats. */
  predicate OneOff(key: Key) {
    Gate(key).None? && !key.PublishedNotice? && !key.FailedNotice?
  }

  function Step(w: World, e: Event): World {
    match e
    case Work(a) =>
      var pipe := Pipeline.Step(w.pipe, a);
      w.(pipe := pipe, box := w.box.(now := pipe.db.now))
    case See(job, asOf) =>
      if Visible(w, job, asOf) then Noticed(w, Notifier(NoticeKey(job, w.pipe.db.jobs[job].status), asOf)) else w
    case Ask(key) => if AtGate(w, key) then Noticed(w, Notifier(key, w.pipe.db.now)) else w
    case Announce(n) => if n in w.notifiers then Announced(w, n) else w
    case Vanish(n) => w.(notifiers := w.notifiers - {n})
    case EnqueueOther(key, payload) => if OneOff(key) then w.(box := Insert(w.box, key, payload)) else w
    case Lease(id) => if Due(w.box, id) then w.(box := Claim(w.box, id)) else w
    case Sent(id) => w.(box := MarkSent(w.box, id))
    case Refuse(id, attempts, error) => if attempts >= 1 then w.(box := MarkFailed(w.box, id, attempts, error)) else w
    case Purge(cutoff) => if cutoff + RETENTION <= w.box.now then w.(box := PurgeSent(w.box, cutoff)) else w
  }

  function After(events: seq<Event>): World {
    if events == [] then START
    else Step(After(events[..|events| - 1]), events[|events| - 1])
  }

  /** Event e enqueues a notice with this key. */
  predicate Announces(w: World, e: Event, key: Key) {
    e.Announce? && e.n in w.notifiers && w.notifiers[e.n].key == key
  }

  /** Whoever enqueues this key had looked less than the limit before. */
  ghost predicate AllWithin(events: seq<Event>, key: Key, limit: Time) {
    forall i :: 0 <= i < |events| ==>
      var w := After(events[..i]);
      Announces(w, events[i], key) ==> w.pipe.db.now < w.notifiers[events[i].n].seen + limit
  }

  // ---- one key, reported from time base on ----

  ghost predicate RowsOf(w: World, key: Key, base: Time) {
    forall id :: id in w.box.rows && w.box.rows[id].key == key ==>
      Created(w, key) == 1 && (w.box.rows[id].sentAt.Some? ==> base <= w.box.rows[id].sentAt.value)
  }

  /** The key was created at most once, not before base, and is still taken unless the retention has passed. */
  ghost predicate Story(w: World, key: Key, base: Time) {
    && w.box.now == w.pipe.db.now && IdsBelow(w.box)
    && RowsOf(w, key, base)
    && Created(w, key) <= 1
    && (Created(w, key) == 1 ==> base <= w.box.now && (KeyTaken(w.box.rows, key) || base + RETENTION < w.box.now))
  }

  lemma SameKeys(rows: map<MsgId, Row>, rows': map<MsgId, Row>, key: Key)
    requires rows.Keys == rows'.Keys && forall id :: id in rows ==> rows[id].key == rows'[id].key
    ensures KeyTaken(rows, key) <==> KeyTaken(rows', key)
  {
    if KeyTaken(rows, key) {
      var id :| id in rows && rows[id].key == key;
      assert id in rows' && rows'[id].key == key;
    }
  }

  /** Rewriting one row without touching its key, and its sentAt only to the present. */
  lemma RowRewrite(w: World, id: MsgId, r': Row, key: Key, base: Time)
    requires Story(w, key, base)
    requires id in w.box.rows && r'.key == w.box.rows[id].key
    requires r'.sentAt == w.box.rows[id].sentAt || r'.sentAt == Some(w.box.now)
    ensures Story(w.(box := w.box.(rows := w.box.rows[id := r'])), key, base)
  {
    SameKeys(w.box.rows, w.box.rows[id := r'], key);
    hide KeyTaken;
  }

  /** What is purged was sent a whole retention ago, and that was after base. */
  lemma PurgeKeeps(w: World, cutoff: Time, key: Key, base: Time)
    requires Story(w, key, base) && cutoff + RETENTION <= w.box.now
    ensures Story(w.(box := PurgeSent(w.box, cutoff)), key, base)
  {
    var w' := w.(box := PurgeSent(w.box, cutoff));
    if Created(w, key) == 1 && KeyTaken(w.box.rows, key) {
      var id :| id in w.box.rows && w.box.rows[id].key == key;
      if !SentBefore(w.box.rows[id], cutoff) {
        assert id in w'.box.rows && w'.box.rows[id].key == key;
      }
    }
  }

  /** A key that was taken stays taken, and only the key stored becomes taken. */
  lemma InsertTakes(o: Outbox, key: Key, payload: Payload, k: Key)
    requires IdsBelow(o)
    ensures IdsBelow(Insert(o, key, payload))
    ensures KeyTaken(Insert(o, key, payload).rows, k) <==> KeyTaken(o.rows, k) || k == key
  {
    var rows' := Insert(o, key, payload).rows;
    if !KeyTaken(o.rows, key) {
      assert rows'[o.nextId].key == key;
      if KeyTaken(o.rows, k) {
        var id :| id in o.rows && o.rows[id].key == k;
        assert rows'[id].key == k;
      }
    }
  }

  /** Storing another key. */
  lemma OtherInsertKeeps(w: World, other: Key, payload: Payload, created: map<Key, nat>, key: Key, base: Time)
    requires Story(w, key, base) && other != key
    requires Created(w.(created := created), key) == Created(w, key)
    ensures Story(w.(box := Insert(w.box, other, payload), created := created), key, base)
  {
    InsertTakes(w.box, other, payload, key);
    hide KeyTaken;
  }

  /** Within the retention the key is still taken if it was ever created. */
  lemma AnnounceKeeps(w: World, n: nat, key: Key, base: Time)
    requires Story(w, key, base) && n in w.notifiers
    requires w.notifiers[n].key == key ==> base <= w.box.now <= base + RETENTION
    ensures Story(Announced(w, n), key, base)
  {
    var stored := w.notifiers[n].key;
    var payload := Encoded(Notification("", "", Some(stored)));
    if stored == key {
      InsertTakes(w.box, key, payload, key);
      assert !KeyTaken(w.box.rows, key) ==> Created(w, key) == 0;
      hide KeyTaken;
    } else {
      OtherInsertKeeps(w, stored, payload, Announced(w, n).created, key, base);
    }
  }

  lemma BoxKeeps(w: World, e: Event, key: Key, base: Time)
    requires Story(w, key, base) && !e.Work? && !e.Announce?
    requires Gate(key).Some? || key.PublishedNotice? || key.FailedNotice?
    ensures Story(Step(w, e), key, base)
  {
    hide KeyTaken, Backoff, Pipeline.Step;
    match e
    case See(_, _) =>
    case Ask(_) =>
    case Vanish(_) =>
    case EnqueueOther(other, payload) =>
      if OneOff(other) { OtherInsertKeeps(w, other, payload, w.created, key, base); }
    case Lease(id) =>
      if Due(w.box, id) { RowRewrite(w, id, Claimed(w.box.rows[id], w.box.now), key, base); }
    case Sent(id) =>
      if id in w.box.rows { RowRewrite(w, id, MarkSent(w.box, id).rows[id], key, base); }
    case Refuse(id, attempts, error) =>
      if id in w.box.rows && attempts >= 1 {
        RowRewrite(w, id, Refused(w.box.rows[id], attempts, error, w.box.now), key, base);
      }
    case Purge(cutoff) =>
      if cutoff + RETENTION <= w.box.now { PurgeKeeps(w, cutoff, key, base); }
  }

  lemma WorkKeeps(w: World, a: Pipeline.Action, key: Key, base: Time)
    requires Story(w, key, base)
    ensures Story(Step(w, Work(a)), key, base)
  {
    hide Pipeline.Step, KeyTaken, Pipeline.Hist;
    StepFrames.StepFrame(w.pipe, a, 0);
  }

  /** Every event keeps the story of a key, if the key is only announced within the retention from base. */
  lemma StoryGoesOn(w: World, e: Event, key: Key, base: Time)
    requires Story(w, key, base)
    requires Gate(key).Some? || key.PublishedNotice? || key.FailedNotice?
    requires Announces(w, e, key) ==> base <= w.box.now <= base + RETENTION
    ensures Story(Step(w, e), key, base)
  {
    hide Story, Pipeline.Step, Announced;
    if e.Work? {
      WorkKeeps(w, e.a, key, base);
    } else if e.Announce? {
      if e.n in w.notifiers { AnnounceKeeps(w, e.n, key, base); }
    } else {
      BoxKeeps(w, e, key, base);
    }
  }

  // ---- finished jobs ----

  predicate IsNotice(key: Key, j: JobId) {
    key == PublishedNotice(j) || key == FailedNotice(j)
  }

  /** Notices are only about finished jobs, and under the key of how they finished. */
  predicate Matches(w: World, j: JobId, key: Key) {
    j in w.pipe.db.jobs && Finished(w.pipe.db.jobs[j].status) && key == NoticeKey(j, w.pipe.db.jobs[j].status)
  }

  ghost predicate Untold(w: World, key: Key) {
    Created(w, key) == 0 && !KeyTaken(w.box.rows, key) && w.box.now == w.pipe.db.now && IdsBelow(w.box)
  }

  /** The story of a finished job begins when it finished; before that there is none. */
  ghost predicate JobStory(w: World, j: JobId, key: Key) {
    if Matches(w, j, key) then
      && w.pipe.db.jobs[j].updatedAt <= w.pipe.db.now
      && Story(w, key, w.pipe.db.jobs[j].updatedAt)
      && (forall n :: n in w.notifiers && w.notifiers[n].key == key ==>
            w.notifiers[n].seen <= w.pipe.db.jobs[j].updatedAt + LOOKBACK)
    else
      Untold(w, key) && forall n :: n in w.notifiers ==> w.notifiers[n].key != key
  }

  /** The clock moves forward, and a finished job keeps its status and its time of completion. */
  lemma FinishedFrozen(s: Pipeline.Sys, a: Pipeline.Action, j: JobId)
    requires PipelineInvariant.Inv(s)
    ensures var s' := Pipeline.Step(s, a);
            && PipelineInvariant.Inv(s') && s.db.now <= s'.db.now
            && (j in s'.db.jobs ==> s'.db.jobs[j].updatedAt <= s'.db.now)
            && (j in s.db.jobs && Finished(s.db.jobs[j].status) ==>
                  && j in s'.db.jobs && s'.db.jobs[j].status == s.db.jobs[j].status
                  && s'.db.jobs[j].updatedAt == s.db.jobs[j].updatedAt)
  {
    hide Pipeline.Step, PipelineInvariant.Inv, PipelineInvariant.WaitInv, PipelineInvariant.SpendsBudget, Pipeline.Hist;
    hide JobStatus.EnteredFrom, PipelineInvariant.HasSelection;
    PipelineRuns.StepKeeps(s, a);
    StepFrames.StepFrame(s, a, j);
    if j in Pipeline.Step(s, a).db.jobs { FinishedEarlier(Pipeline.Step(s, a), j); }
  }

  lemma FinishedEarlier(s: Pipeline.Sys, j: JobId)
    requires PipelineInvariant.Inv(s) && j in s.db.jobs
    ensures s.db.jobs[j].updatedAt <= s.db.now
  {
    assert PipelineInvariant.JobInv(s, j);
    hide PipelineInvariant.Inv, PipelineInvariant.PhaseOf, PipelineInvariant.LastAsked, PipelineInvariant.LogInv;
  }

  lemma FinishedWorkKeeps(w: World, a: Pipeline.Action, j: JobId, key: Key)
    requires PipelineInvariant.Inv(w.pipe) && IsNotice(key, j) && JobStory(w, j, key)
    ensures PipelineInvariant.Inv(Step(w, Work(a)).pipe) && JobStory(Step(w, Work(a)), j, key)
  {
    hide Pipeline.Step, PipelineInvariant.Inv, KeyTaken, Story;
    FinishedFrozen(w.pipe, a, j);
    var w' := Step(w, Work(a));
    if Matches(w, j, key) {
      WorkKeeps(w, a, key, w.pipe.db.jobs[j].updatedAt);
    } else if Matches(w', j, key) {
      UntoldIsStory(w', key, w'.pipe.db.jobs[j].updatedAt);
    }
  }

  lemma UntoldIsStory(w: World, key: Key, base: Time)
    requires Untold(w, key)
    ensures Story(w, key, base)
  {
  }

  /** Nobody announces a finished job in time after its notice was purged. */
  lemma FinishedEventKeeps(w: World, e: Event, j: JobId, key: Key)
    requires IsNotice(key, j) && JobStory(w, j, key) && !e.Work?
    requires Announces(w, e, key) ==> w.pipe.db.now < w.notifiers[e.n].seen + GAP
    ensures JobStory(Step(w, e), j, key)
  {
    hide Pipeline.Step, Insert, Claim, MarkSent, MarkFailed, PurgeSent, KeyTaken, Story;
    if Matches(w, j, key) {
      var base := w.pipe.db.jobs[j].updatedAt;
      StoryNow(w, key, base);
      StoryGoesOn(w, e, key, base);
    } else {
      UntoldGoesOn(w, e, key);
    }
  }

  lemma StoryNow(w: World, key: Key, base: Time)
    requires Story(w, key, base)
    ensures w.box.now == w.pipe.db.now
  {
  }

  lemma UntoldGoesOn(w: World, e: Event, key: Key)
    requires Untold(w, key) && !e.Work? && (key.PublishedNotice? || key.FailedNotice?)
    requires !Announces(w, e, key)
    ensures Untold(Step(w, e), key)
  {
    hide Pipeline.Step, KeyTaken, Story;
    UntoldIsStory(w, key, w.box.now);
    StoryGoesOn(w, e, key, w.box.now);
    UntoldBox(w, e, key);
    StoryUntold(Step(w, e), key, w.box.now);
  }

  /** An event that does not announce the key does not create it. */
  lemma UntoldBox(w: World, e: Event, key: Key)
    requires !Announces(w, e, key)
    ensures Created(Step(w, e), key) == Created(w, key)
  {
    hide Pipeline.Step;
  }

  lemma StoryUntold(w: World, key: Key, base: Time)
    requires Story(w, key, base) && Created(w, key) == 0
    ensures Untold(w, key)
  {
  }

  lemma {:induction false} AlwaysJobStory(events: seq<Event>, j: JobId, key: Key)
    requires IsNotice(key, j) && AllWithin(events, key, GAP)
    ensures PipelineInvariant.Inv(After(events).pipe) && JobStory(After(events), j, key)
  {
    if events != [] {
      hide Step, JobStory, PipelineInvariant.Inv, Announces;
      var front, e := events[..|events| - 1], events[|events| - 1];
      ShorterWithin(events, key, GAP);
      AlwaysJobStory(front, j, key);
      if e.Work? { FinishedWorkKeeps(After(front), e.a, j, key); }
      else { FinishedEventKeeps(After(front), e, j, key); WorkOnlyMovesPipe(After(front), e); }
    }
  }

  lemma WorkOnlyMovesPipe(w: World, e: Event)
    requires !e.Work?
    ensures Step(w, e).pipe == w.pipe
  {
    hide Pipeline.Step;
  }

  lemma ShorterWithin(events: seq<Event>, key: Key, limit: Time)
    requires AllWithin(events, key, limit) && events != []
    ensures AllWithin(events[..|events| - 1], key, limit)
    ensures var w, e := After(events[..|events| - 1]), events[|events| - 1];
            Announces(w, e, key) ==> w.pipe.db.now < w.notifiers[e.n].seen + limit
  {
    hide After;
    var front := events[..|events| - 1];
    forall i | 0 <= i < |front|
      ensures var w := After(front[..i]);
              Announces(w, front[i], key) ==> w.pipe.db.now < w.notifiers[front[i].n].seen + limit
    {
      assert front[..i] == events[..i];
    }
  }

  /**
   However often repair passes run, messages are delivered and purged, workers crash and the job
   protocol goes on, at most one notice is ever created about a finished job, under the one key
   that says how it finished, if every pass enqueues within 23 days of reading the clock.
   */
  lemma NoticeCreatedOnce(events: seq<Event>, j: JobId)
    requires AllWithin(events, PublishedNotice(j), 23 * DAY) && AllWithin(events, FailedNotice(j), 23 * DAY)
    ensures Created(After(events), PublishedNotice(j)) + Created(After(events), FailedNotice(j)) <= 1
    ensures forall key :: IsNotice(key, j) && Created(After(events), key) == 1 ==> Matches(After(events), j, key)
  {
    hide After, PipelineInvariant.Inv, KeyTaken;
    AlwaysJobStory(events, j, PublishedNotice(j));
    AlwaysJobStory(events, j, FailedNotice(j));
  }

  // ---- waiting jobs ----

  /** Somebody finds the job at its gate and will ask with this key. */
  predicate Asks(w: World, e: Event, key: Key) {
    e == Ask(key) && AtGate(w, key)
  }

  /** Whoever asks with this key has found the job at its gate between these two times. */
  ghost predicate AskedDuring(events: seq<Event>, key: Key, from: Time, to: Time) {
    forall i :: 0 <= i < |events| ==>
      var w := After(events[..i]);
      Asks(w, events[i], key) ==> from <= w.pipe.db.now <= to
  }

  ghost predicate GateStory(w: World, key: Key, from: Time, to: Time) {
    && Story(w, key, from)
    && forall n :: n in w.notifiers && w.notifiers[n].key == key ==>
          from <= w.notifiers[n].seen <= to && w.notifiers[n].seen <= w.pipe.db.now
  }

  lemma GateStoryGoesOn(w: World, e: Event, key: Key, from: Time, to: Time, limit: Time)
    requires Gate(key).Some? && GateStory(w, key, from, to)
    requires Asks(w, e, key) ==> from <= w.pipe.db.now <= to
    requires to + limit <= from + RETENTION
    requires Announces(w, e, key) ==> w.pipe.db.now < w.notifiers[e.n].seen + limit
    ensures GateStory(Step(w, e), key, from, to)
  {
    hide Pipeline.Step, Insert, Claim, MarkSent, MarkFailed, PurgeSent, KeyTaken, Story, Pipeline.Hist;
    StoryNow(w, key, from);
    StoryGoesOn(w, e, key, from);
    if e.Work? { StepFrames.StepFrame(w.pipe, e.a, 0); }
  }

  lemma {:induction false} AlwaysGateStory(events: seq<Event>, key: Key, from: Time, to: Time, limit: Time)
    requires Gate(key).Some? && AskedDuring(events, key, from, to) && to + limit <= from + RETENTION
    requires AllWithin(events, key, limit)
    ensures GateStory(After(events), key, from, to)
  {
    if events != [] {
      hide Step, GateStory, Announces, Asks;
      var front, e := events[..|events| - 1], events[|events| - 1];
      ShorterWithin(events, key, limit);
      forall i | 0 <= i < |front|
        ensures var w := After(front[..i]); Asks(w, front[i], key) ==> from <= w.pipe.db.now <= to
      {
        assert front[..i] == events[..i];
      }
      AlwaysGateStory(front, key, from, to, limit);
      GateStoryGoesOn(After(front), e, key, from, to, limit);
    }
  }

  /**
   The notice of a waiting job is created at most once if everybody who asks with its key finds the
   job at its gate within the retention of the first who does, less the time a pass takes. Repair
   does not look at how long the job has waited, so the condition is needed, as
   RemindedTwiceHappens shows.
   */
  lemma ReminderCreatedOnce(events: seq<Event>, key: Key, from: Time, to: Time, limit: Time)
    requires Gate(key).Some? && AskedDuring(events, key, from, to) && to + limit <= from + 30 * DAY
    requires AllWithin(events, key, limit)
    ensures Created(After(events), key) <= 1
  {
    hide After, KeyTaken;
    AlwaysGateStory(events, key, from, to, limit);
  }

  /** The variant a key is about. */
  function VariantOf(key: Key): Option<PostTables.VariantId> {
    match key
    case VariantContent(_, v) => Some(v)
    case VariantApproval(_, v) => Some(v)
    case _ => None
  }

  /** The job waits for the approval of the set of variants that the key is about. */
  predicate WaitsWith(w: World, key: Key) {
    AtGate(w, key) && VariantOf(key).Some? && PostTables.OwnsVariant(w.pipe.db, key.job, VariantOf(key).value)
  }

  /** Nobody asks about a set of variants that is not stored. */
  ghost predicate AsksAboutStored(events: seq<Event>, key: Key) {
    forall i :: 0 <= i < |events| ==>
      var w := After(events[..i]);
      Asks(w, events[i], key) ==> WaitsWith(w, key)
  }

  /** The job waits for the approval of this set of variants only between these two times. */
  ghost predicate WaitsWithDuring(events: seq<Event>, key: Key, from: Time, to: Time) {
    forall i :: 0 <= i <= |events| ==>
      var w := After(events[..i]);
      WaitsWith(w, key) ==> from <= w.pipe.db.now <= to
  }

  /**
   A notice about a set of variants is created at most once if the job waits for its approval with
   that set for no longer than the retention, less the time a pass takes, however often and how
   long it waits with other sets.
   */
  lemma VariantNoticeCreatedOnce(events: seq<Event>, key: Key, from: Time, to: Time, limit: Time)
    requires VariantOf(key).Some? && AsksAboutStored(events, key) && WaitsWithDuring(events, key, from, to)
    requires to + limit <= from + RETENTION && AllWithin(events, key, limit)
    ensures Created(After(events), key) <= 1
  {
    hide After, AllWithin, Created, Asks, WaitsWith;
    ReminderCreatedOnce(events, key, from, to, limit);
  }
}
