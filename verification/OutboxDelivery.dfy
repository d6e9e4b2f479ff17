/**
 Delivery as a protocol: any number of workers lease messages, send them and record what
 came of it, while others enqueue and purge, and any worker may vanish. Nothing but the
 lease keeps two workers off one message, so the guarantees rest on one hypothesis: a
 worker that has a message is done with it before its lease runs out.
 */
module OutboxDelivery {
  import opened Wrappers
  import opened OutboxTable

  type Wid = nat
  type Attempt = n: int | 1 <= n witness 1

  /** A worker that leased a message, before and after its send came back; error None is a success. */
  datatype Worker =
    | Sending(id: MsgId, attempts: Attempt, lease: Time)
    | Answered(id: MsgId, attempts: Attempt, lease: Time, error: Option<string>)

  datatype Action =
    | Tick(seconds: Time)
    | Enqueue(key: Key, payload: Payload)
    | Lease(id: MsgId)
    | Send(w: Wid, error: Option<string>)
    | Record(w: Wid)
    | Purge(cutoff: Time)
    | Crash(w: Wid)

  /** What happened to a message so far; no worker reads it. */
  datatype Past = Past(sends: nat, delivered: nat, crashes: nat, firstFailure: Option<Time>, lastLease: Time)

  const NOTHING_YET := Past(0, 0, 0, None, 0)

  datatype Sys = Sys(box: Outbox, past: map<MsgId, Past>, workers: map<Wid, Worker>, nextW: Wid)

  const START := Sys(Outbox(map[], 1, 0), map[], map[], 0)

  function PastOf(s: Sys, id: MsgId): Past {
    if id in s.past then s.past[id] else NOTHING_YET
  }

  /** Skipping rows locked by a concurrent claim, a claim may lease any due message. */
  function LeaseStep(s: Sys, id: MsgId): Sys {
    if !Due(s.box, id) then s
    else if s.box.rows[id].payload.Garbled? then s.(box := Claim(s.box, id))
    else
      Sys(Claim(s.box, id),
          s.past[id := PastOf(s, id).(lastLease := s.box.now)],
          s.workers[s.nextW := Sending(id, s.box.rows[id].attempts + 1, s.box.now + MINUTE)],
          s.nextW + 1)
  }

  function SendStep(s: Sys, w: Wid, error: Option<string>): Sys
    requires w in s.workers && s.workers[w].Sending?
  {
    var m := s.workers[w];
    var p := PastOf(s, m.id);
    s.(workers := s.workers[w := Answered(m.id, m.attempts, m.lease, error)],
       past := s.past[m.id := p.(sends := p.sends + 1, delivered := p.delivered + if error.None? then 1 else 0)])
  }

  function RecordStep(s: Sys, w: Wid): Sys
    requires w in s.workers && s.workers[w].Answered?
  {
    var m := s.workers[w];
    var p := PastOf(s, m.id);
    var gone := s.(workers := s.workers - {w});
    if m.error.None? then gone.(box := MarkSent(s.box, m.id))
    else
      gone.(box := MarkFailed(s.box, m.id, m.attempts, m.error.value),
            past := s.past[m.id := p.(firstFailure :=
                      if p.firstFailure.Some? then p.firstFailure else Some(s.box.now))])
  }

  function CrashStep(s: Sys, w: Wid): Sys
    requires w in s.workers
  {
    var id := s.workers[w].id;
    var p := PastOf(s, id);
    s.(workers := s.workers - {w}, past := s.past[id := p.(crashes := p.crashes + 1)])
  }

  function Step(s: Sys, a: Action): Sys {
    match a
    case Tick(seconds) => s.(box := s.box.(now := s.box.now + seconds))
    case Enqueue(key, payload) => s.(box := Insert(s.box, key, payload))
    case Lease(id) => LeaseStep(s, id)
    case Send(w, error) => if w in s.workers && s.workers[w].Sending? then SendStep(s, w, error) else s
    case Record(w) => if w in s.workers && s.workers[w].Answered? then RecordStep(s, w) else s
    case Purge(cutoff) => s.(box := PurgeSent(s.box, cutoff))
    case Crash(w) => if w in s.workers then CrashStep(s, w) else s
  }

  function After(actions: seq<Action>): Sys {
    if actions == [] then START
    else Step(After(actions[..|actions| - 1]), actions[|actions| - 1])
  }

  predicate Has(s: Sys, w: Wid, id: MsgId) {
    w in s.workers && s.workers[w].id == id
  }

  /** No worker has message id beyond its lease. */
  ghost predicate InTime(s: Sys, id: MsgId) {
    forall w: Wid :: Has(s, w, id) ==> s.box.now <= s.workers[w].lease
  }

  /** Every worker that ever has message id is done with it, or gone, before its lease runs out. */
  ghost predicate Timely(actions: seq<Action>, id: MsgId) {
    forall n :: 0 <= n <= |actions| ==> InTime(After(actions[..n]), id)
  }

  // ---- the invariant of one message ----

  /** The delays after the first k failures. */
  function WaitSum(k: nat): Time {
    if k == 0 then 0 else WaitSum(k - 1) + Backoff(k)
  }

  predicate HeldRow(r: Row, m: Worker, p: Past) {
    && Open(r) && r.payload.Encoded? && r.lockedUntil == Some(m.lease)
    && r.attempts == m.attempts && 1 <= r.attempts <= MAX_ATTEMPTS + p.crashes
    && p.sends + (if m.Sending? then 1 else 0) <= r.attempts <= p.sends + p.crashes + (if m.Sending? then 1 else 0)
    && (p.crashes == 0 ==>
          && p.delivered == (if m.Answered? && m.error.None? then 1 else 0)
          && (p.firstFailure.Some? <==> r.attempts >= 2)
          && (r.attempts >= 2 ==> p.firstFailure.value + WaitSum(r.attempts - 1) <= p.lastLease))
  }

  predicate RestingRow(r: Row, p: Past) {
    && Open(r)
    && r.attempts < MAX_ATTEMPTS + p.crashes
    && p.sends <= r.attempts <= p.sends + p.crashes
    && (p.crashes == 0 ==>
          && p.delivered == 0
          && (p.firstFailure.Some? <==> r.attempts >= 1)
          && (r.attempts >= 1 ==> p.firstFailure.value + WaitSum(r.attempts) <= r.nextAttemptAt))
  }

  predicate ClosedRow(r: Row, p: Past) {
    && (r.sentAt.Some? <==> r.deadAt.None?)
    && p.sends <= r.attempts <= p.sends + p.crashes
    && r.attempts <= MAX_ATTEMPTS + p.crashes
    && (r.sentAt.Some? && p.crashes == 0 ==> p.delivered == 1)
    && (r.deadAt.Some? && r.payload.Encoded? ==> MAX_ATTEMPTS <= r.attempts)
    && (r.deadAt.Some? && p.crashes == 0 ==> p.delivered == 0)
    && (r.deadAt.Some? && r.payload.Encoded? && p.crashes == 0 ==>
          p.firstFailure.Some? && p.firstFailure.value + WaitSum(MAX_ATTEMPTS - 1) <= p.lastLease)
  }

  ghost predicate MsgInv(s: Sys, id: MsgId) {
    && (id >= s.box.nextId ==> id !in s.box.rows && PastOf(s, id) == NOTHING_YET)
    && (forall w: Wid, w': Wid :: Has(s, w, id) && Has(s, w', id) ==> w == w')
    && (forall w: Wid :: Has(s, w, id) ==>
          w < s.nextW && id in s.box.rows && HeldRow(s.box.rows[id], s.workers[w], PastOf(s, id)))
    && (id in s.box.rows ==>
          || (exists w: Wid :: Has(s, w, id))
          || RestingRow(s.box.rows[id], PastOf(s, id))
          || ClosedRow(s.box.rows[id], PastOf(s, id)))
    && (PastOf(s, id).crashes == 0 ==> PastOf(s, id).delivered <= 1)
    && PastOf(s, id).lastLease <= s.box.now
  }

  // ---- one step ----

  lemma LeaseKeeps(s: Sys, k: MsgId, id: MsgId)
    requires MsgInv(s, id) && InTime(s, id)
    ensures MsgInv(LeaseStep(s, k), id)
  {
    var s' := LeaseStep(s, k);
    if Due(s.box, k) && k == id {
      assert forall w: Wid :: !Has(s, w, id);
      if s.box.rows[id].payload.Encoded? {
        assert Has(s', s.nextW, id);
      }
    } else if Due(s.box, k) {
      SameMessage(s, s', id);
    }
  }

  /** An action on another message. */
  lemma SameMessage(s: Sys, s': Sys, id: MsgId)
    requires MsgInv(s, id)
    requires s'.box.nextId == s.box.nextId && s'.box.now == s.box.now && s.nextW <= s'.nextW
             && PastOf(s', id) == PastOf(s, id)
    requires id in s'.box.rows <==> id in s.box.rows
    requires id in s.box.rows ==> s'.box.rows[id] == s.box.rows[id]
    requires forall w: Wid :: Has(s, w, id) <==> Has(s', w, id)
    requires forall w: Wid :: Has(s, w, id) && Has(s', w, id) ==> s'.workers[w] == s.workers[w]
    ensures MsgInv(s', id)
  {
    hide HeldRow, RestingRow, ClosedRow;
  }

  lemma SendKeeps(s: Sys, w: Wid, error: Option<string>, id: MsgId)
    requires MsgInv(s, id) && w in s.workers && s.workers[w].Sending?
    ensures MsgInv(SendStep(s, w, error), id)
  {
    var s' := SendStep(s, w, error);
    assert forall v: Wid :: Has(s', v, id) <==> Has(s, v, id);
    if Has(s, w, id) {
      assert Has(s', w, id);
    } else {
      SameMessage(s, s', id);
    }
  }

  lemma RecordKeeps(s: Sys, w: Wid, id: MsgId)
    requires MsgInv(s, id) && w in s.workers && s.workers[w].Answered?
    ensures MsgInv(RecordStep(s, w), id)
  {
    var s' := RecordStep(s, w);
    assert forall v: Wid :: Has(s', v, id) <==> Has(s, v, id) && v != w;
    if Has(s, w, id) {
      assert forall v: Wid :: !Has(s', v, id);
    } else {
      SameMessage(s, s', id);
    }
  }

  lemma CrashKeeps(s: Sys, w: Wid, id: MsgId)
    requires MsgInv(s, id) && w in s.workers
    ensures MsgInv(CrashStep(s, w), id)
  {
    var s' := CrashStep(s, w);
    assert forall v: Wid :: Has(s', v, id) <==> Has(s, v, id) && v != w;
    if Has(s, w, id) {
      assert forall v: Wid :: !Has(s', v, id);
    } else {
      SameMessage(s, s', id);
    }
  }

  lemma EnqueueKeeps(s: Sys, key: Key, payload: Payload, id: MsgId)
    requires MsgInv(s, id)
    ensures MsgInv(Step(s, Enqueue(key, payload)), id)
  {
    hide KeyTaken;
    var s' := Step(s, Enqueue(key, payload));
    assert forall w: Wid :: Has(s', w, id) <==> Has(s, w, id);
  }

  lemma TickKeeps(s: Sys, seconds: Time, id: MsgId)
    requires MsgInv(s, id)
    ensures MsgInv(Step(s, Tick(seconds)), id)
  {
    assert forall w: Wid :: Has(Step(s, Tick(seconds)), w, id) <==> Has(s, w, id);
  }

  lemma PurgeKeeps(s: Sys, cutoff: Time, id: MsgId)
    requires MsgInv(s, id)
    ensures MsgInv(Step(s, Purge(cutoff)), id)
  {
    var s' := Step(s, Purge(cutoff));
    assert forall w: Wid :: Has(s', w, id) <==> Has(s, w, id);
  }

  lemma StepKeeps(s: Sys, a: Action, id: MsgId)
    requires MsgInv(s, id) && InTime(s, id)
    ensures MsgInv(Step(s, a), id)
  {
    hide MsgInv, InTime, LeaseStep, SendStep, RecordStep, CrashStep, Insert, PurgeSent;
    match a
    case Tick(seconds) => TickKeeps(s, seconds, id);
    case Enqueue(key, payload) => EnqueueKeeps(s, key, payload, id);
    case Lease(k) => LeaseKeeps(s, k, id);
    case Send(w, error) => if w in s.workers && s.workers[w].Sending? { SendKeeps(s, w, error, id); }
    case Record(w) => if w in s.workers && s.workers[w].Answered? { RecordKeeps(s, w, id); }
    case Purge(cutoff) => PurgeKeeps(s, cutoff, id);
    case Crash(w) => if w in s.workers { CrashKeeps(s, w, id); }
  }

  // ---- every run ----

  lemma {:induction false} AlwaysMsgInv(actions: seq<Action>, id: MsgId)
    requires Timely(actions, id)
    ensures MsgInv(After(actions), id)
  {
    if actions == [] {
    } else {
      var front := actions[..|actions| - 1];
      forall n | 0 <= n <= |front|
        ensures InTime(After(front[..n]), id)
      {
        assert front[..n] == actions[..n];
      }
      AlwaysMsgInv(front, id);
      assert front[..|front|] == front;
      hide MsgInv, InTime;
      StepKeeps(After(front), actions[|actions| - 1], id);
    }
  }

  /** Timely deliveries never overlap: no two workers have the same message, and who has it can still mark it. */
  lemma HeldByOne(actions: seq<Action>, id: MsgId, w: Wid, w': Wid)
    requires Timely(actions, id)
    requires Has(After(actions), w, id) && Has(After(actions), w', id)
    ensures w == w'
    ensures id in After(actions).box.rows && Open(After(actions).box.rows[id])
  {
    AlwaysMsgInv(actions, id);
    hide After;
  }

  /** A message is never both delivered and given up. */
  lemma SentXorDead(actions: seq<Action>, id: MsgId)
    requires Timely(actions, id) && id in After(actions).box.rows
    ensures var r := After(actions).box.rows[id]; r.sentAt.None? || r.deadAt.None?
  {
    AlwaysMsgInv(actions, id);
    hide After;
  }

  /**
   If no worker that had the message crashed: attempts counts the sends (one more while a send is
   on its way) and never exceeds ten; a decodable message is given up exactly after ten sends of
   which none succeeded; a message marked sent went out exactly once, and none goes out twice.
   */
  lemma AttemptsAreSends(actions: seq<Action>, id: MsgId)
    requires Timely(actions, id) && PastOf(After(actions), id).crashes == 0
    ensures var s := After(actions);
            var p := PastOf(s, id);
            && p.delivered <= 1
            && (id in s.box.rows ==>
                  var r := s.box.rows[id];
                  && r.attempts <= MAX_ATTEMPTS
                  && r.attempts == p.sends + (if exists w: Wid :: Has(s, w, id) && s.workers[w].Sending? then 1 else 0)
                  && (r.payload.Encoded? && r.deadAt.Some? ==> p.sends == MAX_ATTEMPTS && p.delivered == 0)
                  && (Open(r) && (forall w: Wid :: !Has(s, w, id)) ==> p.sends < MAX_ATTEMPTS && p.delivered == 0)
                  && (r.sentAt.Some? ==> p.delivered == 1))
  {
    AlwaysMsgInv(actions, id);
    hide After, WaitSum;
  }

  lemma BackoffAddsUp()
    ensures WaitSum(MAX_ATTEMPTS - 1) == 255 * MINUTE
  {
    assert WaitSum(3) == 7 * MINUTE;
    assert WaitSum(5) == 31 * MINUTE;
    assert WaitSum(7) == 127 * MINUTE;
  }

  /** A message given up had its last, tenth, lease at least 255 minutes after its first failure was recorded. */
  lemma GivenUpAfterFourHours(actions: seq<Action>, id: MsgId)
    requires Timely(actions, id) && PastOf(After(actions), id).crashes == 0
    requires id in After(actions).box.rows
    requires var r := After(actions).box.rows[id]; r.payload.Encoded? && r.deadAt.Some?
    ensures var p := PastOf(After(actions), id);
            p.firstFailure.Some? && p.firstFailure.value + 255 * MINUTE <= p.lastLease
  {
    AlwaysMsgInv(actions, id);
    BackoffAddsUp();
    hide After, WaitSum;
  }

  /**
   With crashes, but still no late worker: a send is never counted without an attempt, and ten
   attempts plus the crashes bound them.
   */
  lemma CrashesCostAttempts(actions: seq<Action>, id: MsgId)
    requires Timely(actions, id) && id in After(actions).box.rows
    ensures var r, p := After(actions).box.rows[id], PastOf(After(actions), id);
            p.sends <= r.attempts <= p.sends + p.crashes + 1 && r.attempts <= MAX_ATTEMPTS + p.crashes
  {
    AlwaysMsgInv(actions, id);
    hide After, WaitSum;
  }

  /**
   The hypothesis is needed, since marking looks at no lease: a worker that is late shares its
   message with another, and the message goes out twice.
   */
  lemma LateWorkerDeliversTwice()
    ensures exists actions: seq<Action>, id ::
              && !Timely(actions, id) && PastOf(After(actions), id).crashes == 0
              && PastOf(After(actions), id).delivered == 2
  {
    var n := Notification("", "", None);
    var a1 := [Enqueue(FirstApproval(1), Encoded(n))];
    var a2 := a1 + [Lease(1)];
    var a3 := a2 + [Tick(MINUTE + 1)];
    var a4 := a3 + [Lease(1)];
    var a5 := a4 + [Send(0, None)];
    var a6 := a5 + [Send(1, None)];
    assert a6[..3] == a3;
    AfterOne([], a1[0]);
    AfterOne(a1, Lease(1));
    AfterOne(a2, Tick(MINUTE + 1));
    AfterOne(a3, Lease(1));
    AfterOne(a4, Send(0, None));
    AfterOne(a5, Send(1, None));
    assert [] + [a1[0]] == a1;
    hide After;
    assert Has(After(a3), 0, 1);
    assert !Timely(a6, 1);
    assert PastOf(After(a6), 1).delivered == 2;
  }

  lemma AfterOne(actions: seq<Action>, a: Action)
    ensures After(actions + [a]) == Step(After(actions), a)
    ensures After([]) == START
  {
    assert (actions + [a])[..|actions|] == actions;
  }
}
