/** The outbox object, and the pass that delivers what is due through it. */
module OutboxRepository {
  import opened Wrappers
  import opened OutboxTable

  datatype Leased = Nothing | Undecodable(id: MsgId) | Message(id: MsgId, notification: Notification, attempts: nat)

  /** What the caller of a claim is handed. */
  function Lease(o: Outbox, id: MsgId): Leased
    requires id in o.rows
  {
    match o.rows[id].payload
    case Garbled => Undecodable(id)
    case Encoded(n) => Message(id, n, o.rows[id].attempts + 1)
  }

  lemma {:induction false} LeastExists(ids: set<MsgId>) returns (id: MsgId)
    requires ids != {}
    ensures id in ids && forall k :: k in ids ==> id <= k
  {
    var one :| one in ids;
    var others := ids - {one};
    assert forall k :: k in ids ==> k == one || k in others;
    if others == {} { return one; }
    id := LeastExists(others);
    if one <= id { id := one; }
  }

  class Repository {
    var rows: map<MsgId, Row>
    var nextId: MsgId
    // The clock belongs to the environment: no method of this class moves it.
    var now: Time

    constructor ()
      ensures Contents() == Outbox(map[], 1, 0)
    {
      rows, nextId, now := map[], 1, 0;
    }

    ghost function Contents(): Outbox
      reads this
    {
      Outbox(rows, nextId, now)
    }

    method Enqueue(key: Key, n: Notification)
      modifies this`rows, this`nextId
      ensures Contents() == Insert(old(Contents()), key, Encoded(Keyed(n, key)))
      ensures nextId == old(nextId) + 1
      ensures rows == if exists id :: id in old(rows) && old(rows)[id].key == key then old(rows)
                      else
                        var stored := if n.idempotencyKey.Some? then n else n.(idempotencyKey := Some(key));
                        old(rows)[old(nextId) := Row(key, Encoded(stored), 0, now, None, None, None, "")]
    {
      var stored := n;
      if stored.idempotencyKey.None? {
        stored := stored.(idempotencyKey := Some(key));
      }
      if !exists id :: id in rows && rows[id].key == key {
        rows := rows[nextId := Row(key, Encoded(stored), 0, now, None, None, None, "")];
      }
      nextId := nextId + 1;
    }

    /** Leases the due message with the least id. */
    method ClaimDue() returns (m: Leased)
      modifies this`rows
      ensures m.Nothing? ==> rows == old(rows) && forall id :: !Due(Contents(), id)
      ensures !m.Nothing? ==>
                && Due(old(Contents()), m.id) && (forall id :: Due(old(Contents()), id) ==> m.id <= id)
                && m == Lease(old(Contents()), m.id)
                && Contents() == Claim(old(Contents()), m.id)
      ensures m.Nothing? ==> forall id :: id in rows ==>
                var r := rows[id];
                !(r.sentAt.None? && r.deadAt.None? && r.nextAttemptAt <= now
                  && (r.lockedUntil.None? || r.lockedUntil.value < now))
      ensures !m.Nothing? ==>
                && m.id in old(rows)
                && var r := old(rows)[m.id];
                   && r.sentAt.None? && r.deadAt.None? && r.nextAttemptAt <= now
                   && (r.lockedUntil.None? || r.lockedUntil.value < now)
                   && (m.Undecodable? <==> r.payload.Garbled?)
                   && (m.Message? ==> r.payload == Encoded(m.notification) && m.attempts == r.attempts + 1)
                   && rows == old(rows)[m.id :=
                        if m.Message? then r.(lockedUntil := Some(now + 60), attempts := m.attempts)
                        else r.(deadAt := Some(now), lockedUntil := None, lastError := "invalid stored payload")]
    {
      var due := set id | id in rows && DueRow(rows[id], now);
      assert forall id :: Due(Contents(), id) ==> id in due;
      if due == {} {
        assert forall id :: id in rows ==> id !in due;
        return Nothing;
      }
      ghost var least := LeastExists(due);
      var id :| id in due && forall k :: k in due ==> id <= k;
      var r := rows[id];
      match r.payload
      case Garbled =>
        rows := rows[id := r.(deadAt := Some(now), lockedUntil := None, lastError := "invalid stored payload")];
        return Undecodable(id);
      case Encoded(n) =>
        rows := rows[id := r.(lockedUntil := Some(now + MINUTE), attempts := r.attempts + 1)];
        return Message(id, n, r.attempts + 1);
    }

    method MarkSent(id: MsgId)
      modifies this`rows
      ensures Contents() == OutboxTable.MarkSent(old(Contents()), id)
      ensures rows == if id !in old(rows) then old(rows)
                      else old(rows)[id :=
                        old(rows)[id].(sentAt := Some(now), lockedUntil := None, lastError := "")]
    {
      if id in rows {
        rows := rows[id := rows[id].(sentAt := Some(now), lockedUntil := None, lastError := "")];
      }
    }

    method MarkFailed(id: MsgId, attempts: nat, error: string)
      requires 1 <= attempts
      modifies this`rows
      ensures Contents() == OutboxTable.MarkFailed(old(Contents()), id, attempts, error)
      ensures rows == if id !in old(rows) then old(rows)
                      else
                        var row := old(rows)[id].(lockedUntil := None,
                                                  lastError := if |error| > 1000 then error[..1000] else error);
                        old(rows)[id :=
                          if attempts >= 10 then row.(deadAt := Some(now))
                          else
                            row.(nextAttemptAt := now + if attempts == 1 then 60 else if attempts == 2 then 120
                                                        else if attempts == 3 then 240 else if attempts == 4 then 480
                                                        else if attempts == 5 then 960 else if attempts == 6 then 1920
                                                        else 3840)]
    {
      var msg := error;
      if |msg| > MAX_ERROR { msg := msg[..MAX_ERROR]; }
      if attempts >= MAX_ATTEMPTS {
        if id in rows { rows := rows[id := rows[id].(deadAt := Some(now), lockedUntil := None, lastError := msg)]; }
        return;
      }
      // One minute shifted left by at most six places.
      var delay, shift := MINUTE, 0;
      while shift < attempts - 1 && shift < 6
        invariant 0 <= shift <= 6 && shift <= attempts - 1
        invariant delay == Backoff(shift + 1)
      {
        delay, shift := 2 * delay, shift + 1;
      }
      if id in rows {
        rows := rows[id := rows[id].(nextAttemptAt := now + delay, lockedUntil := None, lastError := msg)];
      }
    }

    method PurgeSent(cutoff: Time) returns (removed: nat)
      modifies this`rows
      ensures Contents() == OutboxTable.PurgeSent(old(Contents()), cutoff)
      ensures removed == |set id | id in old(rows) && SentBefore(old(rows)[id], cutoff)|
      ensures forall id :: id in rows <==>
                id in old(rows) && (old(rows)[id].sentAt.None? || cutoff <= old(rows)[id].sentAt.value)
      ensures forall id :: id in rows ==> rows[id] == old(rows)[id]
      ensures removed == |old(rows)| - |rows|
    {
      var gone := set id | id in rows && SentBefore(rows[id], cutoff);
      ghost var before := rows;
      rows := map id | id in rows && id !in gone :: rows[id];
      assert rows.Keys == before.Keys - gone && before.Keys * gone == gone;
      assert gone == set id | id in before && SentBefore(before[id], cutoff);
      assert |before| == |before.Keys| && |rows| == |rows.Keys|;
      return |gone|;
    }
  }

  // ---- the delivery pass ----

  const PASS := 20

  /** What one delivery makes of a row; the answer None means the message went out. */
  function Handled(r: Row, now: Time, answer: Option<string>): Row {
    var leased := r.(lockedUntil := Some(now + MINUTE), attempts := r.attempts + 1);
    match answer
    case None => leased.(sentAt := Some(now), lockedUntil := None, lastError := "")
    case Some(error) => Refused(leased, leased.attempts, error, now)
  }

  /** A handled message is not due again in the same instant, and is given up only on its tenth attempt. */
  lemma HandledIsOver(r: Row, now: Time, answer: Option<string>)
    requires Open(r)
    ensures var r' := Handled(r, now, answer);
            && !DueRow(r', now) && r'.lockedUntil == None && r'.attempts == r.attempts + 1
            && (r'.sentAt.Some? <==> answer == None)
            && (r'.deadAt.Some? <==> answer != None && r'.attempts >= MAX_ATTEMPTS)
  {
  }

  /** What one delivery leaves, field by field. */
  lemma HandledRow(r: Row, now: Time, answer: Option<string>)
    ensures var r', n := Handled(r, now, answer), r.attempts + 1;
            r' == if answer.None? then r.(attempts := n, sentAt := Some(now), lockedUntil := None, lastError := "")
                  else
                    var failed := r.(attempts := n, lockedUntil := None,
                                     lastError := if |answer.value| > 1000 then answer.value[..1000] else answer.value);
                    if n >= 10 then failed.(deadAt := Some(now))
                    else
                      failed.(nextAttemptAt := now + if n == 1 then 60 else if n == 2 then 120 else if n == 3 then 240
                                                     else if n == 4 then 480 else if n == 5 then 960
                                                     else if n == 6 then 1920 else 3840)
  {
  }

  /** The rows after sending the messages of ids with these answers, each once. */
  ghost predicate SentOff(before: Outbox, rows: map<MsgId, Row>, ids: seq<MsgId>, answers: seq<Option<string>>)
    requires |ids| <= |answers|
  {
    && rows.Keys == before.rows.Keys
    && (forall i :: 0 <= i < |ids| ==> Due(before, ids[i]) && before.rows[ids[i]].payload.Encoded?)
    && (forall i, k :: 0 <= i < k < |ids| ==> ids[i] < ids[k])
    && (forall i :: 0 <= i < |ids| ==> rows[ids[i]] == Handled(before.rows[ids[i]], before.now, answers[i]))
    && (forall id :: id in rows && id !in ids ==> rows[id] == before.rows[id])
  }

  /** What is due after sending was due before and has a later id. */
  ghost predicate RestIsLater(before: Outbox, rows: map<MsgId, Row>, ids: seq<MsgId>) {
    forall id :: Due(before.(rows := rows), id) ==> Due(before, id) && forall i :: 0 <= i < |ids| ==> ids[i] < id
  }

  /** What is due after sending is as it was. */
  lemma DueIsUntouched(before: Outbox, rows: map<MsgId, Row>, ids: seq<MsgId>, answers: seq<Option<string>>, id: MsgId)
    requires |ids| <= |answers| && SentOff(before, rows, ids, answers) && RestIsLater(before, rows, ids)
    requires Due(before.(rows := rows), id)
    ensures id !in ids && Due(before, id) && rows[id] == before.rows[id]
  {
    hide Handled, DueRow;
  }

  lemma OneMoreSent(before: Outbox, rows: map<MsgId, Row>, ids: seq<MsgId>, answers: seq<Option<string>>, id: MsgId)
    requires |ids| < |answers| && SentOff(before, rows, ids, answers) && RestIsLater(before, rows, ids)
    requires Due(before.(rows := rows), id) && rows[id].payload.Encoded?
    requires forall k :: Due(before.(rows := rows), k) ==> id <= k
    ensures id in before.rows
    ensures var rows' := rows[id := Handled(before.rows[id], before.now, answers[|ids|])];
            SentOff(before, rows', ids + [id], answers) && RestIsLater(before, rows', ids + [id])
  {
    DueIsUntouched(before, rows, ids, answers, id);
    HandledIsOver(before.rows[id], before.now, answers[|ids|]);
    hide Handled, DueRow;
    assert forall i :: 0 <= i < |ids| ==> ids[i] < id;
    RestStaysLater(before, rows, ids, id, Handled(before.rows[id], before.now, answers[|ids|]));
    hide RestIsLater, Due;
    SentOffGrows(before, rows, ids, answers, id);
  }

  lemma SentOffGrows(before: Outbox, rows: map<MsgId, Row>, ids: seq<MsgId>, answers: seq<Option<string>>, id: MsgId)
    requires |ids| < |answers| && SentOff(before, rows, ids, answers)
    requires id !in ids && Due(before, id) && before.rows[id].payload.Encoded?
    requires forall i :: 0 <= i < |ids| ==> ids[i] < id
    ensures SentOff(before, rows[id := Handled(before.rows[id], before.now, answers[|ids|])], ids + [id], answers)
  {
    hide Handled, DueRow;
    var ids' := ids + [id];
    assert ids'[|ids|] == id && forall i :: 0 <= i < |ids| ==> ids'[i] == ids[i];
  }

  lemma RestStaysLater(before: Outbox, rows: map<MsgId, Row>, ids: seq<MsgId>, id: MsgId, r': Row)
    requires RestIsLater(before, rows, ids)
    requires forall k :: Due(before.(rows := rows), k) ==> id <= k
    requires !DueRow(r', before.now)
    ensures RestIsLater(before, rows[id := r'], ids + [id])
  {
    hide DueRow;
    var rows' := rows[id := r'];
    forall k | Due(before.(rows := rows'), k)
      ensures Due(before, k) && forall i :: 0 <= i < |ids + [id]| ==> (ids + [id])[i] < k
    {
      assert k != id && Due(before.(rows := rows), k);
    }
  }

  lemma NothingSent(before: Outbox, answers: seq<Option<string>>)
    ensures SentOff(before, before.rows, [], answers) && RestIsLater(before, before.rows, [])
  {
  }

  class Courier {
    const outbox: Repository

    constructor (outbox: Repository)
      ensures this.outbox == outbox
    {
      this.outbox := outbox;
    }

    /** Records what came of a send; r is the row before it was leased. */
    method Finish(id: MsgId, attempts: nat, answer: Option<string>, ghost r: Row)
      requires id in outbox.rows && attempts == r.attempts + 1
      requires outbox.rows[id] == r.(lockedUntil := Some(outbox.now + MINUTE), attempts := r.attempts + 1)
      modifies outbox`rows
      ensures outbox.rows == old(outbox.rows)[id := Handled(r, outbox.now, answer)]
    {
      if answer.Some? {
        outbox.MarkFailed(id, attempts, answer.value);
      } else {
        outbox.MarkSent(id);
      }
    }

    /**
     Sends what is due in order of id, at most twenty messages and each at most once; answers[i]
     is what the i-th send comes back with, and out is what was handed to the sender: what is stored
     in the rows sent. The pass ends early only when nothing is due or, with an error, on a message
     that does not decode.
     */
    method DeliverNotifications(answers: seq<Option<string>>)
      returns (ok: bool, out: seq<Notification>, ghost sent: seq<MsgId>)
      requires |answers| >= PASS
      modifies outbox`rows
      ensures |sent| == |out| <= 20
      ensures forall i :: 0 <= i < |sent| ==>
                sent[i] in old(outbox.rows) && old(outbox.rows)[sent[i]].payload == Encoded(out[i])
      ensures ok ==> SentOff(old(outbox.Contents()), outbox.rows, sent, answers)
      ensures ok && |sent| < 20 ==> forall id :: !Due(outbox.Contents(), id)
      ensures !ok ==> exists bad ::
                && Due(old(outbox.Contents()), bad) && old(outbox.rows)[bad].payload.Garbled? && bad in outbox.rows
                && outbox.rows[bad] == Claimed(old(outbox.rows)[bad], outbox.now)
                && SentOff(old(outbox.Contents()), outbox.rows[bad := old(outbox.rows)[bad]], sent, answers)
    {
      hide Handled, RestIsLater, SentOff, DueRow;
      sent, out := [], [];
      ghost var before := outbox.Contents();
      assert SentOff(before, outbox.rows, sent, answers) && RestIsLater(before, outbox.rows, sent) by {
        NothingSent(before, answers);
      }
      for i := 0 to PASS
        invariant |sent| == |out| == i
        invariant forall k :: 0 <= k < i ==>
                    sent[k] in before.rows && before.rows[sent[k]].payload == Encoded(out[k])
        invariant SentOff(before, outbox.rows, sent, answers)
        invariant RestIsLater(before, outbox.rows, sent)
      {
        ghost var rows := outbox.rows;
        var m := outbox.ClaimDue();
        match m {
          case Nothing => return true, out, sent;
          case Undecodable(id) =>
            DueIsUntouched(before, rows, sent, answers, id);
            assert outbox.rows[id := rows[id]] == rows;
            return false, out, sent;
          case Message(id, notification, attempts) =>
            DueIsUntouched(before, rows, sent, answers, id);
            OneMoreSent(before, rows, sent, answers, id);
            Finish(id, attempts, answers[i], before.rows[id]);
            assert outbox.rows == rows[id := Handled(before.rows[id], before.now, answers[i])];
            sent, out := sent + [id], out + [notification];
        }
      }
      ok := true;
    }
  }
}
