/** Which notices the worker or request that moved a job enqueues. What a notice says is left to the caller. */
module Notices {
  import opened Wrappers
  import opened JobStatus
  import opened PostTables
  import opened OutboxTable

  /** One notice for each new variant, then the one that asks to pick among them. */
  function VariantKeys(id: JobId, first: VariantId, count: nat): seq<Key> {
    seq(count, i requires 0 <= i < count => VariantContent(id, first + i)) + [VariantApproval(id, first)]
  }

  /** What a worker reports after it turned the tables before into the tables after for job id. */
  function NoticesOf(before: Tables, after: Tables, id: JobId): seq<Key> {
    if id !in before.jobs || id !in after.jobs || before.jobs[id].status == after.jobs[id].status then []
    else
      var from, row := before.jobs[id].status, after.jobs[id];
      if from == ScoringQueued then
        if row.status == WaitingFirstApproval then [FirstApproval(id)] else []
      else if from == VariantsQueued then
        if row.status == WaitingVariantApproval && before.nextVariant < after.nextVariant then
          VariantKeys(id, before.nextVariant, after.nextVariant - before.nextVariant)
        else if row.status == WaitingAI then [VariantsParked(id)]
        else if row.status == Failed && row.retries == before.jobs[id].retries + 1 then [VariantsExhausted(id)]
        else []
      else if from == Approved || from == Scheduled then
        if row.status == Published then [PublishedNotice(id)]
        else if row.status == Failed then [FailedNotice(id)]
        else []
      else []
  }

  /** The outbox after enqueueing these keys in order, with these texts. */
  function EnqueueAll(o: Outbox, keys: seq<Key>, text: Key -> Notification): Outbox {
    if keys == [] then o
    else
      var last := keys[|keys| - 1];
      Insert(EnqueueAll(o, keys[..|keys| - 1], text), last, Encoded(Keyed(text(last), last)))
  }

  lemma EnqueueOneMore(o: Outbox, keys: seq<Key>, key: Key, text: Key -> Notification)
    ensures EnqueueAll(o, keys + [key], text)
         == Insert(EnqueueAll(o, keys, text), key, Encoded(Keyed(text(key), key)))
  {
    assert (keys + [key])[..|keys|] == keys;
  }

  lemma {:induction false} EnqueueInTurn(o: Outbox, keys: seq<Key>, more: seq<Key>, text: Key -> Notification)
    ensures EnqueueAll(o, keys + more, text) == EnqueueAll(EnqueueAll(o, keys, text), more, text)
    decreases |more|
  {
    if more == [] {
      assert keys + more == keys;
    } else {
      var front, last := more[..|more| - 1], more[|more| - 1];
      EnqueueInTurn(o, keys, front, text);
      assert keys + more == (keys + front) + [last];
      EnqueueOneMore(o, keys + front, last, text);
    }
  }

  /**
   What enqueueing a list does to the table: every key is taken afterwards, a key that was free is
   stored with the text that belongs to it, due at once, and every row that was there stays as it is.
   */
  lemma {:induction false} EnqueueAllStores(o: Outbox, keys: seq<Key>, text: Key -> Notification)
    requires IdsBelow(o)
    ensures var o' := EnqueueAll(o, keys, text);
            && IdsBelow(o') && o'.now == o.now && o'.nextId == o.nextId + |keys|
            && (forall id :: id in o.rows ==> id in o'.rows && o'.rows[id] == o.rows[id])
            && (forall k :: k in keys ==> KeyTaken(o'.rows, k))
            && (forall id :: id in o'.rows && id !in o.rows ==>
                  var r := o'.rows[id];
                  && o.nextId <= id && r.key in keys && !KeyTaken(o.rows, r.key)
                  && r == Row(r.key, r.payload, 0, o.now, None, None, None, "")
                  && r.payload.Encoded? && r.payload.n.title == text(r.key).title
                  && r.payload.n.message == text(r.key).message && r.payload.n.idempotencyKey.Some?)
  {
    if keys != [] {
      var front, last := keys[..|keys| - 1], keys[|keys| - 1];
      EnqueueAllStores(o, front, text);
      InsertStores(o, EnqueueAll(o, front, text), front, last, text);
      assert keys == front + [last];
    }
  }

  lemma InsertStores(o: Outbox, mid: Outbox, front: seq<Key>, last: Key, text: Key -> Notification)
    requires IdsBelow(mid)
    ensures var o' := Insert(mid, last, Encoded(Keyed(text(last), last)));
            && IdsBelow(o') && o'.now == mid.now && o'.nextId == mid.nextId + 1 && KeyTaken(o'.rows, last)
            && (forall id :: id in mid.rows ==> id in o'.rows && o'.rows[id] == mid.rows[id])
            && (forall k :: KeyTaken(mid.rows, k) ==> KeyTaken(o'.rows, k))
            && (forall id :: id in o'.rows && id !in mid.rows ==>
                  var r := o'.rows[id];
                  && id == mid.nextId && r.key == last && !KeyTaken(mid.rows, last)
                  && r == Row(last, r.payload, 0, mid.now, None, None, None, "")
                  && r.payload.Encoded? && r.payload.n.title == text(last).title
                  && r.payload.n.message == text(last).message && r.payload.n.idempotencyKey.Some?)
  {
    var o' := Insert(mid, last, Encoded(Keyed(text(last), last)));
    if !KeyTaken(mid.rows, last) { assert o'.rows[mid.nextId].key == last; }
    forall k | KeyTaken(mid.rows, k)
      ensures KeyTaken(o'.rows, k)
    {
      var id :| id in mid.rows && mid.rows[id].key == k;
      assert o'.rows[id].key == k;
    }
  }
}
