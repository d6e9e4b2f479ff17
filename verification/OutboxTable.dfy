/**
 The notification outbox as a value, and each of its statements as a function from the
 table before to the table after. Messages are leased, retried with growing delays, given
 up after ten attempts, and kept unique by their dedupe key.
 */
module OutboxTable {
  import opened Wrappers
  import PostTables

  type MsgId = nat
  type Time = PostTables.Time

  const MINUTE: Time := PostTables.MINUTE
  const MAX_ATTEMPTS := 10
  const MAX_ERROR := 1000

  /** The dedupe keys the service uses, each naming its job and what it is about. */
  datatype Key =
    | PublishedNotice(job: PostTables.JobId)
    | FailedNotice(job: PostTables.JobId)
    | FirstApproval(job: PostTables.JobId)
    | VariantContent(job: PostTables.JobId, variant: PostTables.VariantId)
    | VariantApproval(job: PostTables.JobId, variant: PostTables.VariantId)
    | VariantsParked(job: PostTables.JobId)
    | VariantsExhausted(job: PostTables.JobId)
    | ScheduledNotice(job: PostTables.JobId, at: PostTables.Time)

  datatype Notification = Notification(title: string, message: string, idempotencyKey: Option<Key>)

  /** What is stored: an encoded notification, or something that no longer decodes. */
  datatype Payload = Encoded(n: Notification) | Garbled

  datatype Row = Row(
    key: Key,
    payload: Payload,
    attempts: nat,
    nextAttemptAt: Time,
    lockedUntil: Option<Time>,
    sentAt: Option<Time>,
    deadAt: Option<Time>,
    lastError: string)

  datatype Outbox = Outbox(rows: map<MsgId, Row>, nextId: MsgId, now: Time)

  predicate Open(r: Row) {
    r.sentAt.None? && r.deadAt.None?
  }

  predicate DueRow(r: Row, now: Time) {
    Open(r) && r.nextAttemptAt <= now && (r.lockedUntil.None? || r.lockedUntil.value < now)
  }

  predicate Due(o: Outbox, id: MsgId) {
    id in o.rows && DueRow(o.rows[id], o.now)
  }

  predicate KeyTaken(rows: map<MsgId, Row>, key: Key) {
    exists id :: id in rows && rows[id].key == key
  }

  function Fresh(key: Key, payload: Payload, now: Time): Row {
    Row(key, payload, 0, now, None, None, None, "")
  }

  /** A key that is taken uses up an id and changes no row. */
  function Insert(o: Outbox, key: Key, payload: Payload): Outbox {
    var o' := o.(nextId := o.nextId + 1);
    if KeyTaken(o.rows, key) then o' else o'.(rows := o.rows[o.nextId := Fresh(key, payload, o.now)])
  }

  function Keyed(n: Notification, key: Key): Notification {
    if n.idempotencyKey.None? then n.(idempotencyKey := Some(key)) else n
  }

  /** A message that no longer decodes is given up at once; any other is leased for a minute. */
  function Claimed(r: Row, now: Time): Row {
    if r.payload.Garbled? then r.(deadAt := Some(now), lockedUntil := None, lastError := "invalid stored payload")
    else r.(lockedUntil := Some(now + MINUTE), attempts := r.attempts + 1)
  }

  function Claim(o: Outbox, id: MsgId): Outbox
    requires id in o.rows
  {
    o.(rows := o.rows[id := Claimed(o.rows[id], o.now)])
  }

  /** Nothing here looks at the lease. */
  function MarkSent(o: Outbox, id: MsgId): Outbox {
    if id in o.rows then
      o.(rows := o.rows[id := o.rows[id].(sentAt := Some(o.now), lockedUntil := None, lastError := "")])
    else o
  }

  /** One minute, doubled with each attempt, at most sixty-four minutes. */
  function Backoff(attempts: nat): Time
    requires 1 <= attempts
  {
    match attempts
    case 1 => MINUTE
    case 2 => 2 * MINUTE
    case 3 => 4 * MINUTE
    case 4 => 8 * MINUTE
    case 5 => 16 * MINUTE
    case 6 => 32 * MINUTE
    case _ => 64 * MINUTE
  }

  function Clipped(error: string): string {
    if |error| > MAX_ERROR then error[..MAX_ERROR] else error
  }

  function Refused(r: Row, attempts: nat, error: string, now: Time): Row
    requires 1 <= attempts
  {
    if attempts >= MAX_ATTEMPTS then r.(deadAt := Some(now), lockedUntil := None, lastError := Clipped(error))
    else r.(nextAttemptAt := now + Backoff(attempts), lockedUntil := None, lastError := Clipped(error))
  }

  function MarkFailed(o: Outbox, id: MsgId, attempts: nat, error: string): Outbox
    requires 1 <= attempts
  {
    if id in o.rows then o.(rows := o.rows[id := Refused(o.rows[id], attempts, error, o.now)]) else o
  }

  predicate SentBefore(r: Row, cutoff: Time) {
    r.sentAt.Some? && r.sentAt.value < cutoff
  }

  function PurgeSent(o: Outbox, cutoff: Time): Outbox {
    o.(rows := map id | id in o.rows && !SentBefore(o.rows[id], cutoff) :: o.rows[id])
  }

  predicate KeysUnique(rows: map<MsgId, Row>) {
    forall i, k :: i in rows && k in rows && rows[i].key == rows[k].key ==> i == k
  }

  predicate IdsBelow(o: Outbox) {
    forall id :: id in o.rows ==> id < o.nextId
  }

  /** Enqueueing is idempotent: the second time nothing is stored, whatever the second payload says. */
  lemma InsertTwice(o: Outbox, key: Key, first: Payload, second: Payload)
    requires KeysUnique(o.rows) && IdsBelow(o)
    ensures var once := Insert(o, key, first);
            && KeysUnique(once.rows) && IdsBelow(once) && KeyTaken(once.rows, key)
            && Insert(once, key, second).rows == once.rows
            && (forall id :: id in o.rows ==> id in once.rows && once.rows[id] == o.rows[id])
  {
    var once := Insert(o, key, first);
    if !KeyTaken(o.rows, key) { assert o.nextId in once.rows && once.rows[o.nextId].key == key; }
  }
}
