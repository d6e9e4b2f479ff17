/**
 The tables post_jobs, post_variants and publish_logs as values, and each
 repository operation as a function from the tables before its transaction to
 the tables after it together with the outcome its caller sees. An operation
 that does not commit leaves the tables as they were.
 */
module PostTables {
  import opened Wrappers
  import opened JobStatus
  import opened Text

  type JobId = nat
  type VariantId = nat
  // Seconds on the one clock shared by the application and the database.
  type Time = nat

  const MINUTE: Time := 60
  const MAX_AI_RETRIES := 8
  const MAX_CAPTION := 2200

  /** An image URL remembers the variant and the caption it was rendered from. */
  datatype ImageUrl = Blank | Upload(variant: VariantId, caption: string)

  datatype Job = Job(
    status: Status,
    requestedVariants: nat,
    selected: Option<VariantId>,
    mediaId: string,
    error: string,
    retries: nat,
    nextRetryAt: Time,
    updatedAt: Time,
    scheduledAt: Option<Time>,
    aiProvider: string,
    aiModel: string,
    aiError: string)

  datatype Variant = Variant(job: JobId, no: int, style: string, caption: string, image: ImageUrl)

  datatype NewVariant = NewVariant(no: int, style: string, caption: string)

  /** The stored response body of a publish: either field may be empty, or nothing may decode. */
  datatype Response = Response(id: string, mediaId: string) | Garbled

  datatype PublishLog = PublishLog(
    job: JobId,
    platform: string,
    request: Option<string>,
    response: Option<Response>,
    success: bool,
    error: string)

  /** What a search of the publish log comes back with. */
  datatype Lookup = Found(media: string) | NoSuccess | Unreadable

  /** What scoring writes beside the status. */
  datatype ScoreUpdate = ScoreUpdate(status: Status, aiProvider: string, aiModel: string, aiError: string)

  datatype Tables = Tables(
    jobs: map<JobId, Job>,
    variants: map<VariantId, Variant>,
    nextVariant: VariantId,
    logs: seq<PublishLog>,
    now: Time)

  datatype Outcome = Committed | NotFound | InvalidTransition | ConstraintViolation

  datatype Effect = Effect(db: Tables, outcome: Outcome)

  const FRESH_JOB := Job(New, 0, None, "", "", 0, 0, 0, None, "", "", "")

  function Put(db: Tables, id: JobId, row: Job): Tables {
    db.(jobs := db.jobs[id := row])
  }

  /** The guard run under the row lock by every transaction that changes the status. */
  function Guard(db: Tables, id: JobId, to: Status): Outcome {
    if id !in db.jobs then NotFound
    else if !CanTransition(db.jobs[id].status, to) then InvalidTransition
    else Committed
  }

  function Moved(row: Job, to: Status, now: Time): Job {
    row.(status := to, updatedAt := now)
  }

  predicate OwnsVariant(db: Tables, id: JobId, v: VariantId) {
    v in db.variants && db.variants[v].job == id
  }

  // ---- status ----

  function Create(db: Tables, id: JobId): Effect {
    if id in db.jobs then Effect(db, ConstraintViolation)
    else Effect(Put(db, id, FRESH_JOB.(nextRetryAt := db.now, updatedAt := db.now)), Committed)
  }

  function UpdateStatus(db: Tables, id: JobId, to: Status): Effect {
    var g := Guard(db, id, to);
    if g != Committed then Effect(db, g)
    else Effect(Put(db, id, Moved(db.jobs[id], to, db.now)), Committed)
  }

  /** Committed means this caller won the claim. */
  function ClaimStatus(db: Tables, id: JobId, from: Status, to: Status): Effect {
    if !CanTransition(from, to) then Effect(db, InvalidTransition)
    else if id !in db.jobs || db.jobs[id].status != from then Effect(db, NotFound)
    else Effect(Put(db, id, Moved(db.jobs[id], to, db.now)), Committed)
  }

  function Staged(row: Job, u: ScoreUpdate, now: Time): Job {
    Moved(row, u.status, now).(
      aiProvider := u.aiProvider, aiModel := u.aiModel, aiError := u.aiError, retries := 0, nextRetryAt := now)
  }

  function ApplyScored(db: Tables, id: JobId, u: ScoreUpdate): Effect {
    var g := Guard(db, id, u.status);
    if g != Committed then Effect(db, g)
    else Effect(Put(db, id, Staged(db.jobs[id], u, db.now)), Committed)
  }

  function CompleteAIStage(db: Tables, id: JobId, to: Status): Effect {
    var g := Guard(db, id, to);
    if g != Committed then Effect(db, g)
    else
      Effect(Put(db, id, Moved(db.jobs[id], to, db.now).(aiError := "", retries := 0, nextRetryAt := db.now)),
          Committed)
  }

  /** One minute, doubled for each park after the first, at most sixteen minutes. */
  function RetryDelay(retries: nat): Time
    requires 1 <= retries
  {
    match retries
    case 1 => MINUTE
    case 2 => 2 * MINUTE
    case 3 => 4 * MINUTE
    case 4 => 8 * MINUTE
    case _ => 16 * MINUTE
  }

  function Parked(row: Job, now: Time, aiError: string): Job {
    var retries := row.retries + 1;
    if retries >= MAX_AI_RETRIES then
      row.(status := Failed, aiError := aiError, error := "AI retries exhausted: " + aiError,
           retries := retries, updatedAt := now)
    else
      row.(status := WaitingAI, aiError := aiError, retries := retries,
           nextRetryAt := now + RetryDelay(retries), updatedAt := now)
  }

  function ParkForAIRetry(db: Tables, id: JobId, aiError: string): Effect {
    var g := Guard(db, id, WaitingAI);
    if g != Committed then Effect(db, g)
    else Effect(Put(db, id, Parked(db.jobs[id], db.now, aiError)), Committed)
  }

  function MarkPublished(db: Tables, id: JobId, mediaId: string): Effect {
    var g := Guard(db, id, Published);
    if g != Committed then Effect(db, g)
    else Effect(Put(db, id, Moved(db.jobs[id], Published, db.now).(mediaId := mediaId, error := "")), Committed)
  }

  function MarkFailed(db: Tables, id: JobId, msg: string): Effect {
    var g := Guard(db, id, Failed);
    if g != Committed then Effect(db, g)
    else Effect(Put(db, id, Moved(db.jobs[id], Failed, db.now).(error := msg)), Committed)
  }

  // ---- operator review ----

  function QueueVariants(db: Tables, id: JobId, count: nat): Effect {
    var g := Guard(db, id, VariantsQueued);
    if g != Committed then Effect(db, g)
    else Effect(Put(db, id, Moved(db.jobs[id], VariantsQueued, db.now).(requestedVariants := count, selected := None)),
                Committed)
  }

  function SelectVariant(db: Tables, id: JobId, v: VariantId): Effect {
    var g := Guard(db, id, ReadyToPublish);
    if g != Committed then Effect(db, g)
    else if !OwnsVariant(db, id, v) then Effect(db, NotFound)
    else Effect(Put(db, id, Moved(db.jobs[id], ReadyToPublish, db.now).(selected := Some(v))), Committed)
  }

  function ReselectVariant(db: Tables, id: JobId, v: VariantId): Effect {
    if id !in db.jobs then Effect(db, NotFound)
    else if db.jobs[id].status != ReadyToPublish then Effect(db, InvalidTransition)
    else if !OwnsVariant(db, id, v) then Effect(db, NotFound)
    else Effect(Put(db, id, db.jobs[id].(selected := Some(v), updatedAt := db.now)), Committed)
  }

  predicate Editable(s: Status) {
    s == WaitingVariantApproval || s == ReadyToPublish
  }

  /** The edit and the clearing of the artwork rendered from the old caption are one transaction. */
  function UpdateVariantCaption(db: Tables, id: JobId, v: VariantId, caption: string): Effect {
    if id !in db.jobs then Effect(db, NotFound)
    else if !Editable(db.jobs[id].status) then Effect(db, InvalidTransition)
    else if !FitsText(caption) then Effect(db, ConstraintViolation)
    else if !OwnsVariant(db, id, v) then Effect(db, NotFound)
    else Effect(db.(variants := db.variants[v := db.variants[v].(caption := caption, image := Blank)]), Committed)
  }

  // ---- scheduled publishing ----

  function Schedule(db: Tables, id: JobId, at: Time): Effect {
    var g := Guard(db, id, Scheduled);
    if g != Committed then Effect(db, g)
    else if db.jobs[id].selected.None? then Effect(db, NotFound)
    else Effect(Put(db, id, Moved(db.jobs[id], Scheduled, db.now).(scheduledAt := Some(at))), Committed)
  }

  function Reschedule(db: Tables, id: JobId, at: Time): Effect {
    if id !in db.jobs || db.jobs[id].status != Scheduled then Effect(db, InvalidTransition)
    else Effect(Put(db, id, db.jobs[id].(scheduledAt := Some(at), updatedAt := db.now)), Committed)
  }

  function CancelSchedule(db: Tables, id: JobId): Effect {
    if id !in db.jobs then Effect(db, NotFound)
    else if db.jobs[id].status != Scheduled then Effect(db, InvalidTransition)
    else Effect(Put(db, id, Moved(db.jobs[id], ReadyToPublish, db.now).(scheduledAt := None)), Committed)
  }

  predicate DueBy(row: Job, asOf: Time) {
    row.status == Scheduled && row.scheduledAt.Some? && row.scheduledAt.value <= asOf
  }

  /** asOf is the time the caller read before listing; it may be earlier than the clock. */
  function ClaimScheduledDue(db: Tables, id: JobId, asOf: Time): Effect {
    if id !in db.jobs || !DueBy(db.jobs[id], asOf) then Effect(db, NotFound)
    else Effect(Put(db, id, Moved(db.jobs[id], Approved, db.now)), Committed)
  }

  // ---- variants ----

  /** What the column types and the CHECK and UNIQUE constraints of post_variants ask of one job's rows. */
  predicate WellNumbered(vs: seq<NewVariant>) {
    && (forall i :: 0 <= i < |vs| ==> vs[i].no > 0 && 1 <= |vs[i].caption| <= MAX_CAPTION)
    && (forall i :: 0 <= i < |vs| ==> FitsText(vs[i].caption) && FitsText(vs[i].style))
    && (forall i, k :: 0 <= i < k < |vs| ==> vs[i].no != vs[k].no)
  }

  function Inserted(id: JobId, nv: NewVariant): Variant {
    Variant(id, nv.no, nv.style, nv.caption, Blank)
  }

  function WithoutJob(variants: map<VariantId, Variant>, id: JobId): map<VariantId, Variant> {
    map v | v in variants && variants[v].job != id :: variants[v]
  }

  function InsertAll(variants: map<VariantId, Variant>, next: VariantId, id: JobId, vs: seq<NewVariant>)
    : map<VariantId, Variant>
  {
    if vs == [] then variants
    else
      var last := |vs| - 1;
      InsertAll(variants, next, id, vs[..last])[next + last := Inserted(id, vs[last])]
  }

  /** Inserting gives the rows the next ids in order and keeps every row below them. */
  lemma {:induction false} InsertAllAt(variants: map<VariantId, Variant>, next: VariantId, id: JobId,
                                        vs: seq<NewVariant>)
    requires forall v :: v in variants ==> v < next
    ensures forall v :: v in InsertAll(variants, next, id, vs) <==> v in variants || next <= v < next + |vs|
    ensures forall v :: v in variants ==> InsertAll(variants, next, id, vs)[v] == variants[v]
    ensures forall i :: 0 <= i < |vs| ==> InsertAll(variants, next, id, vs)[next + i] == Inserted(id, vs[i])
  {
    if vs != [] {
      var last := |vs| - 1;
      InsertAllAt(variants, next, id, vs[..last]);
      var front := InsertAll(variants, next, id, vs[..last]);
      assert InsertAll(variants, next, id, vs) == front[next + last := Inserted(id, vs[last])];
      forall i | 0 <= i < |vs|
        ensures InsertAll(variants, next, id, vs)[next + i] == Inserted(id, vs[i])
      {
        if i < last { assert vs[..last][i] == vs[i] && next + i in front; }
      }
    }
  }

  /** What one more insert asks of its row, beside the i rows inserted before it. */
  predicate Insertable(vs: seq<NewVariant>, i: nat)
    requires i < |vs|
  {
    && vs[i].no > 0 && 1 <= |vs[i].caption| <= MAX_CAPTION && FitsText(vs[i].caption) && FitsText(vs[i].style)
    && forall k :: 0 <= k < i ==> vs[k].no != vs[i].no
  }

  lemma NothingInserted(variants: map<VariantId, Variant>, next: VariantId, id: JobId, vs: seq<NewVariant>)
    requires vs == []
    ensures InsertAll(variants, next, id, vs) == variants && WellNumbered(vs)
  {
  }

  lemma OneMoreInsert(variants: map<VariantId, Variant>, next: VariantId, id: JobId, vs: seq<NewVariant>, i: nat)
    requires i < |vs| && WellNumbered(vs[..i])
    ensures InsertAll(variants, next, id, vs[..i + 1])
         == InsertAll(variants, next, id, vs[..i])[next + i := Inserted(id, vs[i])]
    ensures WellNumbered(vs[..i + 1]) <==> Insertable(vs, i)
    ensures WellNumbered(vs) ==> Insertable(vs, i)
  {
    var longer := vs[..i + 1];
    assert longer[..i] == vs[..i] && longer[i] == vs[i];
    if WellNumbered(longer) {
      forall k | 0 <= k < i
        ensures vs[k].no != vs[i].no
      {
        assert longer[k] == vs[k];
      }
    }
  }

  /** The rows a replacement leaves: those of other jobs as they were, and the new ones under fresh ids. */
  lemma ReplacedRows(variants: map<VariantId, Variant>, next: VariantId, id: JobId, vs: seq<NewVariant>)
    ensures var after := InsertAll(WithoutJob(variants, id), next, id, vs);
            (forall v :: v in variants ==> v < next) ==>
              && (forall v :: next <= v < next + |vs| ==>
                    && v in after
                    && var nv := vs[v - next]; after[v] == Variant(id, nv.no, nv.style, nv.caption, Blank))
              && (forall v :: v in variants && variants[v].job != id ==> v in after && after[v] == variants[v])
              && (forall v :: v in after ==> (v in variants && variants[v].job != id) || v >= next)
  {
    if forall v :: v in variants ==> v < next {
      InsertAllAt(WithoutJob(variants, id), next, id, vs);
      hide InsertAll;
      var after := InsertAll(WithoutJob(variants, id), next, id, vs);
      forall v | next <= v < next + |vs|
        ensures v in after && after[v] == Inserted(id, vs[v - next])
      {
        assert after[next + (v - next)] == Inserted(id, vs[v - next]);
      }
    }
  }

  lemma WellNumberedRows(vs: seq<NewVariant>)
    ensures WellNumbered(vs) <==>
              && (forall i :: 0 <= i < |vs| ==>
                    && vs[i].no > 0 && 1 <= |vs[i].caption| <= 2200
                    && '\0' !in vs[i].caption && '\0' !in vs[i].style)
              && (forall i, k :: 0 <= i < k < |vs| ==> vs[i].no != vs[k].no)
  {
  }

  /** No status is checked here. An insert that breaks a constraint rolls everything back. */
  function ReplaceVariants(db: Tables, id: JobId, vs: seq<NewVariant>): Effect {
    if |vs| > 0 && (id !in db.jobs || !WellNumbered(vs)) then Effect(db, ConstraintViolation)
    else
      var cleared := if id in db.jobs then Put(db, id, db.jobs[id].(selected := None)) else db;
      Effect(cleared.(variants := InsertAll(WithoutJob(db.variants, id), db.nextVariant, id, vs),
                      nextVariant := db.nextVariant + |vs|),
             Committed)
  }

  function SetVariantImageURL(db: Tables, v: VariantId, url: ImageUrl): Tables {
    if v in db.variants then db.(variants := db.variants[v := db.variants[v].(image := url)]) else db
  }

  /** Committed means the caption the artwork was rendered from is still the stored one. */
  function SetVariantImageURLForCaption(db: Tables, v: VariantId, caption: string, url: ImageUrl): Effect {
    if v in db.variants && db.variants[v].caption == caption then
      Effect(SetVariantImageURL(db, v, url), Committed)
    else Effect(db, NotFound)
  }

  // ---- publish logs ----

  function InsertPublishLog(db: Tables, entry: PublishLog): Tables {
    db.(logs := db.logs + [if entry.platform == "" then entry.(platform := "instagram") else entry])
  }

  predicate RecordsSuccess(entry: PublishLog, id: JobId) {
    entry.job == id && entry.success && entry.response.Some?
  }

  /** The media id a stored response names: its id field first, then its media_id field. */
  function MediaIdOf(r: Response): Option<string> {
    if r.Garbled? then None
    else if r.id != "" then Some(r.id)
    else if r.mediaId != "" then Some(r.mediaId)
    else None
  }

  /** What one log entry that records a success says. */
  function ReadResponse(r: Response): Lookup {
    if r.Garbled? then Unreadable
    else if MediaIdOf(r).Some? then Found(MediaIdOf(r).value)
    else NoSuccess
  }

  /** The newest log entry that records a success decides. */
  function SuccessfulPublishMediaID(logs: seq<PublishLog>, id: JobId): Lookup {
    if logs == [] then NoSuccess
    else if RecordsSuccess(logs[|logs| - 1], id) then ReadResponse(logs[|logs| - 1].response.value)
    else SuccessfulPublishMediaID(logs[..|logs| - 1], id)
  }

  /** A media id that is found comes from an entry that records a success of that job. */
  lemma {:induction false} MediaIdIsLogged(logs: seq<PublishLog>, id: JobId)
    ensures SuccessfulPublishMediaID(logs, id).Found? ==>
              exists i :: 0 <= i < |logs| && RecordsSuccess(logs[i], id)
                          && MediaIdOf(logs[i].response.value) == Some(SuccessfulPublishMediaID(logs, id).media)
  {
    if logs == [] {
    } else if RecordsSuccess(logs[|logs| - 1], id) {
    } else {
      var front := logs[..|logs| - 1];
      MediaIdIsLogged(front, id);
      if SuccessfulPublishMediaID(front, id).Found? {
        var i :| 0 <= i < |front| && RecordsSuccess(front[i], id)
                 && MediaIdOf(front[i].response.value) == Some(SuccessfulPublishMediaID(front, id).media);
        assert logs[i] == front[i];
      }
    }
  }

  /** If every entry that records a success of the job names a media id, the search succeeds as soon as there is one. */
  lemma {:induction false} FoundOnceLogged(logs: seq<PublishLog>, id: JobId)
    requires forall i :: 0 <= i < |logs| && RecordsSuccess(logs[i], id) ==> MediaIdOf(logs[i].response.value).Some?
    ensures SuccessfulPublishMediaID(logs, id).Found? <==> exists i :: 0 <= i < |logs| && RecordsSuccess(logs[i], id)
  {
    if logs != [] && !RecordsSuccess(logs[|logs| - 1], id) {
      var front := logs[..|logs| - 1];
      assert forall i :: 0 <= i < |front| ==> front[i] == logs[i];
      FoundOnceLogged(front, id);
    }
  }
}
