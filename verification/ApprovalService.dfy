/**
 The approval service in the form it is written in: methods that call the repository one
 statement after another. Each is tied to the process of Pipeline it stands for: run
 undisturbed, the method leaves the tables exactly as that process does, so what is proved
 of every interleaving of processes is proved of these methods.
 */
module ApprovalService {
  import opened Wrappers
  import opened Text
  import opened JobStatus
  import opened PostTables
  import opened PostRepository
  import opened Pipeline
  import opened SoloRuns
  import opened Notices
  import OutboxTable
  import OutboxRepository

  // What a notice says, by its key.
  type Texts = Key -> OutboxTable.Notification

  /**
   How the world answers a publish. Job, candidate and account are loaded or not; read and render
   are the errors of a read or a render that fails after the claim.
   */
  datatype Outside = Outside(
    loaded: bool,
    read: Option<string>,
    render: Option<string>,
    stored: bool,
    answer: Option<Receipt>,
    refusal: string,
    logged: bool)

  /** What the publisher is handed. */
  datatype PublishRequest = PublishRequest(image: ImageUrl, caption: string)

  /** The publisher's promise: a success names a media id, and the response it hands back names the same. */
  predicate Faithful(o: Outside) {
    o.answer.Some? ==> o.answer.value.media != "" && MediaIdOf(o.answer.value.response) == Some(o.answer.value.media)
  }

  function PublishChoices(o: Outside): seq<Choice> {
    [if o.loaded then Proceed else LoadError(""),
     Proceed,
     if o.read.Some? then LoadError(o.read.value) else Proceed,
     if o.render.Some? then RenderFailed(o.render.value) else if o.stored then Proceed else StatementLost,
     if o.answer.Some? then PublishedAs(o.answer.value) else Refused(o.refusal),
     if o.logged then Proceed else StatementLost,
     Proceed]
  }

  /** From statement i on, the run is answered as o says. */
  ghost predicate PublishesWith(run: Solo, i: nat, o: Outside) {
    && |run.choices| == i + |PublishChoices(o)|
    && forall k :: 0 <= k < |PublishChoices(o)| ==> run.choices[i + k] == PublishChoices(o)[k]
  }

  function RenderChoice(error: Option<string>): Choice {
    if error.Some? then RenderFailed(error.value) else Proceed
  }

  type Renders = r: seq<Option<string>> | |r| == PREVIEW_ATTEMPTS witness [None, None]

  /** n statements, then the rendering of a preview with these outcomes, then one more statement. */
  function PreviewChoices(n: nat, renders: Renders): seq<Choice> {
    seq(n, _ => Proceed)
    + [Proceed, Proceed, RenderChoice(renders[0]), Proceed, Proceed, RenderChoice(renders[1]), Proceed, Proceed]
  }

  /** How scoring a claimed job goes: what it is scored with, or what it fails on. */
  datatype Judgement =
    | NoContext(msg: string)
    | NoProvider
    | NotSaved
    | Judged(notify: bool, provider: string, model: string)

  function ScoreChoices(j: Judgement): seq<Choice> {
    [Proceed,
     match j
     case NoContext(msg) => LoadError(msg)
     case NoProvider => AiFailed
     case NotSaved => Proceed
     case Judged(notify, provider, model) => AiScored(notify, provider, model),
     Proceed]
  }

  /** How generation goes; what a provider drafts is never empty. */
  datatype Draft = Unloaded(msg: string) | Unanswered | Drafted(variants: seq<NewVariant>)

  function DraftChoices(d: Draft): seq<Choice> {
    [Proceed,
     match d
     case Unloaded(msg) => LoadError(msg)
     case Unanswered => AiFailed
     case Drafted(vs) => AiVariants(vs),
     Proceed]
  }

  // ---- what the callers are told ----

  /** What becomes of a job whose worker has claimed it and publishes variant v. */
  ghost predicate PublishedOrFailed(before: Tables, after: Tables, id: JobId, v: VariantId, o: Outside,
                                    ok: bool, sent: Option<PublishRequest>)
    requires id in before.jobs
  {
    var found := o.read.None? && v in before.variants;
    var blank := found && before.variants[v].image == Blank;
    var called := found && (!blank || o.render.None?);
    && ok == (called && o.answer.Some?)
    && sent == (if !called then None
                else
                  var image := if blank then Upload(v, before.variants[v].caption) else before.variants[v].image;
                  Some(PublishRequest(image, before.variants[v].caption)))
    && after.jobs == before.jobs[id :=
         if ok then
           before.jobs[id].(status := Published, mediaId := o.answer.value.media, error := "", updatedAt := before.now)
         else
           before.jobs[id].(status := Failed, updatedAt := before.now,
                            error := if o.read.Some? then "load variant: " + o.read.value
                                     else if !found then "load variant: not found"
                                     else if !called && o.render.Some? then o.render.value
                                     else "instagram publish: " + o.refusal)]
    && after.variants == (if called && blank && o.stored then
                            before.variants[v :=
                              before.variants[v].(image := Upload(v, before.variants[v].caption))]
                          else before.variants)
    && after.logs == before.logs
         + (if !called || !o.logged then []
            else if ok then
              [PublishLog(id, "instagram", Some(o.answer.value.request), Some(o.answer.value.response), true, "")]
            else [PublishLog(id, "instagram", None, None, false, o.refusal)])
    && after.nextVariant == before.nextVariant && after.now == before.now
  }

  /** The selected variant is stored and has artwork. */
  ghost predicate HasArtwork(db: Tables, id: JobId) {
    && id in db.jobs && db.jobs[id].selected.Some? && db.jobs[id].selected.value in db.variants
    && db.variants[db.jobs[id].selected.value].image != Blank
  }

  /** How a row that is to be published now fares: published, failed, or left approved. */
  ghost predicate Settled(row: Job, row': Job, now: Time, o: Outside) {
    if !o.loaded || row.selected.None? then
      row' == row || (row.status == Scheduled && row' == row.(status := Approved, updatedAt := now))
    else if row'.status == Published then
      && o.read.None? && o.answer.Some?
      && row' == row.(status := Published, mediaId := o.answer.value.media, error := "", updatedAt := now)
    else
      && (o.read.Some? || o.render.Some? || o.answer.None? || row'.error == "load variant: not found")
      && row' == row.(status := Failed, error := row'.error, updatedAt := now)
  }

  /** The variants after a review: artwork is made of the stored caption where there was none. */
  ghost function ReviewedVariants(db: Tables, id: JobId, ok: bool): map<VariantId, Variant> {
    if ok && id in db.jobs && db.jobs[id].selected.Some? && db.jobs[id].selected.value in db.variants
       && db.variants[db.jobs[id].selected.value].image == Blank then
      var v := db.jobs[id].selected.value;
      db.variants[v := db.variants[v].(image := Upload(v, db.variants[v].caption))]
    else db.variants
  }

  /** The variant is selected and its artwork is the one made from its caption. */
  predicate Previewed(db: Tables, id: JobId, v: VariantId) {
    && id in db.jobs && db.jobs[id].selected == Some(v)
    && v in db.variants && db.variants[v].image == Upload(v, db.variants[v].caption)
  }

  /** A row after one more park: the eighth is the last. */
  ghost function AfterPark(row: Job, now: Time, reason: string): Job {
    var n := row.retries;
    if n + 1 >= 8 then
      row.(status := Failed, retries := n + 1, aiError := reason, updatedAt := now,
           error := "AI retries exhausted: " + reason)
    else
      row.(status := WaitingAI, retries := n + 1, aiError := reason, updatedAt := now,
           nextRetryAt := now + if n == 0 then 60 else if n == 1 then 120
                                else if n == 2 then 240 else if n == 3 then 480 else 960)
  }

  /** What scoring makes of a queued row. */
  ghost function ScoredRow(row: Job, now: Time, j: Judgement): Job {
    match j
    case NoContext(msg) => row.(status := Failed, error := msg, updatedAt := now)
    case NoProvider => AfterPark(row, now, "scoring: all AI providers failed")
    case NotSaved => row.(status := Scoring, updatedAt := now)
    case Judged(notify, provider, model) =>
      row.(status := if notify then WaitingFirstApproval else Skipped, aiProvider := provider, aiModel := model,
           aiError := "", retries := 0, nextRetryAt := now, updatedAt := now)
  }

  /** What generation makes of a queued row. */
  ghost function GeneratedRow(row: Job, now: Time, d: Draft): Job {
    match d
    case Unloaded(msg) => row.(status := Failed, error := msg, updatedAt := now)
    case Unanswered => AfterPark(row, now, "variants: all AI providers failed")
    case Drafted(vs) =>
      if !Storable(vs) then row.(status := GeneratingVariants, updatedAt := now)
      else
        row.(status := WaitingVariantApproval, selected := None, aiError := "", retries := 0, nextRetryAt := now,
             updatedAt := now)
  }

  /** The variant table accepts these rows. */
  ghost predicate Storable(vs: seq<NewVariant>) {
    && (forall i :: 0 <= i < |vs| ==>
          && vs[i].no > 0 && 1 <= |vs[i].caption| <= 2200
          && '\0' !in vs[i].caption && '\0' !in vs[i].style)
    && (forall i, k :: 0 <= i < k < |vs| ==> vs[i].no != vs[k].no)
  }

  /** The variants of a job are replaced by these, and it waits for their approval. */
  ghost predicate Replaced(before: Tables, after: Tables, id: JobId, vs: seq<NewVariant>)
    requires id in before.jobs
  {
    && after.jobs == before.jobs[id :=
         before.jobs[id].(status := WaitingVariantApproval, selected := None, aiError := "", retries := 0,
                          nextRetryAt := before.now, updatedAt := before.now)]
    && after.nextVariant == before.nextVariant + |vs|
    && ((forall v :: v in before.variants ==> v < before.nextVariant) ==>
          && (forall v :: before.nextVariant <= v < before.nextVariant + |vs| ==>
                && v in after.variants
                && var nv := vs[v - before.nextVariant];
                   after.variants[v] == Variant(id, nv.no, nv.style, nv.caption, Blank))
          && (forall v :: v in before.variants && before.variants[v].job != id ==>
                v in after.variants && after.variants[v] == before.variants[v])
          && (forall v :: v in after.variants ==>
                (v in before.variants && before.variants[v].job != id) || v >= before.nextVariant))
    && after.logs == before.logs && after.now == before.now
  }

  /** One key for each of n variants from first on, in order, and last the one that asks to pick among them. */
  ghost predicate Offers(keys: seq<Key>, id: JobId, first: VariantId, n: nat) {
    && |keys| == n + 1
    && (forall i :: 0 <= i < n ==> keys[i] == OutboxTable.VariantContent(id, first + i))
    && keys[n] == OutboxTable.VariantApproval(id, first)
  }

  lemma ScoringEdges()
    ensures CanTransition(Scoring, Failed) && CanTransition(Scoring, WaitingAI) && CanTransition(Scoring, Scored)
    ensures CanTransition(Scored, WaitingFirstApproval) && CanTransition(Scored, Skipped)
    ensures CanTransition(ScoringQueued, Scoring)
  {
  }

  lemma GenerationEdges()
    ensures CanTransition(VariantsQueued, GeneratingVariants) && CanTransition(GeneratingVariants, Failed)
    ensures CanTransition(GeneratingVariants, WaitingAI)
    ensures CanTransition(GeneratingVariants, WaitingVariantApproval)
  {
  }

  /** What scoring reports: only that a job has come to its first approval. */
  lemma ScoringNotices(db: Tables, after: Tables, id: JobId)
    requires id in db.jobs && id in after.jobs && db.jobs[id].status == ScoringQueued
    ensures NoticesOf(db, after, id)
         == if after.jobs[id].status == WaitingFirstApproval then [OutboxTable.FirstApproval(id)] else []
  {
  }

  /** What generation reports: the variants to pick from, or that there are none and why. */
  lemma GenerationNotices(db: Tables, after: Tables, id: JobId)
    requires id in db.jobs && id in after.jobs && db.jobs[id].status == VariantsQueued
    ensures after.jobs[id].status == WaitingVariantApproval && db.nextVariant < after.nextVariant ==>
              NoticesOf(db, after, id) == VariantKeys(id, db.nextVariant, after.nextVariant - db.nextVariant)
    ensures after.jobs[id].status == WaitingAI ==> NoticesOf(db, after, id) == [OutboxTable.VariantsParked(id)]
    ensures after.jobs[id].status == Failed ==>
              NoticesOf(db, after, id)
              == if after.jobs[id].retries == db.jobs[id].retries + 1 then [OutboxTable.VariantsExhausted(id)] else []
    ensures after.jobs[id].status == GeneratingVariants ==> NoticesOf(db, after, id) == []
  {
  }

  /** How the row of a job fares in GenerateForListedJob. */
  lemma GeneratedByDraft(before: Tables, after: Tables, id: JobId, d: Draft)
    requires id in before.jobs
    requires match d
             case Unloaded(msg) =>
               after == before.(jobs := before.jobs[id :=
                 before.jobs[id].(status := Failed, error := msg, updatedAt := before.now)])
             case Unanswered =>
               after == before.(jobs := before.jobs[id :=
                 AfterPark(before.jobs[id], before.now, "variants: all AI providers failed")])
             case Drafted(vs) =>
               if Storable(vs) then Replaced(before, after, id, vs)
               else
                 after == before.(jobs := before.jobs[id :=
                   before.jobs[id].(status := GeneratingVariants, updatedAt := before.now)])
    ensures after.jobs == before.jobs[id := GeneratedRow(before.jobs[id], before.now, d)]
    ensures after.now == before.now
  {
    hide Storable, AfterPark;
  }

  /** Parking a claimed row is parking the row before the claim. */
  lemma ParkedRow(claimed: Job, row: Job, now: Time, reason: string)
    requires claimed == row.(status := claimed.status, updatedAt := now)
    ensures AfterPark(claimed, now, reason) == AfterPark(row, now, reason)
    ensures AfterPark(row, now, reason).status == if row.retries + 1 >= 8 then Failed else WaitingAI
    ensures AfterPark(row, now, reason).retries == row.retries + 1
  {
  }

  lemma DraftAfterClaim(db: Tables, claimed: Tables, after: Tables, id: JobId, vs: seq<NewVariant>)
    requires id in db.jobs
    requires claimed == db.(jobs := db.jobs[id := db.jobs[id].(status := GeneratingVariants, updatedAt := db.now)])
    requires Replaced(claimed, after, id, vs)
    ensures Replaced(db, after, id, vs)
    ensures id in after.jobs && after.jobs[id].status == WaitingVariantApproval
    ensures after.nextVariant == db.nextVariant + |vs|
  {
    assert after.jobs == claimed.jobs[id := after.jobs[id]] == db.jobs[id := after.jobs[id]];
  }

  // ---- the works of a pass ----

  const WORKER_BATCH := 5
  const PUBLISH_BATCH := 20
  const RETRY_BATCH := 50

  function ScoringWorks(ids: seq<JobId>, judge: JobId -> Judgement): seq<Work> {
    seq(|ids|, i requires 0 <= i < |ids| => Work(ids[i], ScoreListed, ScoreChoices(judge(ids[i]))))
  }

  function GenerationWorks(ids: seq<JobId>, draft: JobId -> Draft): seq<Work> {
    seq(|ids|, i requires 0 <= i < |ids| => Work(ids[i], GenListed, DraftChoices(draft(ids[i]))))
  }

  /** The stage a parked job goes back to, picked from its row as it was listed. */
  function RetryTarget(db: Tables, id: JobId): Status {
    if id in db.jobs then RetryStage(db.jobs[id]) else ScoringQueued
  }

  function RetryWorks(db: Tables, ids: seq<JobId>): seq<Work> {
    seq(|ids|, i requires 0 <= i < |ids| => Work(ids[i], RetryListed(RetryTarget(db, ids[i])), [Proceed]))
  }

  function PublishWorks(ids: seq<JobId>, outside: JobId -> Outside): seq<Work> {
    seq(|ids|, i requires 0 <= i < |ids| => Work(ids[i], PublishListed, PublishChoices(outside(ids[i]))))
  }

  function PromotionWorks(ids: seq<JobId>, asOf: Time, outside: JobId -> Outside): seq<Work> {
    seq(|ids|, i requires 0 <= i < |ids| => Work(ids[i], DueListed(asOf), [Proceed] + PublishChoices(outside(ids[i]))))
  }

  lemma ListedAreQueued(db: Tables, status: Status, asked: int, ids: seq<JobId>)
    requires Earliest(QueueKeys(db, status), PageSize(asked), ids)
    ensures forall i :: 0 <= i < |ids| ==> ids[i] in db.jobs && InQueue(db, ids[i], status)
    ensures forall i :: 0 <= i < |ids| ==> db.jobs[ids[i]].status == status
    ensures forall i, k :: 0 <= i < k < |ids| ==> ids[i] != ids[k]
  {
  }

  lemma ListedAreDue(db: Tables, asked: int, ids: seq<JobId>)
    requires Earliest(DueKeys(db, db.now), PageSize(asked), ids)
    ensures forall i :: 0 <= i < |ids| ==> ids[i] in db.jobs && DueBy(db.jobs[ids[i]], db.now)
    ensures forall i, k :: 0 <= i < k < |ids| ==> ids[i] != ids[k]
  {
  }

  class Service {
    const posts: Repository
    const outbox: OutboxRepository.Repository

    constructor (posts: Repository, outbox: OutboxRepository.Repository)
      ensures this.posts == posts && this.outbox == outbox
    {
      this.posts, this.outbox := posts, outbox;
    }

    method Notify(key: Key, text: Texts)
      modifies outbox
      ensures outbox.Contents() == EnqueueAll(old(outbox.Contents()), [key], text)
    {
      outbox.Enqueue(key, text(key));
      assert [key][..0] == [];
    }

    // ---- publishing ----

    /**
     Publishes an approved job. sent is what the publisher was handed, if it was called. Success
     means it published, or that another worker has claimed or published the job.
     */
    method PublishJob(id: JobId, o: Outside, text: Texts) returns (ok: bool, sent: Option<PublishRequest>)
      requires Faithful(o)
      modifies posts, outbox
      ensures EndsWith(Solo(old(posts.Contents()), id, PublishListed, PublishChoices(o)), posts.Contents())
      ensures var db := old(posts.Contents());
              if o.loaded && id in db.jobs && db.jobs[id].selected.Some? && db.jobs[id].status == Approved then
                && PublishedOrFailed(db, posts.Contents(), id, db.jobs[id].selected.value, o, ok, sent)
                && outbox.Contents()
                   == EnqueueAll(old(outbox.Contents()),
                        [if ok then OutboxTable.PublishedNotice(id) else OutboxTable.FailedNotice(id)], text)
              else
                && posts.Contents() == db && outbox.Contents() == old(outbox.Contents()) && sent.None?
                && (ok <==> o.loaded && id in db.jobs && db.jobs[id].selected.Some?
                            && (db.jobs[id].status == Publishing || db.jobs[id].status == Published))
      ensures outbox.Contents()
           == EnqueueAll(old(outbox.Contents()), NoticesOf(old(posts.Contents()), posts.Contents(), id), text)
    {
      hide EndsWith, Reached, PublishedOrFailed, EnqueueAll, NoticesOf;
      ghost var run := Solo(posts.Contents(), id, PublishListed, PublishChoices(o));
      SetOut(run);
      ok, sent := PublishListedJob(id, o, text, run, 0);
    }

    /** The selection is read before the claim and used after it. */
    method PublishListedJob(id: JobId, o: Outside, text: Texts, ghost run: Solo, ghost i: nat)
      returns (ok: bool, sent: Option<PublishRequest>)
      requires Faithful(o) && run.id == id && PublishesWith(run, i, o)
      requires Reached(run, i, posts.Contents(), Some(PublishListed))
      modifies posts, outbox
      ensures EndsWith(run, posts.Contents())
      ensures var db := old(posts.Contents());
              if o.loaded && id in db.jobs && db.jobs[id].selected.Some? && db.jobs[id].status == Approved then
                && PublishedOrFailed(db, posts.Contents(), id, db.jobs[id].selected.value, o, ok, sent)
                && outbox.Contents()
                   == EnqueueAll(old(outbox.Contents()),
                        [if ok then OutboxTable.PublishedNotice(id) else OutboxTable.FailedNotice(id)], text)
              else
                && posts.Contents() == db && outbox.Contents() == old(outbox.Contents()) && sent.None?
                && (ok <==> o.loaded && id in db.jobs && db.jobs[id].selected.Some?
                            && (db.jobs[id].status == Publishing || db.jobs[id].status == Published))
      ensures outbox.Contents()
           == EnqueueAll(old(outbox.Contents()), NoticesOf(old(posts.Contents()), posts.Contents(), id), text)
    {
      hide EndsWith, Reached, StateAt, MediaIdOf, CanTransition, EnqueueAll, PublishedOrFailed, NoticesOf;
      ghost var db := posts.Contents();
      NothingToReport(db, id, outbox.Contents(), text);
      EdgesInto(Approved, Publishing);
      assert run.choices[i + 0] == PublishChoices(o)[0];
      PublishLoads(run, i, posts.Contents());
      if !o.loaded || id !in posts.jobs || posts.jobs[id].selected.None? {
        Ends(run, i + 1, posts.Contents());
        return false, None;
      }
      var v := posts.jobs[id].selected.value;

      PublishClaims(run, i + 1, posts.Contents(), v);
      var claim := posts.ClaimStatus(id, Approved, Publishing);
      if claim != Committed {
        Ends(run, i + 2, posts.Contents());
        return posts.jobs[id].status == Publishing || posts.jobs[id].status == Published, None;
      }
      ghost var claimed := posts.Contents();
      ok, sent := PublishClaimedJob(id, v, o, text, run, i);
      ClaimIsNoChange(db, claimed, posts.Contents(), id, Publishing, v, o, ok, sent);
      PublishNotices(db, posts.Contents(), id, v, o, ok, sent);
    }

    /** The part after the claim: nobody else touches the job any more. */
    method PublishClaimedJob(id: JobId, v: VariantId, o: Outside, text: Texts, ghost run: Solo, ghost i: nat)
      returns (ok: bool, sent: Option<PublishRequest>)
      requires Faithful(o) && run.id == id && PublishesWith(run, i, o)
      requires Reached(run, i + 2, posts.Contents(), Some(PublishClaimed(v)))
      requires id in posts.jobs && posts.jobs[id].status == Publishing
      modifies posts, outbox
      ensures EndsWith(run, posts.Contents())
      ensures PublishedOrFailed(old(posts.Contents()), posts.Contents(), id, v, o, ok, sent)
      ensures outbox.Contents()
           == EnqueueAll(old(outbox.Contents()),
                [if ok then OutboxTable.PublishedNotice(id) else OutboxTable.FailedNotice(id)], text)
    {
      hide EndsWith, Reached, StateAt, MediaIdOf, EnqueueAll;
      assert run.choices[i + 2] == PublishChoices(o)[2];
      PublishReads(run, i + 2, posts.Contents(), v);
      if o.read.Some? {
        Fail(id, "load variant: " + o.read.value, text, run, i + 3);
        return false, None;
      }
      if v !in posts.variants {
        Fail(id, "load variant: not found", text, run, i + 3);
        return false, None;
      }
      var caption, image := posts.variants[v].caption, posts.variants[v].image;
      assert run.choices[i + 3] == PublishChoices(o)[3];
      PublishRenders(run, i + 3, posts.Contents(), v, caption, image);
      if image == Blank {
        if o.render.Some? {
          Fail(id, o.render.value, text, run, i + 4);
          return false, None;
        }
        image := Upload(v, caption);
        if o.stored { posts.SetVariantImageURL(v, image); }
      }
      sent := Some(PublishRequest(image, caption));
      ok := SendClaimedJob(id, v, sent.value, o, text, run, i);
    }

    /** Calls the publisher with the request; o.answer is what it answers. */
    method SendClaimedJob(id: JobId, v: VariantId, request: PublishRequest, o: Outside, text: Texts,
                          ghost run: Solo, ghost i: nat)
      returns (ok: bool)
      requires Faithful(o) && run.id == id && PublishesWith(run, i, o)
      requires Reached(run, i + 4, posts.Contents(), Some(PublishReady(v, request.caption, request.image)))
      requires id in posts.jobs && posts.jobs[id].status == Publishing
      modifies posts, outbox
      ensures EndsWith(run, posts.Contents())
      ensures ok <==> o.answer.Some?
      ensures posts.variants == old(posts.variants) && posts.nextVariant == old(posts.nextVariant)
      ensures posts.now == old(posts.now)
      ensures posts.jobs == old(posts.jobs)[id :=
                if ok then
                  old(posts.jobs)[id].(status := Published, mediaId := o.answer.value.media, error := "",
                                       updatedAt := posts.now)
                else
                  old(posts.jobs)[id].(status := Failed, error := "instagram publish: " + o.refusal,
                                       updatedAt := posts.now)]
      ensures posts.logs == old(posts.logs)
                + (if !o.logged then []
                   else if ok then
                     [PublishLog(id, "instagram", Some(o.answer.value.request), Some(o.answer.value.response), true,
                                 "")]
                   else [PublishLog(id, "instagram", None, None, false, o.refusal)])
      ensures outbox.Contents()
           == EnqueueAll(old(outbox.Contents()),
                [if ok then OutboxTable.PublishedNotice(id) else OutboxTable.FailedNotice(id)], text)
    {
      hide EndsWith, Reached, StateAt, MediaIdOf, EnqueueAll, CanTransition;
      EdgesInto(Publishing, Published);
      assert run.choices[i + 4] == PublishChoices(o)[4] && run.choices[i + 5] == PublishChoices(o)[5];
      PublishCalls(run, i + 4, posts.Contents(), v, request.caption, request.image);
      var msg := if o.answer.Some? then "" else o.refusal;
      PublishLogs(run, i + 5, posts.Contents(), o.answer, msg);
      if o.logged {
        var dump := if o.answer.Some? then Some(o.answer.value.request) else None;
        var response := if o.answer.Some? then Some(o.answer.value.response) else None;
        posts.InsertPublishLog(PublishLog(id, "instagram", dump, response, o.answer.Some?, msg));
      }
      if o.answer.None? {
        Fail(id, "instagram publish: " + msg, text, run, i + 6);
        return false;
      }
      PublishMarks(run, i + 6, posts.Contents(), o.answer.value.media);
      var outcome := posts.MarkPublished(id, o.answer.value.media);
      Ends(run, i + 7, posts.Contents());
      Notify(OutboxTable.PublishedNotice(id), text);
      return true;
    }

    /** Fails a claimed job and says so. */
    method Fail(id: JobId, msg: string, text: Texts, ghost run: Solo, ghost i: nat)
      requires run.id == id && CanGoOn(run, i, posts.Contents(), PublishFailing(msg))
      requires id in posts.jobs && posts.jobs[id].status == Publishing
      modifies posts`jobs, outbox
      ensures EndsWith(run, posts.Contents())
      ensures posts.jobs == old(posts.jobs)[id :=
                old(posts.jobs)[id].(status := Failed, error := msg, updatedAt := posts.now)]
      ensures outbox.Contents() == EnqueueAll(old(outbox.Contents()), [OutboxTable.FailedNotice(id)], text)
    {
      hide EndsWith, Reached, StateAt, EnqueueAll, CanTransition;
      EdgesInto(Publishing, Failed);
      PublishFails(run, i, posts.Contents(), msg);
      var outcome := posts.MarkFailed(id, msg);
      Ends(run, i + 1, posts.Contents());
      if outcome == Committed { Notify(OutboxTable.FailedNotice(id), text); }
    }

    // ---- previews ----

    /**
     Renders and stores the selected variant, twice at most. next is the statement the run has
     reached: its continuation if the preview is stored, and its end otherwise.
     */
    method PreparePreview(id: JobId, renders: Renders, ghost run: Solo, ghost n: nat, ghost cont: Cont)
      returns (ok: bool, ghost next: nat)
      requires run.id == id && run.choices == PreviewChoices(n, renders)
      requires Reached(run, n, posts.Contents(), Some(PreviewStart(0, cont)))
      modifies posts`variants
      ensures n <= next < |run.choices|
      ensures Reached(run, next, posts.Contents(), if ok then Resume(cont) else None)
      ensures if ok then
                && id in posts.jobs && posts.jobs[id].selected.Some?
                && var v, rows := posts.jobs[id].selected.value, old(posts.variants);
                   v in rows && posts.variants == rows[v := rows[v].(image := Upload(v, rows[v].caption))]
              else posts.variants == old(posts.variants)
      ensures ok ==> renders[0].None? || renders[1].None?
    {
      hide Reached, StateAt, Resume;
      for attempt := 0 to PREVIEW_ATTEMPTS
        invariant Reached(run, n + 3 * attempt, posts.Contents(), Some(PreviewStart(attempt, cont)))
        invariant posts.variants == old(posts.variants)
      {
        ghost var i := n + 3 * attempt;
        PreviewLoads(run, i, posts.Contents(), attempt, cont);
        if id !in posts.jobs || posts.jobs[id].selected.None? { return false, i + 1; }
        var v := posts.jobs[id].selected.value;
        PreviewReads(run, i + 1, posts.Contents(), v, attempt, cont);
        if v !in posts.variants { return false, i + 2; }
        var caption := posts.variants[v].caption;
        PreviewStores(run, i + 2, posts.Contents(), v, caption, attempt, cont);
        assert run.choices[i + 2] == RenderChoice(renders[attempt]);
        if renders[attempt].Some? { return false, i + 3; }
        var saved := posts.SetVariantImageURLForCaption(v, caption, Upload(v, caption));
        if saved { return true, i + 3; }
      }
      PreviewLoads(run, n + 6, posts.Contents(), 2, cont);
      return false, n + 7;
    }

    // ---- operator requests ----

    /**
     Nothing is selected twice: a job on its way out with this variant is left alone. Otherwise
     success means the variant is selected and its preview stored; a failure stores no preview.
     */
    method SelectVariantForReview(id: JobId, v: VariantId, renders: Renders) returns (ok: bool)
      modifies posts
      ensures var db := old(posts.Contents());
              var again := id in db.jobs && db.jobs[id].status == ReadyToPublish && db.jobs[id].selected == Some(v);
              && EndsWith(Solo(db, id, SelectStart(v, Finish), PreviewChoices(if again then 2 else 3, renders)),
                          posts.Contents())
              && if ok then
                   && id in posts.jobs && posts.jobs[id].selected == Some(v)
                   && ((posts.jobs[id].status in {Approved, Publishing, Published} && posts.Contents() == db)
                       || (posts.jobs[id].status == ReadyToPublish && Previewed(posts.Contents(), id, v)))
                 else posts.variants == old(posts.variants)
      ensures var db := old(posts.Contents());
              var owned := id in db.jobs && v in db.variants && db.variants[v].job == id;
              var done := owned && db.jobs[id].selected == Some(v)
                          && db.jobs[id].status in {Approved, Publishing, Published};
              && (!owned ==> !ok && posts.Contents() == db)
              && (done ==> ok && posts.Contents() == db)
              && (owned && !done ==>
                    posts.jobs == if db.jobs[id].status == ReadyToPublish && db.jobs[id].selected == Some(v) then
                                    db.jobs
                                  else if db.jobs[id].status == ReadyToPublish then
                                    db.jobs[id := db.jobs[id].(selected := Some(v), updatedAt := db.now)]
                                  else if CanTransition(db.jobs[id].status, ReadyToPublish) then
                                    db.jobs[id := db.jobs[id].(status := ReadyToPublish, selected := Some(v),
                                                               updatedAt := db.now)]
                                  else db.jobs)
              && (ok && !done ==>
                    posts.variants == db.variants[v := db.variants[v].(image := Upload(v, db.variants[v].caption))])
              && posts.logs == db.logs && posts.nextVariant == db.nextVariant && posts.now == db.now
    {
      hide EndsWith, Reached, StateAt, CanTransition;
      var again := id in posts.jobs && posts.jobs[id].status == ReadyToPublish && posts.jobs[id].selected == Some(v);
      ghost var n := if again then 2 else 3;
      ghost var run := Solo(posts.Contents(), id, SelectStart(v, Finish), PreviewChoices(n, renders));
      SetOut(run);
      SelectStarts(run, 0, posts.Contents(), v, Finish);
      if v !in posts.variants || posts.variants[v].job != id {
        Ends(run, 1, posts.Contents());
        return false;
      }
      SelectReads(run, 1, posts.Contents(), v, Finish);
      if id !in posts.jobs {
        Ends(run, 2, posts.Contents());
        return false;
      }
      var job := posts.jobs[id];
      if job.selected == Some(v) && (job.status == Approved || job.status == Publishing || job.status == Published) {
        Ends(run, 2, posts.Contents());
        return true;
      }
      if !again {
        SelectCommits(run, 2, posts.Contents(), v, job.status == ReadyToPublish, Finish);
        var outcome;
        if job.status == ReadyToPublish {
          outcome := posts.ReselectVariant(id, v);
        } else {
          outcome := posts.SelectVariant(id, v);
        }
        if outcome != Committed {
          Ends(run, 3, posts.Contents());
          return false;
        }
      }
      ghost var last;
      ok, last := PreparePreview(id, renders, run, n, Finish);
      Ends(run, last, posts.Contents());
    }

    /**
     Refuses a caption that is blank or too long. An accepted edit succeeds unless it is the
     selected variant's and its new preview cannot be stored.
     */
    method UpdateVariantCaption(id: JobId, v: VariantId, text: string, renders: Renders) returns (ok: bool)
      modifies posts
      ensures var caption, db := Trim(text), old(posts.Contents());
              var accepted := && id in db.jobs
                              && (db.jobs[id].status == WaitingVariantApproval || db.jobs[id].status == ReadyToPublish)
                              && '\0' !in caption && v in db.variants && db.variants[v].job == id;
              if caption == [] || |caption| > 2200 then !ok && posts.Contents() == db
              else
                && EndsWith(Solo(db, id, EditCommit(v, caption), PreviewChoices(1, renders)), posts.Contents())
                && (!accepted ==> !ok && posts.Contents() == db)
                && (accepted ==>
                      && posts.variants.Keys == db.variants.Keys
                      && (ok <==> db.jobs[id].selected != Some(v) || posts.variants[v].image == Upload(v, caption))
                      && (db.jobs[id].selected != Some(v) ==> posts.variants[v].image == Blank)
                      && posts.variants == db.variants[v :=
                           db.variants[v].(caption := caption, image := posts.variants[v].image)]
                      && (posts.variants[v].image == Blank || posts.variants[v].image == Upload(v, caption)))
                && posts.jobs == db.jobs && posts.logs == db.logs && posts.nextVariant == db.nextVariant
                && posts.now == db.now
    {
      hide EndsWith, Reached, StateAt, Trim;
      var caption := Trim(text);
      if |caption| == 0 || |caption| > MAX_CAPTION { return false; }
      ghost var run := Solo(posts.Contents(), id, EditCommit(v, caption), PreviewChoices(1, renders));
      SetOut(run);
      EditCommits(run, 0, posts.Contents(), v, caption);
      var outcome, isSelected := posts.UpdateVariantCaption(id, v, caption);
      if outcome != Committed || !isSelected {
        Ends(run, 1, posts.Contents());
        return outcome == Committed;
      }
      ghost var last;
      ok, last := PreparePreview(id, renders, run, 1, Finish);
      Ends(run, last, posts.Contents());
    }

    /**
     Succeeds if and only if the job is on its way out afterwards, so asking again is harmless. A
     reviewed job is approved if its selected variant has artwork or can be given some.
     */
    method QueuePublish(id: JobId, renders: Renders) returns (ok: bool)
      modifies posts
      ensures EndsWith(Solo(old(posts.Contents()), id, QueueRead, PreviewChoices(2, renders)), posts.Contents())
      ensures ok <==>
                && id in posts.jobs
                && (posts.jobs[id].status == Approved || posts.jobs[id].status == Publishing
                    || posts.jobs[id].status == Published)
      ensures var db := old(posts.Contents());
              if id in db.jobs && db.jobs[id].status == ReadyToPublish then
                && (ok ==> HasArtwork(posts.Contents(), id)) && (HasArtwork(db, id) ==> ok)
                && posts.jobs == (if ok then db.jobs[id := db.jobs[id].(status := Approved, updatedAt := db.now)]
                                  else db.jobs)
                && posts.variants == ReviewedVariants(db, id, ok)
                && posts.logs == db.logs && posts.nextVariant == db.nextVariant && posts.now == db.now
              else posts.Contents() == db
    {
      hide EndsWith, Reached, StateAt, CanTransition;
      EdgesInto(ReadyToPublish, Approved);
      ghost var run := Solo(posts.Contents(), id, QueueRead, PreviewChoices(2, renders));
      SetOut(run);
      QueueReads(run, 0, posts.Contents());
      if id !in posts.jobs || posts.jobs[id].status != ReadyToPublish || posts.jobs[id].selected.None? {
        Ends(run, 1, posts.Contents());
        return id in posts.jobs
            && (posts.jobs[id].status == Approved || posts.jobs[id].status == Publishing
                || posts.jobs[id].status == Published);
      }
      ghost var last;
      ok, last := Review(id, posts.jobs[id].selected.value, renders, run, ThenApprove);
      if ok {
        ApproveCommits(run, last, posts.Contents());
        var outcome := posts.UpdateStatus(id, Approved);
        Ends(run, last + 1, posts.Contents());
        return outcome == Committed;
      }
      Ends(run, last, posts.Contents());
    }

    /** Before approving or scheduling: the selected variant has to have artwork, which is made if there is none. */
    method Review(id: JobId, v: VariantId, renders: Renders, ghost run: Solo, ghost cont: Cont)
      returns (ok: bool, ghost next: nat)
      requires run.id == id && run.choices == PreviewChoices(2, renders)
      requires Reached(run, 1, posts.Contents(), Some(ReviewLoaded(v, cont)))
      requires id in posts.jobs && posts.jobs[id].selected == Some(v)
      modifies posts`variants
      ensures next < |run.choices|
      ensures Reached(run, next, posts.Contents(), if ok then Resume(cont) else None)
      ensures (ok ==> HasArtwork(posts.Contents(), id)) && (HasArtwork(old(posts.Contents()), id) ==> ok)
      ensures ok && !HasArtwork(old(posts.Contents()), id) ==> renders[0].None? || renders[1].None?
      ensures posts.variants == ReviewedVariants(old(posts.Contents()), id, ok)
    {
      hide Reached, StateAt, Resume;
      ReviewLoads(run, 1, posts.Contents(), v, cont);
      if v !in posts.variants { return false, 2; }
      if posts.variants[v].image != Blank { return true, 2; }
      ok, next := PreparePreview(id, renders, run, 2, cont);
    }

    /** The time has to lie ahead, and not beyond the horizon. Succeeds if and only if it is then the time in force. */
    method SchedulePublish(id: JobId, at: Time, renders: Renders, text: Texts) returns (ok: bool)
      modifies posts, outbox
      ensures var db := old(posts.Contents());
              if at <= db.now || at > db.now + 30 * 24 * 3600 then !ok && posts.Contents() == db
              else
                && EndsWith(Solo(db, id, ScheduleRead(at), PreviewChoices(2, renders)), posts.Contents())
                && (ok <==> id in posts.jobs && posts.jobs[id].status == Scheduled)
                && (ok ==> posts.jobs[id].scheduledAt == Some(at))
      ensures var db := old(posts.Contents());
              && (ok ==>
                    && id in db.jobs && (db.jobs[id].status == Scheduled || db.jobs[id].status == ReadyToPublish)
                    && posts.jobs == db.jobs[id :=
                         db.jobs[id].(status := Scheduled, scheduledAt := Some(at), updatedAt := db.now)])
              && (!ok ==> posts.Contents() == db)
              && (id in db.jobs && db.jobs[id].status == Scheduled && db.now < at <= db.now + 30 * 24 * 3600 ==>
                    ok && posts.variants == db.variants)
              && (id in db.jobs && db.jobs[id].status == ReadyToPublish && db.now < at <= db.now + 30 * 24 * 3600 ==>
                    && (ok ==> HasArtwork(posts.Contents(), id)) && (HasArtwork(db, id) ==> ok)
                    && posts.variants == ReviewedVariants(db, id, ok))
              && posts.logs == db.logs && posts.nextVariant == db.nextVariant && posts.now == db.now
      ensures outbox.Contents()
           == EnqueueAll(old(outbox.Contents()), if ok then [OutboxTable.ScheduledNotice(id, at)] else [], text)
    {
      hide EndsWith, Reached, StateAt, CanTransition, EnqueueAll;
      EdgesInto(ReadyToPublish, Scheduled);
      NothingToReport(posts.Contents(), id, outbox.Contents(), text);
      if at <= posts.now || at > posts.now + HORIZON { return false; }
      ghost var run := Solo(posts.Contents(), id, ScheduleRead(at), PreviewChoices(2, renders));
      SetOut(run);
      ScheduleReads(run, 0, posts.Contents(), at);
      if id !in posts.jobs {
        Ends(run, 1, posts.Contents());
        return false;
      }
      if posts.jobs[id].status == Scheduled {
        RescheduleCommits(run, 1, posts.Contents(), at);
        var outcome := posts.Reschedule(id, at);
        Ends(run, 2, posts.Contents());
        ok := outcome == Committed;
      } else if posts.jobs[id].status != ReadyToPublish || posts.jobs[id].selected.None? {
        Ends(run, 1, posts.Contents());
        return false;
      } else {
        ghost var last;
        ok, last := Review(id, posts.jobs[id].selected.value, renders, run, ThenSchedule(at));
        if !ok {
          Ends(run, last, posts.Contents());
          return false;
        }
        ScheduleCommits(run, last, posts.Contents(), at);
        var outcome := posts.Schedule(id, at);
        Ends(run, last + 1, posts.Contents());
        ok := outcome == Committed;
      }
      if ok { Notify(OutboxTable.ScheduledNotice(id, at), text); }
    }

    // ---- workers ----

    method ScoreListedJob(id: JobId, j: Judgement, text: Texts)
      modifies posts`jobs, outbox
      ensures EndsWith(Solo(old(posts.Contents()), id, ScoreListed, ScoreChoices(j)), posts.Contents())
      ensures outbox.Contents()
           == EnqueueAll(old(outbox.Contents()), NoticesOf(old(posts.Contents()), posts.Contents(), id), text)
      ensures var rows := old(posts.jobs);
              if id !in rows || rows[id].status != ScoringQueued then
                posts.jobs == rows && outbox.Contents() == old(outbox.Contents())
              else
                && posts.jobs == rows[id := ScoredRow(rows[id], posts.now, j)]
                && outbox.Contents()
                   == EnqueueAll(old(outbox.Contents()),
                        if j.Judged? && j.notify then [OutboxTable.FirstApproval(id)] else [], text)
    {
      hide EndsWith, Reached, StateAt, EnqueueAll, NoticesOf, CanTransition, AfterPark,
           PostTables.ClaimStatus, PostTables.MarkFailed, PostTables.ParkForAIRetry;
      ghost var run := Solo(posts.Contents(), id, ScoreListed, ScoreChoices(j));
      ghost var db := posts.Contents();
      NothingToReport(db, id, outbox.Contents(), text);
      ScoringEdges();
      SetOut(run);
      ScoreClaims(run, 0, posts.Contents());
      var claim := posts.ClaimStatus(id, ScoringQueued, Scoring);
      if claim != Committed {
        Ends(run, 1, posts.Contents());
        return;
      }
      ScoreAnswered(run, 1, posts.Contents());
      match j {
        case NoContext(msg) =>
          ContextFails(run, 2, posts.Contents(), msg);
          var _ := posts.MarkFailed(id, msg);
          Ends(run, 3, posts.Contents());
        case NoProvider =>
          ParkedRow(posts.jobs[id], db.jobs[id], posts.now, "scoring: all AI providers failed");
          Park(id, "scoring: all AI providers failed");
          Ends(run, 2, posts.Contents());
        case NotSaved =>
          Ends(run, 2, posts.Contents());
        case Judged(notify, provider, model) =>
          StoreScore(id, notify, provider, model, text, run);
      }
      ScoringNotices(db, posts.Contents(), id);
    }

    /** Parks a job in an AI stage, or fails it for good. */
    method Park(id: JobId, reason: string)
      requires id in posts.jobs && (posts.jobs[id].status == Scoring || posts.jobs[id].status == GeneratingVariants)
      modifies posts`jobs
      ensures posts.Contents() == PostTables.ParkForAIRetry(old(posts.Contents()), id, reason).db
      ensures posts.jobs == old(posts.jobs)[id := AfterPark(old(posts.jobs)[id], posts.now, reason)]
    {
      hide CanTransition, PostTables.ParkForAIRetry;
      ScoringEdges();
      GenerationEdges();
      var _ := posts.ParkForAIRetry(id, reason);
    }

    /** The score is stored, and decides whether the job is offered to the operator or skipped. */
    method StoreScore(id: JobId, notify: bool, provider: string, model: string, text: Texts, ghost run: Solo)
      requires run.id == id && |run.choices| == 3 && run.choices[1] == AiScored(notify, provider, model)
      requires id in posts.jobs && posts.jobs[id].status == Scoring
      requires CanGoOn(run, 1, posts.Contents(), ScoreClaimed)
      modifies posts`jobs, outbox
      ensures EndsWith(run, posts.Contents())
      ensures posts.jobs == old(posts.jobs)[id :=
                old(posts.jobs)[id].(status := if notify then WaitingFirstApproval else Skipped,
                                     aiProvider := provider, aiModel := model, aiError := "",
                                     retries := 0, nextRetryAt := posts.now, updatedAt := posts.now)]
      ensures outbox.Contents()
           == EnqueueAll(old(outbox.Contents()), if notify then [OutboxTable.FirstApproval(id)] else [], text)
    {
      hide EndsWith, Reached, StateAt, EnqueueAll, CanTransition;
      ScoringEdges();
      NothingToReport(posts.Contents(), id, outbox.Contents(), text);
      ScoreAnswered(run, 1, posts.Contents());
      var outcome := posts.ApplyScored(id, ScoreUpdate(Scored, provider, model, ""));
      if outcome == Committed {
        ScoreDecides(run, 2, posts.Contents(), notify);
        outcome := posts.UpdateStatus(id, if notify then WaitingFirstApproval else Skipped);
        Ends(run, 3, posts.Contents());
        if outcome == Committed && notify { Notify(OutboxTable.FirstApproval(id), text); }
      }
    }

    method GenerateForListedJob(id: JobId, d: Draft, text: Texts)
      requires d.Drafted? ==> d.variants != []
      modifies posts, outbox
      ensures EndsWith(Solo(old(posts.Contents()), id, GenListed, DraftChoices(d)), posts.Contents())
      ensures outbox.Contents()
           == EnqueueAll(old(outbox.Contents()), NoticesOf(old(posts.Contents()), posts.Contents(), id), text)
      ensures var db := old(posts.Contents());
              if id !in db.jobs || db.jobs[id].status != VariantsQueued then
                posts.Contents() == db && outbox.Contents() == old(outbox.Contents())
              else
                match d
                case Unloaded(msg) =>
                  && posts.Contents() == db.(jobs := db.jobs[id :=
                       db.jobs[id].(status := Failed, error := msg, updatedAt := db.now)])
                  && outbox.Contents() == old(outbox.Contents())
                case Unanswered =>
                  && posts.Contents() == db.(jobs := db.jobs[id :=
                       AfterPark(db.jobs[id], db.now, "variants: all AI providers failed")])
                  && outbox.Contents()
                     == EnqueueAll(old(outbox.Contents()),
                          [if db.jobs[id].retries + 1 >= 8 then OutboxTable.VariantsExhausted(id)
                           else OutboxTable.VariantsParked(id)], text)
                case Drafted(vs) =>
                  if Storable(vs) then
                    && Replaced(db, posts.Contents(), id, vs)
                    && exists keys :: Offers(keys, id, db.nextVariant, |vs|)
                                      && outbox.Contents() == EnqueueAll(old(outbox.Contents()), keys, text)
                  else
                    && posts.Contents() == db.(jobs := db.jobs[id :=
                         db.jobs[id].(status := GeneratingVariants, updatedAt := db.now)])
                    && outbox.Contents() == old(outbox.Contents())
    {
      hide EndsWith, Reached, StateAt, EnqueueAll, NoticesOf, CanTransition, Storable, Replaced, Offers, AfterPark,
           VariantKeys, PostTables.ClaimStatus, PostTables.MarkFailed, PostTables.ParkForAIRetry,
           PostTables.ReplaceVariants;
      ghost var run := Solo(posts.Contents(), id, GenListed, DraftChoices(d));
      ghost var db := posts.Contents();
      NothingToReport(db, id, outbox.Contents(), text);
      GenerationEdges();
      SetOut(run);
      GenerationClaims(run, 0, posts.Contents());
      var claim := posts.ClaimStatus(id, VariantsQueued, GeneratingVariants);
      if claim != Committed {
        Ends(run, 1, posts.Contents());
        return;
      }
      GenerationAnswered(run, 1, posts.Contents());
      match d
      case Unloaded(msg) =>
        ContextFails(run, 2, posts.Contents(), msg);
        var _ := posts.MarkFailed(id, msg);
        Ends(run, 3, posts.Contents());
        GenerationNotices(db, posts.Contents(), id);
      case Unanswered =>
        ParkedRow(posts.jobs[id], db.jobs[id], posts.now, "variants: all AI providers failed");
        ParkGeneration(id, text);
        Ends(run, 2, posts.Contents());
        GenerationNotices(db, posts.Contents(), id);
      case Drafted(vs) =>
        ghost var claimed := posts.Contents();
        StoreDraft(id, vs, text, run);
        if Storable(vs) { DraftAfterClaim(db, claimed, posts.Contents(), id, vs); }
        GenerationNotices(db, posts.Contents(), id);
    }

    /** No provider drafted the variants: the claimed job is parked, or failed for good. */
    method ParkGeneration(id: JobId, text: Texts)
      requires id in posts.jobs && posts.jobs[id].status == GeneratingVariants
      modifies posts`jobs, outbox
      ensures posts.Contents()
           == PostTables.ParkForAIRetry(old(posts.Contents()), id, "variants: all AI providers failed").db
      ensures posts.jobs == old(posts.jobs)[id :=
                AfterPark(old(posts.jobs)[id], posts.now, "variants: all AI providers failed")]
      ensures outbox.Contents()
           == EnqueueAll(old(outbox.Contents()),
                [if old(posts.jobs)[id].retries + 1 >= 8 then OutboxTable.VariantsExhausted(id)
                 else OutboxTable.VariantsParked(id)], text)
    {
      hide EnqueueAll;
      Park(id, "variants: all AI providers failed");
      if posts.jobs[id].status == Failed {
        Notify(OutboxTable.VariantsExhausted(id), text);
      } else {
        Notify(OutboxTable.VariantsParked(id), text);
      }
    }

    /** The drafted variants replace the old ones and go to review, unless the database refuses them. */
    method StoreDraft(id: JobId, vs: seq<NewVariant>, text: Texts, ghost run: Solo)
      requires vs != [] && run.id == id && |run.choices| == 3 && run.choices[1] == AiVariants(vs)
      requires id in posts.jobs && posts.jobs[id].status == GeneratingVariants
      requires CanGoOn(run, 1, posts.Contents(), GenClaimed)
      modifies posts, outbox
      ensures EndsWith(run, posts.Contents())
      ensures if Storable(vs) then
                && Replaced(old(posts.Contents()), posts.Contents(), id, vs)
                && exists keys :: && Offers(keys, id, old(posts.nextVariant), |vs|)
                                  && keys == VariantKeys(id, old(posts.nextVariant), |vs|)
                                  && outbox.Contents() == EnqueueAll(old(outbox.Contents()), keys, text)
              else posts.Contents() == old(posts.Contents()) && outbox.Contents() == old(outbox.Contents())
    {
      hide EndsWith, Reached, StateAt, EnqueueAll, CanTransition, VariantKeys, Offers,
           PostTables.ReplaceVariants, PostTables.CompleteAIStage;
      GenerationEdges();
      GenerationAnswered(run, 1, posts.Contents());
      var outcome, saved := posts.ReplaceVariants(id, vs);
      if outcome != Committed {
        Ends(run, 2, posts.Contents());
        return;
      }
      GenerationCompletes(run, 2, posts.Contents());
      outcome := posts.CompleteAIStage(id, WaitingVariantApproval);
      Ends(run, 3, posts.Contents());
      if outcome == Committed { QueueVariantApproval(id, saved, text); }
    }

    /** One notice for each variant, then the one that asks to pick among them. */
    method QueueVariantApproval(id: JobId, saved: seq<VariantId>, text: Texts)
      requires saved != [] && forall i :: 0 <= i < |saved| ==> saved[i] == saved[0] + i
      modifies outbox
      ensures outbox.Contents() == EnqueueAll(old(outbox.Contents()), VariantKeys(id, saved[0], |saved|), text)
      ensures exists keys :: && Offers(keys, id, saved[0], |saved|) && keys == VariantKeys(id, saved[0], |saved|)
                             && outbox.Contents() == EnqueueAll(old(outbox.Contents()), keys, text)
    {
      hide OutboxTable.Insert;
      ghost var keys: seq<Key> := [];
      ghost var before := outbox.Contents();
      for i := 0 to |saved|
        invariant keys == VariantKeys(id, saved[0], |saved|)[..i]
        invariant outbox.Contents() == EnqueueAll(before, keys, text)
      {
        EnqueueOneMore(before, keys, OutboxTable.VariantContent(id, saved[i]), text);
        outbox.Enqueue(OutboxTable.VariantContent(id, saved[i]), text(OutboxTable.VariantContent(id, saved[i])));
        keys := keys + [OutboxTable.VariantContent(id, saved[i])];
      }
      var last := OutboxTable.VariantApproval(id, saved[0]);
      EnqueueOneMore(before, keys, last, text);
      outbox.Enqueue(last, text(last));
      assert keys + [last] == VariantKeys(id, saved[0], |saved|);
      assert Offers(keys + [last], id, saved[0], |saved|);
    }

    // ---- passes over a listing ----

    /** Lists once, then works through the list; a job another worker has taken meanwhile loses its claim. */
    method ProcessScoringQueue(judge: JobId -> Judgement, text: Texts)
      returns (ghost ids: seq<JobId>, ghost keys: seq<Key>)
      modifies posts, outbox
      ensures Earliest(QueueKeys(old(posts.Contents()), ScoringQueued), 5, ids)
      ensures forall id ::
                (&& id in old(posts.jobs) && old(posts.jobs)[id].status == ScoringQueued
                 && old(posts.jobs)[id].nextRetryAt <= old(posts.now) && id !in ids) ==> |ids| == 5
      ensures Pass(old(posts.Contents()), ScoringWorks(ids, judge), posts.Contents(), keys)
      ensures outbox.Contents() == EnqueueAll(old(outbox.Contents()), keys, text)
      ensures forall id :: id in old(posts.jobs) && id !in ids ==>
                id in posts.jobs && posts.jobs[id] == old(posts.jobs)[id]
      ensures forall id :: id in ids ==>
                && id in old(posts.jobs) && id in posts.jobs
                && posts.jobs[id] == ScoredRow(old(posts.jobs)[id], old(posts.now), judge(id))
    {
      hide Earliest, QueueKeys, DueKeys, Pass, EnqueueAll;
      var listed := posts.ListByStatus(ScoringQueued, WORKER_BATCH);
      ids := listed;
      keys := ScoreInTurn(listed, judge, text);
    }

    /** Works through the listing. */
    method ScoreInTurn(listed: seq<JobId>, judge: JobId -> Judgement, text: Texts) returns (ghost keys: seq<Key>)
      requires Earliest(QueueKeys(posts.Contents(), ScoringQueued), 5, listed)
      modifies posts, outbox
      ensures Pass(old(posts.Contents()), ScoringWorks(listed, judge), posts.Contents(), keys)
      ensures outbox.Contents() == EnqueueAll(old(outbox.Contents()), keys, text)
      ensures forall id :: id in old(posts.jobs) && id !in listed ==>
                id in posts.jobs && posts.jobs[id] == old(posts.jobs)[id]
      ensures forall id :: id in listed ==>
                && id in old(posts.jobs) && id in posts.jobs
                && posts.jobs[id] == ScoredRow(old(posts.jobs)[id], old(posts.now), judge(id))
    {
      hide EndsWith, ScoreChoices, Pass, CanList, InQueue, Earliest, EnqueueAll, NoticesOf, ScoredRow, QueueKeys;
      ghost var before, sent := posts.Contents(), outbox.Contents();
      ListedAreQueued(before, ScoringQueued, WORKER_BATCH, listed);
      keys := [];
      ghost var works := ScoringWorks(listed, judge);
      StartPass(before, works, sent, text);
      for i := 0 to |listed|
        invariant Pass(before, works[..i], posts.Contents(), keys)
        invariant outbox.Contents() == EnqueueAll(sent, keys, text)
        invariant posts.now == before.now
        invariant forall id :: id in before.jobs && id !in listed[..i] ==>
                    id in posts.jobs && posts.jobs[id] == before.jobs[id]
        invariant forall k :: 0 <= k < i ==>
                    && listed[k] in posts.jobs
                    && posts.jobs[listed[k]] == ScoredRow(before.jobs[listed[k]], before.now, judge(listed[k]))
      {
        assert listed[i] !in listed[..i] && listed[..i + 1] == listed[..i] + [listed[i]];
        QueuedIsListable(before, listed[i]);
        ghost var mid := posts.Contents();
        ScoreListedJob(listed[i], judge(listed[i]), text);
        keys := NextWork(before, works, i, mid, posts.Contents(), sent, keys, text);
      }
      assert works[..|listed|] == works;
    }

    method ProcessVariantQueue(draft: JobId -> Draft, text: Texts) returns (ghost ids: seq<JobId>, ghost keys: seq<Key>)
      requires forall id :: draft(id).Drafted? ==> draft(id).variants != []
      modifies posts, outbox
      ensures Earliest(QueueKeys(old(posts.Contents()), VariantsQueued), 5, ids)
      ensures forall id ::
                (&& id in old(posts.jobs) && old(posts.jobs)[id].status == VariantsQueued
                 && old(posts.jobs)[id].nextRetryAt <= old(posts.now) && id !in ids) ==> |ids| == 5
      ensures Pass(old(posts.Contents()), GenerationWorks(ids, draft), posts.Contents(), keys)
      ensures outbox.Contents() == EnqueueAll(old(outbox.Contents()), keys, text)
      ensures forall id :: id in old(posts.jobs) && id !in ids ==>
                id in posts.jobs && posts.jobs[id] == old(posts.jobs)[id]
      ensures forall id :: id in ids ==>
                && id in old(posts.jobs) && id in posts.jobs
                && posts.jobs[id] == GeneratedRow(old(posts.jobs)[id], old(posts.now), draft(id))
    {
      hide Earliest, QueueKeys, DueKeys, Pass, EnqueueAll;
      var listed := posts.ListByStatus(VariantsQueued, WORKER_BATCH);
      ids := listed;
      keys := GenerateInTurn(listed, draft, text);
    }

    /** Works through the listing. */
    method GenerateInTurn(listed: seq<JobId>, draft: JobId -> Draft, text: Texts) returns (ghost keys: seq<Key>)
      requires forall id :: draft(id).Drafted? ==> draft(id).variants != []
      requires Earliest(QueueKeys(posts.Contents(), VariantsQueued), 5, listed)
      modifies posts, outbox
      ensures Pass(old(posts.Contents()), GenerationWorks(listed, draft), posts.Contents(), keys)
      ensures outbox.Contents() == EnqueueAll(old(outbox.Contents()), keys, text)
      ensures forall id :: id in old(posts.jobs) && id !in listed ==>
                id in posts.jobs && posts.jobs[id] == old(posts.jobs)[id]
      ensures forall id :: id in listed ==>
                && id in old(posts.jobs) && id in posts.jobs
                && posts.jobs[id] == GeneratedRow(old(posts.jobs)[id], old(posts.now), draft(id))
    {
      hide EndsWith, DraftChoices, Pass, CanList, InQueue, Earliest, EnqueueAll, NoticesOf, GeneratedRow, QueueKeys,
           Replaced, Offers, Storable, AfterPark;
      ghost var before, sent := posts.Contents(), outbox.Contents();
      ListedAreQueued(before, VariantsQueued, WORKER_BATCH, listed);
      keys := [];
      ghost var works := GenerationWorks(listed, draft);
      StartPass(before, works, sent, text);
      for i := 0 to |listed|
        invariant Pass(before, works[..i], posts.Contents(), keys)
        invariant outbox.Contents() == EnqueueAll(sent, keys, text)
        invariant posts.now == before.now
        invariant forall id :: id in before.jobs && id !in listed[..i] ==>
                    id in posts.jobs && posts.jobs[id] == before.jobs[id]
        invariant forall k :: 0 <= k < i ==>
                    && listed[k] in posts.jobs
                    && posts.jobs[listed[k]] == GeneratedRow(before.jobs[listed[k]], before.now, draft(listed[k]))
      {
        assert listed[i] !in listed[..i] && listed[..i + 1] == listed[..i] + [listed[i]];
        QueuedIsListable(before, listed[i]);
        ghost var mid := posts.Contents();
        GenerateForListedJob(listed[i], draft(listed[i]), text);
        GeneratedByDraft(mid, posts.Contents(), listed[i], draft(listed[i]));
        keys := NextWork(before, works, i, mid, posts.Contents(), sent, keys, text);
      }
      assert works[..|listed|] == works;
    }

    method RetryListedJob(id: JobId, target: Status)
      modifies posts`jobs
      ensures EndsWith(Solo(old(posts.Contents()), id, RetryListed(target), [Proceed]), posts.Contents())
      ensures NoticesOf(old(posts.Contents()), posts.Contents(), id) == []
      ensures target == VariantsQueued || target == ScoringQueued ==>
                posts.jobs == if id !in old(posts.jobs) || old(posts.jobs)[id].status != WaitingAI then old(posts.jobs)
                              else old(posts.jobs)[id := old(posts.jobs)[id].(status := target, updatedAt := posts.now)]
    {
      hide EndsWith, Reached, StateAt;
      ghost var run := Solo(posts.Contents(), id, RetryListed(target), [Proceed]);
      SetOut(run);
      RetryQueues(run, 0, posts.Contents(), target);
      var _ := posts.ClaimStatus(id, WaitingAI, target);
      Ends(run, 1, posts.Contents());
    }

    /** The target is picked from the row as it was listed. */
    method RetryWaitingAI() returns (ghost ids: seq<JobId>)
      modifies posts`jobs
      ensures Earliest(QueueKeys(old(posts.Contents()), WaitingAI), 50, ids)
      ensures Pass(old(posts.Contents()), RetryWorks(old(posts.Contents()), ids), posts.Contents(), [])
      ensures posts.jobs.Keys == old(posts.jobs).Keys
      ensures forall id :: id in posts.jobs ==>
                posts.jobs[id] == if id !in ids then old(posts.jobs)[id]
                                  else
                                    old(posts.jobs)[id].(
                                      status := if old(posts.jobs)[id].requestedVariants > 0 then VariantsQueued
                                                else ScoringQueued,
                                      updatedAt := posts.now)
      // every job whose retry is due is among them, unless fifty others have waited at least as long
      ensures forall id ::
                (&& id in old(posts.jobs) && old(posts.jobs)[id].status == WaitingAI
                 && old(posts.jobs)[id].nextRetryAt <= posts.now && id !in ids) ==>
                  |ids| == 50 && forall i :: 0 <= i < |ids| ==>
                    ids[i] in old(posts.jobs) && old(posts.jobs)[ids[i]].updatedAt <= old(posts.jobs)[id].updatedAt
    {
      hide EndsWith, Pass, CanList, InQueue, Earliest, NoticesOf, QueueKeys, RetryWorks, InTurn;
      var listed := posts.ListByStatus(WaitingAI, RETRY_BATCH);
      ids := listed;
      QueueRetries(listed, posts.jobs);
    }

    /** Works through the listing; seen holds the rows as they were listed. */
    method QueueRetries(listed: seq<JobId>, seen: map<JobId, Job>)
      requires seen == posts.jobs
      requires Earliest(QueueKeys(posts.Contents(), WaitingAI), 50, listed)
      modifies posts`jobs
      ensures Pass(old(posts.Contents()), RetryWorks(old(posts.Contents()), listed), posts.Contents(), [])
      ensures posts.jobs.Keys == seen.Keys
      ensures forall id :: id in posts.jobs ==>
                posts.jobs[id] == if id !in listed then seen[id]
                                  else
                                    seen[id].(
                                      status := if seen[id].requestedVariants > 0 then VariantsQueued
                                                else ScoringQueued,
                                      updatedAt := posts.now)
    {
      hide EndsWith, Pass, CanList, InQueue, Earliest, NoticesOf, QueueKeys;
      ghost var before := posts.Contents();
      ListedAreQueued(before, WaitingAI, RETRY_BATCH, listed);
      ghost var works := RetryWorks(before, listed);
      EmptyPass(before);
      assert works[..0] == [];
      for i := 0 to |listed|
        invariant Pass(before, works[..i], posts.Contents(), [])
        invariant posts.jobs.Keys == seen.Keys
        invariant forall id :: id in seen ==>
                    posts.jobs[id] == if id !in listed[..i] then seen[id]
                                      else
                                        seen[id].(status := if seen[id].requestedVariants > 0 then VariantsQueued
                                                            else ScoringQueued,
                                                  updatedAt := posts.now)
      {
        assert listed[i] !in listed[..i] && listed[..i + 1] == listed[..i] + [listed[i]];
        QueuedIsListable(before, listed[i]);
        var target := if seen[listed[i]].requestedVariants > 0 then VariantsQueued else ScoringQueued;
        ghost var mid := posts.Contents();
        RetryListedJob(listed[i], target);
        OneMoreRetry(before, works, i, mid, posts.Contents());
      }
      assert works[..|listed|] == works && listed[..|listed|] == listed;
    }

    method PublishApproved(outside: JobId -> Outside, text: Texts) returns (ghost ids: seq<JobId>, ghost keys: seq<Key>)
      requires forall id :: Faithful(outside(id))
      modifies posts, outbox
      ensures Earliest(QueueKeys(old(posts.Contents()), Approved), 20, ids)
      ensures forall id ::
                (&& id in old(posts.jobs) && old(posts.jobs)[id].status == Approved
                 && old(posts.jobs)[id].nextRetryAt <= old(posts.now) && id !in ids) ==> |ids| == 20
      ensures Pass(old(posts.Contents()), PublishWorks(ids, outside), posts.Contents(), keys)
      ensures outbox.Contents() == EnqueueAll(old(outbox.Contents()), keys, text)
      ensures forall id :: id in old(posts.jobs) && id !in ids ==>
                id in posts.jobs && posts.jobs[id] == old(posts.jobs)[id]
      ensures forall id :: id in ids ==>
                && id in old(posts.jobs) && id in posts.jobs
                && Settled(old(posts.jobs)[id], posts.jobs[id], old(posts.now), outside(id))
    {
      hide Earliest, QueueKeys, DueKeys, Pass, EnqueueAll;
      var listed := posts.ListByStatus(Approved, PUBLISH_BATCH);
      ids := listed;
      keys := PublishInTurn(listed, outside, text);
    }

    /** Works through the listing. */
    method PublishInTurn(listed: seq<JobId>, outside: JobId -> Outside, text: Texts) returns (ghost keys: seq<Key>)
      requires forall id :: Faithful(outside(id))
      requires Earliest(QueueKeys(posts.Contents(), Approved), 20, listed)
      modifies posts, outbox
      ensures Pass(old(posts.Contents()), PublishWorks(listed, outside), posts.Contents(), keys)
      ensures outbox.Contents() == EnqueueAll(old(outbox.Contents()), keys, text)
      ensures forall id :: id in old(posts.jobs) && id !in listed ==>
                id in posts.jobs && posts.jobs[id] == old(posts.jobs)[id]
      ensures forall id :: id in listed ==>
                && id in old(posts.jobs) && id in posts.jobs
                && Settled(old(posts.jobs)[id], posts.jobs[id], old(posts.now), outside(id))
    {
      hide EndsWith, PublishChoices, Faithful, Pass, CanList, InQueue, Earliest, EnqueueAll, NoticesOf,
           PublishedOrFailed, Settled;
      ghost var before, sent := posts.Contents(), outbox.Contents();
      ListedAreQueued(before, Approved, PUBLISH_BATCH, listed);
      keys := [];
      ghost var works := PublishWorks(listed, outside);
      StartPass(before, works, sent, text);
      for i := 0 to |listed|
        invariant Pass(before, works[..i], posts.Contents(), keys)
        invariant outbox.Contents() == EnqueueAll(sent, keys, text)
        invariant posts.now == before.now
        invariant forall id :: id in before.jobs && id !in listed[..i] ==>
                    id in posts.jobs && posts.jobs[id] == before.jobs[id]
        invariant forall k :: 0 <= k < i ==>
                    && listed[k] in posts.jobs
                    && Settled(before.jobs[listed[k]], posts.jobs[listed[k]], before.now, outside(listed[k]))
      {
        assert listed[i] !in listed[..i] && listed[..i + 1] == listed[..i] + [listed[i]];
        QueuedIsListable(before, listed[i]);
        ghost var mid := posts.Contents();
        var ok, request := PublishJob(listed[i], outside(listed[i]), text);
        SettledAlone(mid, posts.Contents(), listed[i], outside(listed[i]), ok, request);
        keys := NextWork(before, works, i, mid, posts.Contents(), sent, keys, text);
      }
      assert works[..|listed|] == works;
    }

    method PromoteAndPublish(id: JobId, asOf: Time, o: Outside, text: Texts)
      requires Faithful(o)
      modifies posts, outbox
      ensures EndsWith(Solo(old(posts.Contents()), id, DueListed(asOf), [Proceed] + PublishChoices(o)),
              posts.Contents())
      ensures outbox.Contents()
           == EnqueueAll(old(outbox.Contents()), NoticesOf(old(posts.Contents()), posts.Contents(), id), text)
      ensures var db := old(posts.Contents());
              if id !in db.jobs || db.jobs[id].status != Scheduled || db.jobs[id].scheduledAt.None?
                 || asOf < db.jobs[id].scheduledAt.value then
                posts.Contents() == db && outbox.Contents() == old(outbox.Contents())
              else if !o.loaded || db.jobs[id].selected.None? then
                && posts.Contents()
                   == db.(jobs := db.jobs[id := db.jobs[id].(status := Approved, updatedAt := db.now)])
                && outbox.Contents() == old(outbox.Contents())
              else
                exists ok, sent ::
                  && PublishedOrFailed(db, posts.Contents(), id, db.jobs[id].selected.value, o, ok, sent)
                  && outbox.Contents()
                     == EnqueueAll(old(outbox.Contents()),
                          [if ok then OutboxTable.PublishedNotice(id) else OutboxTable.FailedNotice(id)], text)
    {
      hide EndsWith, Reached, StateAt, Faithful, EnqueueAll, PublishedOrFailed, NoticesOf;
      ghost var run := Solo(posts.Contents(), id, DueListed(asOf), [Proceed] + PublishChoices(o));
      ghost var db := posts.Contents();
      NothingToReport(db, id, outbox.Contents(), text);
      SetOut(run);
      DuePromotes(run, 0, posts.Contents(), asOf);
      var claimed := posts.ClaimScheduledDue(id, asOf);
      if !claimed {
        Ends(run, 1, posts.Contents());
        return;
      }
      ghost var promoted := posts.Contents();
      PromotionIsQuiet(db, promoted, id);
      var ok, sent := PublishListedJob(id, o, text, run, 1);
      if o.loaded && promoted.jobs[id].selected.Some? {
        var v := promoted.jobs[id].selected.value;
        ClaimIsNoChange(db, promoted, posts.Contents(), id, Approved, v, o, ok, sent);
        PublishNotices(db, posts.Contents(), id, v, o, ok, sent);
      }
    }

    method ProcessScheduledPublishes(outside: JobId -> Outside, text: Texts)
      returns (ghost ids: seq<JobId>, ghost keys: seq<Key>)
      requires forall id :: Faithful(outside(id))
      modifies posts, outbox
      ensures Earliest(DueKeys(old(posts.Contents()), old(posts.now)), 20, ids)
      ensures forall id ::
                (&& id in old(posts.jobs) && old(posts.jobs)[id].status == Scheduled
                 && old(posts.jobs)[id].scheduledAt.Some? && old(posts.jobs)[id].scheduledAt.value <= old(posts.now)
                 && id !in ids) ==> |ids| == 20
      ensures Pass(old(posts.Contents()), PromotionWorks(ids, old(posts.now), outside), posts.Contents(), keys)
      ensures outbox.Contents() == EnqueueAll(old(outbox.Contents()), keys, text)
      ensures forall id :: id in old(posts.jobs) && id !in ids ==>
                id in posts.jobs && posts.jobs[id] == old(posts.jobs)[id]
      ensures forall id :: id in ids ==>
                && id in old(posts.jobs) && id in posts.jobs
                && Settled(old(posts.jobs)[id], posts.jobs[id], old(posts.now), outside(id))
    {
      hide EndsWith, PublishChoices, Faithful, Pass, CanList, DueBy, Earliest, EnqueueAll, NoticesOf,
           PublishedOrFailed, Settled;
      ghost var before, sent := posts.Contents(), outbox.Contents();
      var asOf := posts.now;
      var listed := posts.ListDueScheduled(asOf, PUBLISH_BATCH);
      ListedAreDue(before, PUBLISH_BATCH, listed);
      ids, keys := listed, [];
      ghost var works := PromotionWorks(ids, asOf, outside);
      StartPass(before, works, sent, text);
      for i := 0 to |listed|
        invariant Pass(before, works[..i], posts.Contents(), keys)
        invariant outbox.Contents() == EnqueueAll(sent, keys, text)
        invariant posts.now == before.now
        invariant forall id :: id in before.jobs && id !in listed[..i] ==>
                    id in posts.jobs && posts.jobs[id] == before.jobs[id]
        invariant forall k :: 0 <= k < i ==>
                    && listed[k] in posts.jobs
                    && Settled(before.jobs[listed[k]], posts.jobs[listed[k]], before.now, outside(listed[k]))
      {
        assert listed[i] !in listed[..i] && listed[..i + 1] == listed[..i] + [listed[i]];
        QueuedIsListable(before, listed[i]);
        ghost var mid := posts.Contents();
        DueRow(mid.jobs[listed[i]], asOf);
        PromoteAndPublish(listed[i], asOf, outside(listed[i]), text);
        PromotedAlone(mid, posts.Contents(), listed[i], outside(listed[i]));
        keys := NextWork(before, works, i, mid, posts.Contents(), sent, keys, text);
      }
      assert works[..|listed|] == works;
    }
  }

  /** The claim itself leaves no trace in what follows from it. */
  lemma ClaimIsNoChange(db: Tables, claimed: Tables, after: Tables, id: JobId, st: Status, v: VariantId,
                        o: Outside, ok: bool, sent: Option<PublishRequest>)
    requires id in db.jobs
    requires claimed == db.(jobs := db.jobs[id := db.jobs[id].(status := st, updatedAt := db.now)])
    requires PublishedOrFailed(claimed, after, id, v, o, ok, sent)
    ensures PublishedOrFailed(db, after, id, v, o, ok, sent)
  {
    assert after.jobs == claimed.jobs[id := after.jobs[id]] == db.jobs[id := after.jobs[id]];
  }

  lemma SettledAlone(db: Tables, after: Tables, id: JobId, o: Outside, ok: bool, sent: Option<PublishRequest>)
    requires id in db.jobs && db.jobs[id].status == Approved
    requires if o.loaded && db.jobs[id].selected.Some? then
               PublishedOrFailed(db, after, id, db.jobs[id].selected.value, o, ok, sent)
             else after == db
    ensures id in after.jobs && Settled(db.jobs[id], after.jobs[id], db.now, o) && after.now == db.now
    ensures forall k :: k in db.jobs && k != id ==> k in after.jobs && after.jobs[k] == db.jobs[k]
  {
  }

  lemma DueRow(row: Job, asOf: Time)
    requires DueBy(row, asOf)
    ensures row.status == Scheduled && row.scheduledAt.Some? && row.scheduledAt.value <= asOf
  {
  }

  lemma PromotedAlone(db: Tables, after: Tables, id: JobId, o: Outside)
    requires id in db.jobs && db.jobs[id].status == Scheduled
    requires if !o.loaded || db.jobs[id].selected.None? then
               after == db.(jobs := db.jobs[id := db.jobs[id].(status := Approved, updatedAt := db.now)])
             else exists ok, sent :: PublishedOrFailed(db, after, id, db.jobs[id].selected.value, o, ok, sent)
    ensures id in after.jobs && Settled(db.jobs[id], after.jobs[id], db.now, o) && after.now == db.now
    ensures forall k :: k in db.jobs && k != id ==> k in after.jobs && after.jobs[k] == db.jobs[k]
  {
  }

  lemma PromotionIsQuiet(db: Tables, promoted: Tables, id: JobId)
    requires id in db.jobs && db.jobs[id].status == Scheduled
    requires promoted == db.(jobs := db.jobs[id := db.jobs[id].(status := Approved, updatedAt := db.now)])
    ensures NoticesOf(db, promoted, id) == []
  {
  }

  lemma PublishNotices(db: Tables, after: Tables, id: JobId, v: VariantId, o: Outside, ok: bool,
                       sent: Option<PublishRequest>)
    requires id in db.jobs && (db.jobs[id].status == Approved || db.jobs[id].status == Scheduled)
    requires PublishedOrFailed(db, after, id, v, o, ok, sent)
    ensures NoticesOf(db, after, id) == [if ok then OutboxTable.PublishedNotice(id) else OutboxTable.FailedNotice(id)]
  {
    AnswerByAnswer(db, after, id, v, o, ok, sent);
    hide PublishedOrFailed;
  }

  /**
   What becomes of a claimed job, answer by answer: a read or a render that fails is its error and
   nothing is sent; otherwise the publisher is handed the stored caption with its artwork, and a
   success is stored with its media id, a refusal with its reason, in the row and in the log.
   */
  lemma AnswerByAnswer(db: Tables, after: Tables, id: JobId, v: VariantId, o: Outside, ok: bool,
                       sent: Option<PublishRequest>)
    requires id in db.jobs && PublishedOrFailed(db, after, id, v, o, ok, sent)
    ensures o.read.Some? ==>
              && !ok && sent.None? && after.logs == db.logs && after.variants == db.variants
              && after.jobs == db.jobs[id := db.jobs[id].(status := Failed, updatedAt := db.now,
                                                          error := "load variant: " + o.read.value)]
    ensures o.read.None? && v in db.variants && db.variants[v].image == Blank && o.render.Some? ==>
              && !ok && sent.None? && after.logs == db.logs && after.variants == db.variants
              && after.jobs == db.jobs[id := db.jobs[id].(status := Failed, updatedAt := db.now,
                                                          error := o.render.value)]
    ensures o.read.None? && v in db.variants && (db.variants[v].image != Blank || o.render.None?) ==>
              && sent.Some? && sent.value.caption == db.variants[v].caption
              && sent.value.image == (if db.variants[v].image == Blank then Upload(v, db.variants[v].caption)
                                      else db.variants[v].image)
              && (ok <==> o.answer.Some?)
    ensures ok ==>
              && after.jobs == db.jobs[id := db.jobs[id].(status := Published, updatedAt := db.now, error := "",
                                                          mediaId := o.answer.value.media)]
              && var Receipt(_, request, response) := o.answer.value;
                 after.logs == db.logs + if o.logged then [PublishLog(id, "instagram", Some(request), Some(response),
                                                                      true, "")] else []
    ensures sent.Some? && !ok ==>
              && after.jobs == db.jobs[id := db.jobs[id].(status := Failed, updatedAt := db.now,
                                                          error := "instagram publish: " + o.refusal)]
              && after.logs == db.logs + if o.logged then [PublishLog(id, "instagram", None, None, false, o.refusal)]
                                         else []
    ensures after.jobs.Keys == db.jobs.Keys && id in after.jobs
    ensures after.jobs[id].status == if ok then Published else Failed
  {
  }

  lemma StartPass(before: Tables, works: seq<Work>, sent: OutboxTable.Outbox, text: Texts)
    ensures Pass(before, works[..0], before, []) && EnqueueAll(sent, [], text) == sent
  {
    EmptyPass(before);
    assert works[..0] == [];
  }

  lemma OneMoreRetry(before: Tables, works: seq<Work>, i: nat, mid: Tables, after: Tables)
    requires i < |works| && Pass(before, works[..i], mid, []) && CanList(before, Proc(works[i].id, works[i].pc))
    requires EndsWith(Solo(mid, works[i].id, works[i].pc, works[i].choices), after)
    requires NoticesOf(mid, after, works[i].id) == []
    ensures Pass(before, works[..i + 1], after, [])
  {
    hide Pass, CanList, EndsWith, NoticesOf;
    var none: seq<Key> := [];
    NextInPass(before, works[..i], mid, works[i], after, none);
    assert none + NoticesOf(mid, after, works[i].id) == none;
    assert works[..i + 1] == works[..i] + [works[i]];
  }

  lemma NextWork(before: Tables, works: seq<Work>, i: nat, mid: Tables, after: Tables,
                 sent: OutboxTable.Outbox, keys: seq<Key>, text: Texts)
    returns (more: seq<Key>)
    requires i < |works| && Pass(before, works[..i], mid, keys)
    requires CanList(before, Proc(works[i].id, works[i].pc))
    requires EndsWith(Solo(mid, works[i].id, works[i].pc, works[i].choices), after)
    ensures Pass(before, works[..i + 1], after, more)
    ensures EnqueueAll(sent, more, text)
            == EnqueueAll(EnqueueAll(sent, keys, text), NoticesOf(mid, after, works[i].id), text)
  {
    hide Pass, CanList, EndsWith, NoticesOf, EnqueueAll;
    more := keys + NoticesOf(mid, after, works[i].id);
    NextInPass(before, works[..i], mid, works[i], after, keys);
    assert works[..i + 1] == works[..i] + [works[i]];
    EnqueueInTurn(sent, keys, NoticesOf(mid, after, works[i].id), text);
  }

  lemma NothingToReport(db: Tables, id: JobId, o: OutboxTable.Outbox, text: Texts)
    ensures NoticesOf(db, db, id) == [] && EnqueueAll(o, [], text) == o
  {
  }
}
