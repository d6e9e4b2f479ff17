/**
 One stale-recovery pass, undisturbed: AI stages are parked for a retry, an interrupted
 publish is settled from the publish log, and nothing else is touched.
 */
module StaleRecovery {
  import opened Wrappers
  import opened JobStatus
  import opened PostTables
  import opened PostRepository
  import opened Pipeline
  import opened SoloRuns

  const BATCH := 50
  const LEASE_LOST := "recovered stale worker lease"

  /** What recovery makes of the row of job id; unread says that reading its log fails. */
  function Recovered(db: Tables, id: JobId, unread: bool): Job
    requires id in db.jobs
  {
    var row := db.jobs[id];
    if row.status != Publishing then Parked(row, db.now, LEASE_LOST)
    else if SuccessfulPublishMediaID(db.logs, id).Found? && !unread then
      Moved(row, Published, db.now).(mediaId := SuccessfulPublishMediaID(db.logs, id).media, error := "")
    else Moved(row, Failed, db.now).(error := UNCERTAIN)
  }

  ghost predicate LoggedAs(logs: seq<PublishLog>, id: JobId, media: string) {
    exists i :: 0 <= i < |logs| && RecordsSuccess(logs[i], id) && MediaIdOf(logs[i].response.value) == Some(media)
  }

  /**
   A recovered job is out of the in-progress statuses, and it counts as published only on the
   word of a log entry whose media id it then stores.
   */
  lemma RecoveredIsSettled(db: Tables, id: JobId, unread: bool)
    requires id in db.jobs && InProgress(db.jobs[id].status)
    ensures var row, row' := db.jobs[id], Recovered(db, id, unread);
            && (row'.status == WaitingAI || row'.status == Failed || row'.status == Published)
            && (row'.status == WaitingAI <==> row.status != Publishing && row.retries + 1 < MAX_AI_RETRIES)
            && (row'.status == Published <==>
                  row.status == Publishing && SuccessfulPublishMediaID(db.logs, id).Found? && !unread)
            && (row'.status == Published ==> LoggedAs(db.logs, id, row'.mediaId))
            && row'.selected == row.selected && row'.updatedAt == db.now
  {
    MediaIdIsLogged(db.logs, id);
  }

  /**
   What recovery writes, field by field: a parked stage waits longer with each park and is given up
   at the eighth, and an interrupted publish is settled by the log or left to the operator.
   */
  lemma RecoveredByField(db: Tables, id: JobId, unread: bool)
    requires id in db.jobs
    ensures var row, n, found := db.jobs[id], db.jobs[id].retries, SuccessfulPublishMediaID(db.logs, id);
            Recovered(db, id, unread)
            == if row.status == Publishing && found.Found? && !unread then
                 row.(status := Published, mediaId := found.media, error := "", updatedAt := db.now)
               else if row.status == Publishing then
                 row.(status := Failed, error := UNCERTAIN, updatedAt := db.now)
               else if n + 1 >= 8 then
                 row.(status := Failed, retries := n + 1, updatedAt := db.now, aiError := LEASE_LOST,
                      error := "AI retries exhausted: " + LEASE_LOST)
               else
                 row.(status := WaitingAI, retries := n + 1, updatedAt := db.now, aiError := LEASE_LOST,
                      nextRetryAt := db.now + if n == 0 then 60 else if n == 1 then 120
                                              else if n == 2 then 240 else if n == 3 then 480 else 960)
  {
    hide SuccessfulPublishMediaID;
  }

  lemma {:induction false} DistinctFit(out: seq<JobId>, ids: set<JobId>)
    requires forall i :: 0 <= i < |out| ==> out[i] in ids
    requires forall i, k :: 0 <= i < k < |out| ==> out[i] != out[k]
    ensures |out| <= |ids|
  {
    if out != [] {
      DistinctFit(out[1..], ids - {out[0]});
    }
  }

  /** A full page that misses a row means there were more rows than a page holds. */
  lemma MissedMeansMore(keys: map<JobId, Time>, out: seq<JobId>, id: JobId)
    requires Earliest(keys, BATCH, out) && id in keys && id !in out
    ensures BATCH < |keys|
  {
    DistinctFit(out + [id], keys.Keys);
    assert |keys.Keys| == |keys|;
  }

  /** The listed jobs are recovered, each from its row before the pass, and no other row has changed. */
  ghost predicate RecoveredExactly(db: Tables, after: map<JobId, Job>, listed: seq<JobId>, unread: JobId -> bool) {
    after.Keys == db.jobs.Keys
    && forall id :: id in db.jobs ==> after[id] == if id in listed then Recovered(db, id, unread(id)) else db.jobs[id]
  }

  function StaleCount(jobs: map<JobId, Job>, cutoff: Time): nat {
    |StaleRows(jobs, cutoff)|
  }

  /** Nothing is left in SCORING, GENERATING_VARIANTS or PUBLISHING past the cutoff. */
  ghost predicate NoneStale(jobs: map<JobId, Job>, cutoff: Time) {
    forall id :: id in jobs && InProgress(jobs[id].status) ==> cutoff <= jobs[id].updatedAt
  }

  lemma ListedAreStale(jobs: map<JobId, Job>, cutoff: Time, out: seq<JobId>)
    requires Earliest(StaleRows(jobs, cutoff), BATCH, out)
    ensures forall i :: 0 <= i < |out| ==> out[i] in jobs && InProgress(jobs[out[i]].status)
    ensures forall i, k :: 0 <= i < k < |out| ==> out[i] != out[k]
  {
    assert forall i :: 0 <= i < |out| ==> out[i] in StaleRows(jobs, cutoff);
  }

  /** If the page held every stale row, recovering the page leaves none. */
  lemma NoneLeftStale(db: Tables, after: map<JobId, Job>, cutoff: Time, out: seq<JobId>, unread: JobId -> bool)
    requires Earliest(StaleRows(db.jobs, cutoff), BATCH, out) && StaleCount(db.jobs, cutoff) <= BATCH
    requires RecoveredExactly(db, after, out, unread)
    ensures NoneStale(after, cutoff)
  {
    ListedAreStale(db.jobs, cutoff, out);
    hide Recovered, Earliest;
    forall id | id in after && InProgress(after[id].status)
      ensures cutoff <= after[id].updatedAt
    {
      if id in out {
        RecoveredIsSettled(db, id, unread(id));
      } else if id in StaleRows(db.jobs, cutoff) {
        MissedMeansMore(StaleRows(db.jobs, cutoff), out, id);
      }
    }
  }

  /** What recovery makes of a job depends on its row, its log entries and the clock alone. */
  lemma RecoveredAlone(db: Tables, db': Tables, id: JobId, unread: bool)
    requires id in db.jobs && id in db'.jobs && db.jobs[id] == db'.jobs[id] && db.logs == db'.logs && db.now == db'.now
    ensures Recovered(db, id, unread) == Recovered(db', id, unread)
  {
  }

  class RecoveryPass {
    const posts: Repository
    const staleTimeout: Time

    constructor (posts: Repository, staleTimeout: Time)
      ensures this.posts == posts && this.staleTimeout == staleTimeout
    {
      this.posts, this.staleTimeout := posts, staleTimeout;
    }

    /** One listed job. seen is its status in the listing; the operations check the status again. */
    method RecoverJob(id: JobId, seen: Status, unread: bool)
      requires id in posts.jobs && posts.jobs[id].status == seen && InProgress(seen)
      modifies posts`jobs
      ensures posts.jobs == old(posts.jobs)[id := Recovered(old(posts.Contents()), id, unread)]
    {
      match seen
      case Scoring => var _ := posts.ParkForAIRetry(id, LEASE_LOST);
      case GeneratingVariants => var _ := posts.ParkForAIRetry(id, LEASE_LOST);
      case Publishing =>
        var media := posts.SuccessfulPublishMediaID(id);
        if media.Found? && !unread {
          var _ := posts.MarkPublished(id, media.media);
        } else {
          var _ := posts.MarkFailed(id, UNCERTAIN);
        }
    }

    /** Works through the listing; seen holds the rows as they were listed. */
    method RecoverListed(found: seq<JobId>, seen: map<JobId, Job>, unread: JobId -> bool)
      requires seen == posts.jobs
      requires forall i :: 0 <= i < |found| ==> found[i] in seen && InProgress(seen[found[i]].status)
      requires forall i, k :: 0 <= i < k < |found| ==> found[i] != found[k]
      modifies posts`jobs
      ensures RecoveredExactly(old(posts.Contents()), posts.jobs, found, unread)
    {
      ghost var db := posts.Contents();
      hide Recovered;
      for i := 0 to |found|
        invariant posts.jobs.Keys == seen.Keys
        invariant forall id :: id in seen ==>
                    posts.jobs[id] == if id in found[..i] then Recovered(db, id, unread(id)) else seen[id]
      {
        var id := found[i];
        assert id !in found[..i] && found[..i + 1] == found[..i] + [id];
        RecoveredAlone(posts.Contents(), db, id, unread(id));
        RecoverJob(id, seen[id].status, unread(id));
      }
      assert found[..|found|] == found;
    }

    /** listed is what the pass found stale, oldest first; unread says whose log cannot be read. */
    method RecoverStaleJobs(unread: JobId -> bool) returns (ghost listed: seq<JobId>)
      modifies posts`jobs
      ensures var cutoff := if staleTimeout <= posts.now then posts.now - staleTimeout else 0;
              && Earliest(StaleRows(old(posts.jobs), cutoff), 50, listed)
              && (StaleCount(old(posts.jobs), cutoff) <= 50 ==> NoneStale(posts.jobs, cutoff))
      ensures RecoveredExactly(old(posts.Contents()), posts.jobs, listed, unread)
    {
      hide RecoveredExactly, Earliest, StaleRows, StaleCount, NoneStale, Recovered;
      var cutoff := if staleTimeout <= posts.now then posts.now - staleTimeout else 0;
      var found := posts.ListStaleProcessing(cutoff, BATCH);
      listed := found;
      ghost var db := posts.Contents();
      ListedAreStale(db.jobs, cutoff, found);
      RecoverListed(found, posts.jobs, unread);
      if StaleCount(db.jobs, cutoff) <= BATCH { NoneLeftStale(db, posts.jobs, cutoff, found, unread); }
    }
  }

  /** Recovery as the stale pass of the protocol: the process that saw the row stale, run alone, does the same. */
  lemma RecoveredAsProcess(db: Tables, id: JobId, unread: bool)
    requires id in db.jobs && InProgress(db.jobs[id].status)
    ensures var choices := [if unread then StatementLost else Proceed, Proceed];
            EndsWith(Solo(db, id, StaleListed(db.jobs[id].status), choices), Put(db, id, Recovered(db, id, unread)))
  {
    hide EndsWith, Reached, StateAt, Parked, SuccessfulPublishMediaID;
    var seen := db.jobs[id].status;
    var run := Solo(db, id, StaleListed(seen), [if unread then StatementLost else Proceed, Proceed]);
    SetOut(run);
    if seen != Publishing {
      StaleParks(run, 0, db, seen);
      Ends(run, 1, ParkForAIRetry(db, id, LEASE_LOST).db);
    } else {
      StaleLooksUp(run, 0, db);
      var look := SuccessfulPublishMediaID(db.logs, id);
      StaleSettles(run, 1, db, if look.Found? && !unread then Some(look.media) else None);
      Ends(run, 2, Put(db, id, Recovered(db, id, unread)));
    }
  }
}
