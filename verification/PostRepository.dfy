/**
 The repository object: every method is one transaction or one statement on the
 tables it holds. Contents() is their value; each method is tied to the function of
 PostTables that says what its transaction does.
 */
module PostRepository {
  import opened Wrappers
  import opened JobStatus
  import opened PostTables

  /** The three ways a claim can go. */
  lemma ClaimCases(db: Tables, id: JobId, from: Status, to: Status)
    ensures var e := PostTables.ClaimStatus(db, id, from, to);
            if !CanTransition(from, to) then e == Effect(db, InvalidTransition)
            else if id in db.jobs && db.jobs[id].status == from then
              e == Effect(db.(jobs := db.jobs[id := db.jobs[id].(status := to, updatedAt := db.now)]), Committed)
            else e == Effect(db, NotFound)
  {
    hide CanTransition;
  }

  class Repository {
    var jobs: map<JobId, Job>
    var variants: map<VariantId, Variant>
    var nextVariant: VariantId
    var logs: seq<PublishLog>
    // The clock belongs to the environment: no method of this class moves it.
    var now: Time

    constructor ()
      ensures Contents() == Tables(map[], map[], 1, [], 0)
    {
      jobs, variants, nextVariant, logs, now := map[], map[], 1, [], 0;
    }

    ghost function Contents(): Tables
      reads this
    {
      Tables(jobs, variants, nextVariant, logs, now)
    }

    // ---- status ----

    method UpdateStatus(id: JobId, to: Status) returns (outcome: Outcome)
      modifies this`jobs
      ensures Effect(Contents(), outcome) == PostTables.UpdateStatus(old(Contents()), id, to)
      ensures outcome == if id !in old(jobs) then NotFound
                         else if !CanTransition(old(jobs)[id].status, to) then InvalidTransition
                         else Committed
      ensures jobs == if outcome != Committed then old(jobs)
                      else old(jobs)[id :=
                        old(jobs)[id].(status := to, updatedAt := now)]
    {
      if id !in jobs { return NotFound; }
      if !CanTransition(jobs[id].status, to) { return InvalidTransition; }
      jobs := jobs[id := jobs[id].(status := to, updatedAt := now)];
      return Committed;
    }

    /** Committed is a claim won, NotFound one lost, and InvalidTransition an error. */
    method ClaimStatus(id: JobId, from: Status, to: Status) returns (outcome: Outcome)
      modifies this`jobs
      ensures Effect(Contents(), outcome) == PostTables.ClaimStatus(old(Contents()), id, from, to)
      ensures outcome == if !CanTransition(from, to) then InvalidTransition
                         else if id in old(jobs) && old(jobs)[id].status == from then Committed
                         else NotFound
      ensures jobs == if outcome != Committed then old(jobs)
                      else old(jobs)[id :=
                        old(jobs)[id].(status := to, updatedAt := now)]
    {
      hide CanTransition, PostTables.ClaimStatus;
      ClaimCases(Contents(), id, from, to);
      if !CanTransition(from, to) { return InvalidTransition; }
      if id in jobs && jobs[id].status == from {
        jobs := jobs[id := jobs[id].(status := to, updatedAt := now)];
        return Committed;
      }
      return NotFound;
    }

    method ApplyScored(id: JobId, u: ScoreUpdate) returns (outcome: Outcome)
      modifies this`jobs
      ensures Effect(Contents(), outcome) == PostTables.ApplyScored(old(Contents()), id, u)
      ensures outcome == if id !in old(jobs) then NotFound
                         else if !CanTransition(old(jobs)[id].status, u.status) then InvalidTransition
                         else Committed
      ensures jobs == if outcome != Committed then old(jobs)
                      else old(jobs)[id :=
                        old(jobs)[id].(status := u.status, aiProvider := u.aiProvider, aiModel := u.aiModel,
                                       aiError := u.aiError, retries := 0, nextRetryAt := now, updatedAt := now)]
    {
      outcome := UpdateStatus(id, u.status);
      if outcome == Committed {
        jobs := jobs[id := jobs[id].(
          aiProvider := u.aiProvider, aiModel := u.aiModel, aiError := u.aiError, retries := 0, nextRetryAt := now)];
      }
    }

    method CompleteAIStage(id: JobId, to: Status) returns (outcome: Outcome)
      modifies this`jobs
      ensures Effect(Contents(), outcome) == PostTables.CompleteAIStage(old(Contents()), id, to)
      ensures outcome == if id !in old(jobs) then NotFound
                         else if !CanTransition(old(jobs)[id].status, to) then InvalidTransition
                         else Committed
      ensures jobs == if outcome != Committed then old(jobs)
                      else old(jobs)[id :=
                        old(jobs)[id].(status := to, aiError := "", retries := 0,
                                       nextRetryAt := now, updatedAt := now)]
    {
      hide CanTransition;
      outcome := UpdateStatus(id, to);
      if outcome == Committed {
        jobs := jobs[id := jobs[id].(aiError := "", retries := 0, nextRetryAt := now)];
      }
    }

    method ParkForAIRetry(id: JobId, aiError: string) returns (outcome: Outcome)
      modifies this`jobs
      ensures Effect(Contents(), outcome) == PostTables.ParkForAIRetry(old(Contents()), id, aiError)
      ensures outcome == if id !in old(jobs) then NotFound
                         else if !CanTransition(old(jobs)[id].status, WaitingAI) then InvalidTransition
                         else Committed
      ensures jobs == if outcome != Committed then old(jobs)
                      else
                        var row, n := old(jobs)[id], old(jobs)[id].retries;
                        old(jobs)[id :=
                          if n + 1 >= 8 then
                            row.(status := Failed, retries := n + 1, aiError := aiError, updatedAt := now,
                                 error := "AI retries exhausted: " + aiError)
                          else
                            row.(status := WaitingAI, retries := n + 1, aiError := aiError, updatedAt := now,
                                 nextRetryAt := now + if n == 0 then 60 else if n == 1 then 120
                                                      else if n == 2 then 240 else if n == 3 then 480 else 960)]
    {
      if id !in jobs { return NotFound; }
      var row := jobs[id];
      if !CanTransition(row.status, WaitingAI) { return InvalidTransition; }
      var retries := row.retries + 1;
      if retries >= MAX_AI_RETRIES {
        row := row.(status := Failed, aiError := aiError, error := "AI retries exhausted: " + aiError,
                    retries := retries, updatedAt := now);
      } else {
        // One minute shifted left by at most four places.
        var delay, shift := MINUTE, 0;
        while shift < retries - 1 && shift < 4
          invariant 0 <= shift <= 4 && shift <= retries - 1
          invariant delay == RetryDelay(shift + 1)
        {
          delay, shift := 2 * delay, shift + 1;
        }
        row := row.(status := WaitingAI, aiError := aiError, retries := retries,
                    nextRetryAt := now + delay, updatedAt := now);
      }
      jobs := jobs[id := row];
      return Committed;
    }

    method MarkPublished(id: JobId, mediaId: string) returns (outcome: Outcome)
      modifies this`jobs
      ensures Effect(Contents(), outcome) == PostTables.MarkPublished(old(Contents()), id, mediaId)
      ensures outcome == if id !in old(jobs) then NotFound
                         else if !CanTransition(old(jobs)[id].status, Published) then InvalidTransition
                         else Committed
      ensures jobs == if outcome != Committed then old(jobs)
                      else old(jobs)[id :=
                        old(jobs)[id].(status := Published, mediaId := mediaId, error := "", updatedAt := now)]
    {
      outcome := UpdateStatus(id, Published);
      if outcome == Committed {
        jobs := jobs[id := jobs[id].(mediaId := mediaId, error := "")];
      }
    }

    method MarkFailed(id: JobId, msg: string) returns (outcome: Outcome)
      modifies this`jobs
      ensures Effect(Contents(), outcome) == PostTables.MarkFailed(old(Contents()), id, msg)
      ensures outcome == if id !in old(jobs) then NotFound
                         else if !CanTransition(old(jobs)[id].status, Failed) then InvalidTransition
                         else Committed
      ensures jobs == if outcome != Committed then old(jobs)
                      else old(jobs)[id :=
                        old(jobs)[id].(status := Failed, error := msg, updatedAt := now)]
    {
      outcome := UpdateStatus(id, Failed);
      if outcome == Committed {
        jobs := jobs[id := jobs[id].(error := msg)];
      }
    }

    // ---- operator review ----

    method QueueVariants(id: JobId, count: nat) returns (outcome: Outcome)
      modifies this`jobs
      ensures Effect(Contents(), outcome) == PostTables.QueueVariants(old(Contents()), id, count)
      ensures outcome == if id !in old(jobs) then NotFound
                         else if !CanTransition(old(jobs)[id].status, VariantsQueued) then InvalidTransition
                         else Committed
      ensures jobs == if outcome != Committed then old(jobs)
                      else old(jobs)[id :=
                        old(jobs)[id].(status := VariantsQueued, requestedVariants := count, selected := None,
                                       updatedAt := now)]
    {
      outcome := UpdateStatus(id, VariantsQueued);
      if outcome == Committed {
        jobs := jobs[id := jobs[id].(requestedVariants := count, selected := None)];
      }
    }

    method SelectVariant(id: JobId, v: VariantId) returns (outcome: Outcome)
      modifies this`jobs
      ensures Effect(Contents(), outcome) == PostTables.SelectVariant(old(Contents()), id, v)
      ensures outcome == if id !in old(jobs) then NotFound
                         else if !CanTransition(old(jobs)[id].status, ReadyToPublish) then InvalidTransition
                         else if v in variants && variants[v].job == id then Committed
                         else NotFound
      ensures jobs == if outcome != Committed then old(jobs)
                      else old(jobs)[id :=
                        old(jobs)[id].(status := ReadyToPublish, selected := Some(v), updatedAt := now)]
    {
      var before := jobs;
      outcome := UpdateStatus(id, ReadyToPublish);
      if outcome != Committed { return; }
      if v !in variants || variants[v].job != id {
        jobs := before; // the transaction rolls back
        return NotFound;
      }
      jobs := jobs[id := jobs[id].(selected := Some(v))];
    }

    method ReselectVariant(id: JobId, v: VariantId) returns (outcome: Outcome)
      modifies this`jobs
      ensures Effect(Contents(), outcome) == PostTables.ReselectVariant(old(Contents()), id, v)
      ensures outcome == if id !in old(jobs) then NotFound
                         else if old(jobs)[id].status != ReadyToPublish then InvalidTransition
                         else if v in variants && variants[v].job == id then Committed
                         else NotFound
      ensures jobs == if outcome != Committed then old(jobs)
                      else old(jobs)[id :=
                        old(jobs)[id].(selected := Some(v), updatedAt := now)]
    {
      if id !in jobs { return NotFound; }
      if jobs[id].status != ReadyToPublish { return InvalidTransition; }
      if v !in variants || variants[v].job != id { return NotFound; }
      jobs := jobs[id := jobs[id].(selected := Some(v), updatedAt := now)];
      return Committed;
    }

    method UpdateVariantCaption(id: JobId, v: VariantId, caption: string) returns (outcome: Outcome, isSelected: bool)
      modifies this`variants
      ensures Effect(Contents(), outcome) == PostTables.UpdateVariantCaption(old(Contents()), id, v, caption)
      ensures outcome == if id !in jobs then NotFound
                         else if jobs[id].status != WaitingVariantApproval && jobs[id].status != ReadyToPublish then
                           InvalidTransition
                         else if '\0' in caption then ConstraintViolation
                         else if v in old(variants) && old(variants)[v].job == id then Committed
                         else NotFound
      ensures variants == if outcome != Committed then old(variants)
                          else old(variants)[v := old(variants)[v].(caption := caption, image := Blank)]
      ensures isSelected <==> outcome == Committed && jobs[id].selected == Some(v)
    {
      if id !in jobs { return NotFound, false; }
      var current, selected := jobs[id].status, jobs[id].selected;
      if current != WaitingVariantApproval && current != ReadyToPublish { return InvalidTransition, false; }
      if '\0' in caption { return ConstraintViolation, false; }
      if v !in variants || variants[v].job != id { return NotFound, false; }
      variants := variants[v := variants[v].(caption := caption, image := Blank)];
      return Committed, selected == Some(v);
    }

    // ---- scheduled publishing ----

    method Schedule(id: JobId, at: Time) returns (outcome: Outcome)
      modifies this`jobs
      ensures Effect(Contents(), outcome) == PostTables.Schedule(old(Contents()), id, at)
      ensures outcome == if id !in old(jobs) then NotFound
                         else if !CanTransition(old(jobs)[id].status, Scheduled) then InvalidTransition
                         else if old(jobs)[id].selected.Some? then Committed
                         else NotFound
      ensures jobs == if outcome != Committed then old(jobs)
                      else old(jobs)[id :=
                        old(jobs)[id].(status := Scheduled, scheduledAt := Some(at), updatedAt := now)]
    {
      if id !in jobs { return NotFound; }
      if !CanTransition(jobs[id].status, Scheduled) { return InvalidTransition; }
      if jobs[id].selected.None? { return NotFound; }
      jobs := jobs[id := jobs[id].(status := Scheduled, scheduledAt := Some(at), updatedAt := now)];
      return Committed;
    }

    method Reschedule(id: JobId, at: Time) returns (outcome: Outcome)
      modifies this`jobs
      ensures Effect(Contents(), outcome) == PostTables.Reschedule(old(Contents()), id, at)
      ensures outcome == if id in old(jobs) && old(jobs)[id].status == Scheduled then Committed else InvalidTransition
      ensures jobs == if outcome != Committed then old(jobs)
                      else old(jobs)[id :=
                        old(jobs)[id].(scheduledAt := Some(at), updatedAt := now)]
    {
      if id in jobs && jobs[id].status == Scheduled {
        jobs := jobs[id := jobs[id].(scheduledAt := Some(at), updatedAt := now)];
        return Committed;
      }
      return InvalidTransition;
    }

    method CancelSchedule(id: JobId) returns (outcome: Outcome)
      modifies this`jobs
      ensures Effect(Contents(), outcome) == PostTables.CancelSchedule(old(Contents()), id)
      ensures outcome == if id !in old(jobs) then NotFound
                         else if old(jobs)[id].status == Scheduled then Committed
                         else InvalidTransition
      ensures jobs == if outcome != Committed then old(jobs)
                      else old(jobs)[id :=
                        old(jobs)[id].(status := ReadyToPublish, scheduledAt := None, updatedAt := now)]
    {
      if id !in jobs { return NotFound; }
      if jobs[id].status != Scheduled { return InvalidTransition; }
      jobs := jobs[id := jobs[id].(status := ReadyToPublish, scheduledAt := None, updatedAt := now)];
      return Committed;
    }

    method ClaimScheduledDue(id: JobId, asOf: Time) returns (claimed: bool)
      modifies this`jobs
      ensures Contents() == PostTables.ClaimScheduledDue(old(Contents()), id, asOf).db
      ensures claimed <==> PostTables.ClaimScheduledDue(old(Contents()), id, asOf).outcome == Committed
      ensures claimed <==> id in old(jobs) && old(jobs)[id].status == Scheduled
                           && old(jobs)[id].scheduledAt.Some? && old(jobs)[id].scheduledAt.value <= asOf
      ensures jobs == if !claimed then old(jobs)
                      else old(jobs)[id :=
                        old(jobs)[id].(status := Approved, updatedAt := now)]
    {
      if id in jobs && jobs[id].status == Scheduled
         && jobs[id].scheduledAt.Some? && jobs[id].scheduledAt.value <= asOf {
        jobs := jobs[id := jobs[id].(status := Approved, updatedAt := now)];
        return true;
      }
      return false;
    }

    // ---- variants ----

    /** The locals are the transaction: nothing reaches the fields before the commit at the end. */
    method ReplaceVariants(id: JobId, vs: seq<NewVariant>) returns (outcome: Outcome, saved: seq<VariantId>)
      modifies this`jobs, this`variants, this`nextVariant
      ensures Effect(Contents(), outcome) == PostTables.ReplaceVariants(old(Contents()), id, vs)
      ensures outcome == Committed ==> |saved| == |vs|
      ensures outcome == Committed ==> forall i :: 0 <= i < |saved| ==> saved[i] == old(nextVariant) + i
      ensures outcome == Committed || outcome == ConstraintViolation
      ensures outcome == Committed <==>
                vs == []
                || (&& id in old(jobs)
                    && (forall i :: 0 <= i < |vs| ==>
                          && vs[i].no > 0 && 1 <= |vs[i].caption| <= 2200
                          && '\0' !in vs[i].caption && '\0' !in vs[i].style)
                    && (forall i, k :: 0 <= i < k < |vs| ==> vs[i].no != vs[k].no))
      ensures outcome != Committed ==>
                jobs == old(jobs) && variants == old(variants) && nextVariant == old(nextVariant) && saved == []
      ensures outcome == Committed ==>
                && jobs == (if id in old(jobs) then old(jobs)[id := old(jobs)[id].(selected := None)] else old(jobs))
                && nextVariant == old(nextVariant) + |vs|
      ensures outcome == Committed && (forall v :: v in old(variants) ==> v < old(nextVariant)) ==>
                && (forall v :: old(nextVariant) <= v < old(nextVariant) + |vs| ==>
                      && v in variants
                      && var nv := vs[v - old(nextVariant)];
                         variants[v] == Variant(id, nv.no, nv.style, nv.caption, Blank))
                && (forall v :: v in old(variants) && old(variants)[v].job != id ==>
                      v in variants && variants[v] == old(variants)[v])
                && (forall v :: v in variants ==>
                      (v in old(variants) && old(variants)[v].job != id) || v >= old(nextVariant))
    {
      hide InsertAll, WithoutJob, WellNumbered;
      WellNumberedRows(vs);
      ReplacedRows(variants, nextVariant, id, vs);
      NothingInserted(WithoutJob(variants, id), nextVariant, id, vs[..0]);
      var txJobs := if id in jobs then jobs[id := jobs[id].(selected := None)] else jobs;
      var txVariants := WithoutJob(variants, id);
      var txNext := nextVariant;
      saved := [];
      for i := 0 to |vs|
        invariant jobs == old(jobs) && variants == old(variants) && nextVariant == old(nextVariant)
        invariant txVariants == InsertAll(WithoutJob(variants, id), nextVariant, id, vs[..i])
        invariant txNext == nextVariant + i
        invariant WellNumbered(vs[..i]) && (i > 0 ==> id in jobs)
        invariant |saved| == i && forall k :: 0 <= k < i ==> saved[k] == nextVariant + k
      {
        var nv := vs[i];
        // The rows this job has inside the transaction are the ones inserted so far.
        var duplicate := exists k :: 0 <= k < i && vs[k].no == nv.no;
        var badText := '\0' in nv.caption || '\0' in nv.style;
        OneMoreInsert(WithoutJob(variants, id), nextVariant, id, vs, i);
        if id !in jobs || nv.no <= 0 || |nv.caption| < 1 || |nv.caption| > MAX_CAPTION || badText || duplicate {
          return ConstraintViolation, [];
        }
        txVariants := txVariants[txNext := Inserted(id, nv)];
        saved := saved + [txNext];
        txNext := txNext + 1;
      }
      assert vs[..|vs|] == vs;
      assert txVariants == InsertAll(WithoutJob(variants, id), nextVariant, id, vs);
      jobs, variants, nextVariant := txJobs, txVariants, txNext;
      return Committed, saved;
    }

    method SetVariantImageURL(v: VariantId, url: ImageUrl)
      modifies this`variants
      ensures Contents() == PostTables.SetVariantImageURL(old(Contents()), v, url)
      ensures variants == if v in old(variants) then old(variants)[v := old(variants)[v].(image := url)]
                          else old(variants)
    {
      if v in variants {
        variants := variants[v := variants[v].(image := url)];
      }
    }

    method SetVariantImageURLForCaption(v: VariantId, caption: string, url: ImageUrl) returns (saved: bool)
      modifies this`variants
      ensures Contents() == PostTables.SetVariantImageURLForCaption(old(Contents()), v, caption, url).db
      ensures saved <==> PostTables.SetVariantImageURLForCaption(old(Contents()), v, caption, url).outcome == Committed
      ensures saved <==> v in old(variants) && old(variants)[v].caption == caption
      ensures variants == if saved then old(variants)[v := old(variants)[v].(image := url)] else old(variants)
    {
      saved := v in variants && variants[v].caption == caption;
      if saved {
        variants := variants[v := variants[v].(image := url)];
      }
    }

    // ---- publish logs ----

    method InsertPublishLog(entry: PublishLog)
      modifies this`logs
      ensures Contents() == PostTables.InsertPublishLog(old(Contents()), entry)
      ensures logs == old(logs) + [entry.(platform := if entry.platform == "" then "instagram" else entry.platform)]
    {
      var stored := entry;
      if stored.platform == "" { stored := stored.(platform := "instagram"); }
      logs := logs + [stored];
    }

    /** Looks for the newest entry that records a success; a response that names no media id is none. */
    method SuccessfulPublishMediaID(id: JobId) returns (found: Lookup)
      ensures found == PostTables.SuccessfulPublishMediaID(logs, id)
      ensures (forall k :: 0 <= k < |logs| ==> !(logs[k].job == id && logs[k].success && logs[k].response.Some?)) ==>
                found == NoSuccess
      ensures forall k ::
                (&& 0 <= k < |logs| && logs[k].job == id && logs[k].success && logs[k].response.Some?
                 && (forall m :: k < m < |logs| ==>
                       !(logs[m].job == id && logs[m].success && logs[m].response.Some?))) ==>
                  var r := logs[k].response.value;
                  found == if r.Garbled? then Unreadable
                           else if r.id != "" then Found(r.id)
                           else if r.mediaId != "" then Found(r.mediaId)
                           else NoSuccess
    {
      var i := EndOfSuccess(id);
      if i == 0 { return NoSuccess; }
      var response := logs[i - 1].response.value;
      if response.Garbled? { return Unreadable; }
      if response.id != "" { return Found(response.id); }
      if response.mediaId != "" { return Found(response.mediaId); }
      return NoSuccess;
    }

    /** Where the newest entry that records a success ends the log; 0 if there is none. */
    method EndOfSuccess(id: JobId) returns (i: nat)
      ensures i <= |logs|
      ensures i > 0 ==> RecordsSuccess(logs[i - 1], id)
      ensures forall m :: i <= m < |logs| ==> !RecordsSuccess(logs[m], id)
      ensures PostTables.SuccessfulPublishMediaID(logs, id)
           == if i == 0 then NoSuccess else ReadResponse(logs[i - 1].response.value)
    {
      i := |logs|;
      assert logs[..i] == logs;
      while i > 0 && !RecordsSuccess(logs[i - 1], id)
        invariant 0 <= i <= |logs|
        invariant forall m :: i <= m < |logs| ==> !RecordsSuccess(logs[m], id)
        invariant PostTables.SuccessfulPublishMediaID(logs, id) == PostTables.SuccessfulPublishMediaID(logs[..i], id)
      {
        assert logs[..i][..i - 1] == logs[..i - 1];
        i := i - 1;
      }
    }

    // ---- listings ----

    /** Jobs with this status whose retry time has come, the longest untouched first. */
    method ListByStatus(status: Status, asked: int) returns (out: seq<JobId>)
      ensures Earliest(QueueKeys(Contents(), status), PageSize(asked), out)
      ensures |out| <= if 1 <= asked <= 200 then asked else 50
      ensures forall i :: 0 <= i < |out| ==>
                && out[i] in jobs && jobs[out[i]].status == status && jobs[out[i]].nextRetryAt <= now
      ensures forall i, k :: 0 <= i < k < |out| ==>
                out[i] != out[k] && jobs[out[i]].updatedAt <= jobs[out[k]].updatedAt
      ensures forall id :: id in jobs && jobs[id].status == status && jobs[id].nextRetryAt <= now && id !in out ==>
                && |out| == (if 1 <= asked <= 200 then asked else 50)
                && forall i :: 0 <= i < |out| ==> jobs[out[i]].updatedAt <= jobs[id].updatedAt
    {
      hide Earliest;
      var keys := map id | id in jobs && jobs[id].status == status && jobs[id].nextRetryAt <= now :: jobs[id].updatedAt;
      assert keys == QueueKeys(Contents(), status);
      hide QueueKeys;
      out := PickEarliest(keys, PageSize(asked));
      QueuePage(Contents(), status, PageSize(asked), out);
    }

    /** Scheduled jobs due by asOf, the earliest scheduled first. */
    method ListDueScheduled(asOf: Time, asked: int) returns (out: seq<JobId>)
      ensures Earliest(DueKeys(Contents(), asOf), PageSize(asked), out)
      ensures |out| <= if 1 <= asked <= 200 then asked else 50
      ensures forall i :: 0 <= i < |out| ==>
                && out[i] in jobs && jobs[out[i]].status == Scheduled
                && jobs[out[i]].scheduledAt.Some? && jobs[out[i]].scheduledAt.value <= asOf
      ensures forall i, k :: 0 <= i < k < |out| ==>
                out[i] != out[k] && jobs[out[i]].scheduledAt.value <= jobs[out[k]].scheduledAt.value
      ensures forall id ::
                (&& id in jobs && jobs[id].status == Scheduled
                 && jobs[id].scheduledAt.Some? && jobs[id].scheduledAt.value <= asOf && id !in out) ==>
                  && |out| == (if 1 <= asked <= 200 then asked else 50)
                  && forall i :: 0 <= i < |out| ==> jobs[out[i]].scheduledAt.value <= jobs[id].scheduledAt.value
    {
      hide Earliest;
      var keys := map id | id in jobs && DueBy(jobs[id], asOf) :: jobs[id].scheduledAt.value;
      out := PickEarliest(keys, PageSize(asked));
      DuePage(Contents(), asOf, PageSize(asked), out);
    }

    /** Jobs left in progress beyond the cutoff, the longest untouched first. */
    method ListStaleProcessing(cutoff: Time, asked: int) returns (out: seq<JobId>)
      ensures Earliest(StaleRows(jobs, cutoff), PageSize(asked), out)
      ensures |out| <= if 1 <= asked <= 200 then asked else 50
      ensures forall i :: 0 <= i < |out| ==>
                && out[i] in jobs && jobs[out[i]].updatedAt < cutoff
                && jobs[out[i]].status in {Scoring, GeneratingVariants, Publishing}
      ensures forall i, k :: 0 <= i < k < |out| ==>
                out[i] != out[k] && jobs[out[i]].updatedAt <= jobs[out[k]].updatedAt
      ensures forall id ::
                (&& id in jobs && jobs[id].updatedAt < cutoff
                 && jobs[id].status in {Scoring, GeneratingVariants, Publishing} && id !in out) ==>
                  && |out| == (if 1 <= asked <= 200 then asked else 50)
                  && forall i :: 0 <= i < |out| ==> jobs[out[i]].updatedAt <= jobs[id].updatedAt
    {
      hide Earliest, StaleRows;
      out := PickEarliest(StaleRows(jobs, cutoff), PageSize(asked));
      StalePage(jobs, cutoff, PageSize(asked), out);
    }
  }

  /** A limit outside 1..200 falls back to 50. */
  function PageSize(asked: int): nat {
    if asked <= 0 || asked > 200 then 50 else asked
  }

  /** The statuses whose worker may have been interrupted. */
  predicate InProgress(s: Status) {
    s == Scoring || s == GeneratingVariants || s == Publishing
  }

  /** The rows a queue listing is interested in, and when they were last touched. */
  function QueueKeys(db: Tables, status: Status): map<JobId, Time> {
    map id | id in db.jobs && db.jobs[id].status == status && db.jobs[id].nextRetryAt <= db.now :: db.jobs[id].updatedAt
  }

  /** The rows a promotion pass is interested in, and when they are scheduled for. */
  function DueKeys(db: Tables, asOf: Time): map<JobId, Time> {
    map id | id in db.jobs && DueBy(db.jobs[id], asOf) :: db.jobs[id].scheduledAt.value
  }

  /** The rows a stale-recovery pass is interested in, and when they were last touched. */
  function StaleRows(jobs: map<JobId, Job>, cutoff: Time): map<JobId, Time> {
    map id | id in jobs && InProgress(jobs[id].status) && jobs[id].updatedAt < cutoff :: jobs[id].updatedAt
  }

  /** out lists keys in order of time, each once, and fewer than the limit only if that is all of them. */
  ghost predicate Earliest(keys: map<JobId, Time>, limit: nat, out: seq<JobId>) {
    && |out| <= limit
    && (forall i :: 0 <= i < |out| ==> out[i] in keys)
    && (forall i, k :: 0 <= i < k < |out| ==> out[i] != out[k] && keys[out[i]] <= keys[out[k]])
    && (forall id :: id in keys && id !in out ==>
          |out| == limit && forall i :: 0 <= i < |out| ==> keys[out[i]] <= keys[id])
  }

  /** A page of a queue, read off the rows. */
  lemma QueuePage(db: Tables, status: Status, limit: nat, out: seq<JobId>)
    requires Earliest(QueueKeys(db, status), limit, out)
    ensures |out| <= limit
    ensures forall i :: 0 <= i < |out| ==>
              && out[i] in db.jobs && db.jobs[out[i]].status == status && db.jobs[out[i]].nextRetryAt <= db.now
    ensures forall i, k :: 0 <= i < k < |out| ==>
              out[i] != out[k] && db.jobs[out[i]].updatedAt <= db.jobs[out[k]].updatedAt
    ensures forall id ::
              (&& id in db.jobs && db.jobs[id].status == status && db.jobs[id].nextRetryAt <= db.now
               && id !in out) ==>
                |out| == limit && forall i :: 0 <= i < |out| ==> db.jobs[out[i]].updatedAt <= db.jobs[id].updatedAt
  {
    hide QueueKeys;
    QueueRows(db, status);
  }

  lemma QueueRows(db: Tables, status: Status)
    ensures forall id ::
              id in QueueKeys(db, status) <==>
                id in db.jobs && db.jobs[id].status == status && db.jobs[id].nextRetryAt <= db.now
    ensures forall id :: id in QueueKeys(db, status) ==> QueueKeys(db, status)[id] == db.jobs[id].updatedAt
  {
  }

  /** A page of the due schedules, read off the rows. */
  lemma DuePage(db: Tables, asOf: Time, limit: nat, out: seq<JobId>)
    requires Earliest(DueKeys(db, asOf), limit, out)
    ensures |out| <= limit
    ensures forall i :: 0 <= i < |out| ==>
              && out[i] in db.jobs && db.jobs[out[i]].status == Scheduled
              && db.jobs[out[i]].scheduledAt.Some? && db.jobs[out[i]].scheduledAt.value <= asOf
    ensures forall i, k :: 0 <= i < k < |out| ==>
              out[i] != out[k] && db.jobs[out[i]].scheduledAt.value <= db.jobs[out[k]].scheduledAt.value
    ensures forall id ::
              (&& id in db.jobs && db.jobs[id].status == Scheduled && db.jobs[id].scheduledAt.Some?
               && db.jobs[id].scheduledAt.value <= asOf && id !in out) ==>
                && |out| == limit
                && forall i :: 0 <= i < |out| ==> db.jobs[out[i]].scheduledAt.value <= db.jobs[id].scheduledAt.value
  {
    hide DueKeys;
    DueRows(db, asOf);
  }

  lemma DueRows(db: Tables, asOf: Time)
    ensures forall id ::
              id in DueKeys(db, asOf) <==>
                && id in db.jobs && db.jobs[id].status == Scheduled
                && db.jobs[id].scheduledAt.Some? && db.jobs[id].scheduledAt.value <= asOf
    ensures forall id :: id in DueKeys(db, asOf) ==> DueKeys(db, asOf)[id] == db.jobs[id].scheduledAt.value
  {
  }

  /** A page of stale jobs, read off the rows. */
  lemma StalePage(jobs: map<JobId, Job>, cutoff: Time, limit: nat, out: seq<JobId>)
    requires Earliest(StaleRows(jobs, cutoff), limit, out)
    ensures |out| <= limit
    ensures forall i :: 0 <= i < |out| ==>
              && out[i] in jobs && jobs[out[i]].updatedAt < cutoff
              && jobs[out[i]].status in {Scoring, GeneratingVariants, Publishing}
    ensures forall i, k :: 0 <= i < k < |out| ==>
              out[i] != out[k] && jobs[out[i]].updatedAt <= jobs[out[k]].updatedAt
    ensures forall id ::
              (&& id in jobs && jobs[id].updatedAt < cutoff
               && jobs[id].status in {Scoring, GeneratingVariants, Publishing} && id !in out) ==>
                |out| == limit && forall i :: 0 <= i < |out| ==> jobs[out[i]].updatedAt <= jobs[id].updatedAt
  {
    hide StaleRows;
    StaleKeys(jobs, cutoff);
  }

  lemma StaleKeys(jobs: map<JobId, Job>, cutoff: Time)
    ensures forall id ::
              id in StaleRows(jobs, cutoff) <==>
                && id in jobs && jobs[id].updatedAt < cutoff
                && jobs[id].status in {Scoring, GeneratingVariants, Publishing}
    ensures forall id :: id in StaleRows(jobs, cutoff) ==> StaleRows(jobs, cutoff)[id] == jobs[id].updatedAt
  {
  }

  /** A partial listing: what is out comes in order and before what is still to come. */
  ghost predicate Listing(keys: map<JobId, Time>, out: seq<JobId>, rest: set<JobId>) {
    && rest <= keys.Keys
    && (forall i :: 0 <= i < |out| ==> out[i] in keys && out[i] !in rest)
    && (forall id :: id in keys ==> id in out || id in rest)
    && (forall i, k :: 0 <= i < k < |out| ==> out[i] != out[k] && keys[out[i]] <= keys[out[k]])
    && (forall i, id :: 0 <= i < |out| && id in rest ==> keys[out[i]] <= keys[id])
  }

  method PickEarliest(keys: map<JobId, Time>, limit: nat) returns (out: seq<JobId>)
    ensures Earliest(keys, limit, out)
  {
    var rest := keys.Keys;
    out := [];
    while |out| < limit && rest != {}
      invariant |out| <= limit
      invariant Listing(keys, out, rest)
      decreases rest
    {
      ghost var first := EarliestExists(keys, rest);
      var id :| id in rest && forall k :: k in rest ==> keys[id] <= keys[k];
      ListingStep(keys, out, rest, id);
      out := out + [id];
      rest := rest - {id};
    }
  }

  lemma ListingStep(keys: map<JobId, Time>, out: seq<JobId>, rest: set<JobId>, id: JobId)
    requires Listing(keys, out, rest)
    requires id in rest && forall k :: k in rest ==> keys[id] <= keys[k]
    ensures Listing(keys, out + [id], rest - {id})
  {
    var out' := out + [id];
    assert out'[|out|] == id && forall i :: 0 <= i < |out| ==> out'[i] == out[i];
    forall k | k in keys
      ensures k in out' || k in rest - {id}
    {
      assert k in out || k in rest;
    }
  }

  lemma {:induction false} EarliestExists(keys: map<JobId, Time>, ids: set<JobId>) returns (id: JobId)
    requires ids != {} && ids <= keys.Keys
    ensures id in ids && forall k :: k in ids ==> keys[id] <= keys[k]
  {
    var one :| one in ids;
    var others := ids - {one};
    assert forall k :: k in ids ==> k == one || k in others;
    if others == {} { return one; }
    id := EarliestExists(keys, others);
    if keys[one] <= keys[id] { id := one; }
  }
}
