/**
  The outbox as it runs: documents updated field by field inside each transaction, in the order the
  transactions read and write them. Every method is proved to be the step that the runs are made of.
*/
module FinalizationOutbox {
  import opened Prelude
  import opened FinalizationJobs
  import opened FinalizationStore
  import opened FinalizationProjection

  datatype Summary = Summary(
    accepted: int, success: int, failure: int, stale: int, nonterminal: int, queued: int, leased: int,
    blockedByok: int, completed: int, deadLetter: int, terminalUnknown: int, oldestNonterminalAge: int)

  const METRICS: seq<Metric> :=
    [AcceptedJobs, QueuedJobs, LeasedJobs, BlockedJobs, CompletedJobs, DeadLetterJobs, SuccessJobs, FailureJobs,
     StaleJobs]

  class Outbox {
    var jobs: map<JobKey, Job>
    var conversations: map<ConvKey, Conversation>
    var shards: map<nat, Counters>

    constructor ()
      ensures Documents() == Store(map[], map[], map[])
    {
      jobs, conversations, shards := map[], map[], map[];
    }

    ghost function Documents(): (s: Store)
      reads this
    {
      Store(jobs, conversations, shards)
    }

    method RecordProjectionDelta(job: Job, delta: Counters)
      modifies this`shards
      ensures shards == RecordDelta(old(shards), job, delta)
    {
      if job.projection.None? {
        return;
      }
      var k := job.projection.value;
      var moved := map m | m in delta && delta[m] != 0 :: delta[m];
      if moved == map[] {
        return;
      }
      var doc: Counters := map[];
      if k in shards {
        doc := shards[k];
      }
      doc := map m | m in doc.Keys + moved.Keys :: Count(doc, m) + Count(moved, m);
      shards := shards[k := doc];
    }

    /** The create step: binds the conversation to its job, writing the job and its counters if it is new. */
    method CreateOrGetIntent(key: ConvKey, requiresByok: bool, admission: Admission, shard: nat, window: nat, now: int)
      returns (intent: Intent)
      modifies this
      ensures (Documents(), intent) ==
                CreateIntentTxn(old(Documents()), key, requiresByok, admission, shard, window, now)
    {
      hide RecordDelta;
      if key !in conversations {
        return NoIntent("missing");
      }
      var conversation := conversations[key];
      if conversation.deferred {
        return NoIntent("deferred");
      }
      if !conversation.hasContent {
        return NoIntent("no_content");
      }
      if admission.terminal {
        return NoIntent(admission.reason);
      }
      if conversation.jobId.Some? && conversation.jobId.value in jobs {
        return IntentOf(conversation.jobId.value, jobs[conversation.jobId.value], false);
      }
      if !admission.accepted || admission.fanoutKey == "" {
        return NoIntent(admission.reason);
      }
      var revision := conversation.revision + 1;
      var id := JobKey(key.uid, key.conversationId, revision);
      conversation := conversation.(status := Processing, jobId := Some(id), revision := revision);
      if id in jobs {
        conversation := conversation.(finalizationStatus := Some(jobs[id].status));
        conversations := conversations[key := conversation];
        return IntentOf(id, jobs[id], false);
      }
      var job := NewJob(key.uid, key.conversationId, revision, requiresByok, admission.fanoutKey, shard, window, now);
      jobs := jobs[id := job];
      RecordProjectionDelta(job, map[AcceptedJobs := 1, BlockedJobs := if requiresByok then 1 else 0,
                                     QueuedJobs := if requiresByok then 0 else 1]);
      conversation := conversation.(finalizationStatus := Some(job.status));
      conversations := conversations[key := conversation];
      return IntentOf(id, job, true);
    }

    method ResumeBlockedByokJob(id: JobKey, now: int) returns (intent: Intent)
      modifies this
      ensures Documents() == OnJob(old(Documents()), id, Resume, now)
      ensures intent == if id in old(jobs) then ResumeByokTxn(id, old(jobs)[id], now).1 else NoIntent("missing")
    {
      if id !in jobs {
        return NoIntent("missing");
      }
      var job := jobs[id];
      if job.status == BlockedByok && job.requiresByok {
        jobs := jobs[id := job.(status := Queued, updatedAt := Some(now), reconcileAfterAt := None)];
        RecordProjectionDelta(job, map[BlockedJobs := -1, QueuedJobs := 1]);
        job := job.(status := Queued);
      }
      return IntentOf(id, job, false);
    }

    /** The guards of a claim, in the order they are checked; None when the job is free to lease. */
    method RefuseClaim(job: Job, generation: nat, allowByok: bool, now: int,
                       expectedUid: Option<string>, expectedConversation: Option<string>)
      returns (refusal: Option<ClaimResult>)
      ensures forall lease: nat ::
        var r := ClaimTxn(job, generation, allowByok, lease, now, expectedUid, expectedConversation);
        if refusal.Some? then r == (Keep, refusal.value) else r.1.Claimed?
    {
      if expectedUid.Some? && job.uid != expectedUid.value {
        return Some(IdentityMismatch);
      }
      if expectedConversation.Some? && job.conversationId != expectedConversation.value {
        return Some(IdentityMismatch);
      }
      if job.status == Completed && job.finalizationOutcome == FencedBeforeFanout {
        return Some(ClaimFenced);
      }
      if Terminal(job.status) {
        return Some(ClaimTerminal(job.status));
      }
      if (job.requiresByok && !allowByok) || job.status == BlockedByok {
        return Some(ClaimNeedsByok);
      }
      if GenerationOf(job) != generation {
        return Some(StaleGeneration);
      }
      if job.status == Leased {
        if job.leaseExpiresAt.Some? && job.leaseExpiresAt.value > now {
          return Some(LeaseHeld);
        }
      }
      return None;
    }

    method ClaimJob(id: JobKey, generation: nat, allowByok: bool, leaseSeconds: nat, now: int,
                    expectedUid: Option<string>, expectedConversation: Option<string>) returns (r: ClaimResult)
      modifies this
      ensures Documents() ==
                OnJob(old(Documents()), id,
                      Claim(generation, allowByok, leaseSeconds, expectedUid, expectedConversation), now)
      ensures r == if id in old(jobs)
                   then ClaimTxn(old(jobs)[id], generation, allowByok, leaseSeconds, now, expectedUid,
                                 expectedConversation).1
                   else ClaimMissing
    {
      hide RecordDelta;
      if id !in jobs {
        return ClaimMissing;
      }
      var job := jobs[id];
      var refusal := RefuseClaim(job, generation, allowByok, now, expectedUid, expectedConversation);
      assert refusal.None? <==>
             ClaimTxn(job, generation, allowByok, leaseSeconds, now, expectedUid, expectedConversation).1.Claimed?;
      if refusal.Some? {
        return refusal.value;
      }
      var epoch := job.leaseEpoch + 1;
      var expires := now + leaseSeconds;
      var deadline := if job.requiresByok then None else Some(expires);
      jobs := jobs[id := job.(status := Leased, leaseExpiresAt := Some(expires), leaseEpoch := epoch,
                              reconcileAfterAt := deadline, updatedAt := Some(now))];
      if job.status == Queued {
        RecordProjectionDelta(job, map[QueuedJobs := -1, LeasedJobs := 1]);
      } else {
        NothingRecorded(shards, job);
      }
      return Claimed(epoch, job.attemptCount, job.createdAt);
    }

    method MarkFinalizationCompleted(id: JobKey, generation: nat, epoch: nat, now: int) returns (done: bool)
      modifies this
      ensures Documents() == OnJob(old(Documents()), id, MarkCompleted(generation, epoch), now)
      ensures done == (id in old(jobs) && MarkCompletedTxn(old(jobs)[id], generation, epoch, now).1)
    {
      if id !in jobs {
        return false;
      }
      var job := jobs[id];
      if job.status == Completed {
        return job.leaseEpoch == epoch;
      }
      if !IsCurrentLease(job, generation, epoch) || job.fanoutStatus != FanoutCompleted {
        return false;
      }
      jobs := jobs[id := job.(status := Completed, terminalOutcome := Success, updatedAt := Some(now),
                              leaseExpiresAt := Some(now), reconcileAfterAt := None, failure := NoFailure)];
      RecordProjectionDelta(job, map[LeasedJobs := -1, CompletedJobs := 1, SuccessJobs := 1]);
      return true;
    }

    method MarkFinalizationFenced(id: JobKey, generation: nat, epoch: nat, now: int) returns (done: bool)
      modifies this
      ensures Documents() == OnJob(old(Documents()), id, MarkFenced(generation, epoch), now)
      ensures done == (id in old(jobs) && MarkFencedTxn(old(jobs)[id], generation, epoch, now).1)
    {
      if id !in jobs {
        return false;
      }
      var job := jobs[id];
      if job.status == Completed {
        return job.finalizationOutcome == FencedBeforeFanout && job.leaseEpoch == epoch;
      }
      if !IsCurrentLease(job, generation, epoch) {
        return false;
      }
      if job.fanoutStatus != FanoutUnset && job.fanoutStatus != FanoutPending {
        return false;
      }
      jobs := jobs[id := FencedJob(job, now)];
      RecordProjectionDelta(job, map[LeasedJobs := -1, CompletedJobs := 1, StaleJobs := 1]);
      return true;
    }

    method ReadBoundConversation(job: Job) returns (conversation: Option<Conversation>)
      ensures conversation == ConversationOf(Documents(), job)
    {
      conversation := None;
      if job.uid != "" && job.conversationId != "" {
        var key := ConvKey(job.uid, job.conversationId);
        if key in conversations {
          conversation := Some(conversations[key]);
        }
      }
    }

    /** The fanout step of a lease holder: grants the key, or ends the job as stale if its conversation has moved on. */
    method ClaimFinalizationFanout(id: JobKey, generation: nat, epoch: nat, now: int) returns (claim: FanoutClaim)
      modifies this
      ensures Documents() == OnJob(old(Documents()), id, ClaimFanout(generation, epoch), now)
      ensures claim == if id in old(jobs)
                       then ClaimFanoutTxn(id, old(jobs)[id], ConversationOf(old(Documents()), old(jobs)[id]),
                                           generation, epoch, now).1
                       else FanoutMissing
    {
      if id !in jobs {
        return FanoutMissing;
      }
      var job := jobs[id];
      var key := FanoutKeyOf(job);
      if job.fanoutStatus == FanoutCompleted {
        return FanoutAlreadyCompleted(key);
      }
      if !IsCurrentLease(job, generation, epoch) {
        return FanoutLeaseConflict(key);
      }
      var conversation := ReadBoundConversation(job);
      if conversation.None? || !AdmitsFanout(conversation.value, job, id) {
        jobs := jobs[id := FencedJob(job, now)];
        RecordProjectionDelta(job, map[LeasedJobs := -1, CompletedJobs := 1, StaleJobs := 1]);
        return FanoutFencedNow(key);
      }
      job := job.(fanoutKey := Some(key), fanoutStatus := FanoutLeased, fanoutEpoch := epoch, updatedAt := Some(now));
      jobs := jobs[id := job];
      return FanoutGranted(key);
    }

    method MarkFinalizationFanoutCompleted(id: JobKey, generation: nat, epoch: nat, now: int) returns (done: bool)
      modifies this
      ensures Documents() == OnJob(old(Documents()), id, MarkFanoutCompleted(generation, epoch), now)
      ensures done == (id in old(jobs) && MarkFanoutCompletedTxn(old(jobs)[id], generation, epoch, now).1)
    {
      if id !in jobs {
        return false;
      }
      var job := jobs[id];
      if job.fanoutStatus == FanoutCompleted {
        return job.fanoutEpoch == epoch;
      }
      if !IsCurrentLease(job, generation, epoch) {
        return false;
      }
      jobs := jobs[id := job.(fanoutStatus := FanoutCompleted, updatedAt := Some(now))];
      return true;
    }

    method MarkFinalizationRetryable(id: JobKey, generation: nat, epoch: nat, code: string, window: nat, now: int)
      returns (done: bool)
      modifies this
      ensures Documents() == OnJob(old(Documents()), id, MarkRetryable(generation, epoch, code, window), now)
      ensures done == (id in old(jobs) && MarkRetryableTxn(old(jobs)[id], generation, epoch, code, window, now).1)
    {
      if id !in jobs {
        return false;
      }
      var job := jobs[id];
      if !IsCurrentLease(job, generation, epoch) {
        return false;
      }
      var queued := job.(status := Queued, updatedAt := Some(now), leaseExpiresAt := Some(now),
                         failure := ProcessingFailed(code));
      queued := queued.(attemptCount := job.attemptCount + 1);
      queued := queued.(reconcileAfterAt := if job.requiresByok then None else Some(now + window));
      jobs := jobs[id := queued];
      RecordProjectionDelta(job, map[LeasedJobs := -1, QueuedJobs := 1]);
      return true;
    }

    /** The last failed attempt: the job ends, and a row that still waits for it is closed with it. */
    method MarkFinalizationDeadLetter(id: JobKey, generation: nat, epoch: nat, retries: nat, now: int)
      returns (done: bool)
      modifies this
      ensures Documents() == OnJob(old(Documents()), id, MarkDeadLetter(generation, epoch, retries), now)
      ensures done == (id in old(jobs) &&
                       MarkDeadLetterTxn(id, old(jobs)[id], ConversationOf(old(Documents()), old(jobs)[id]),
                                         generation, epoch, retries, now).1)
    {
      hide RecordDelta;
      if id !in jobs {
        return false;
      }
      var job := jobs[id];
      if !IsCurrentLease(job, generation, epoch) {
        return false;
      }
      var conversation := ReadBoundConversation(job);
      jobs := jobs[id := job.(status := DeadLetter, updatedAt := Some(now), terminalOutcome := Failure,
                              leaseExpiresAt := Some(now), reconcileAfterAt := None, retryCount := retries,
                              failure := FinalAttemptFailed)];
      RecordProjectionDelta(job, map[LeasedJobs := -1, DeadLetterJobs := 1, FailureJobs := 1]);
      if conversation.Some? {
        var c := conversation.value;
        if c.status == Processing && !c.discarded && c.jobId == Some(id) && c.revision == job.revision {
          c := c.(status := Failed, discarded := true, finalizationStatus := Some(DeadLetter));
          conversations := conversations[Bound(job) := c];
        }
      }
      return true;
    }

    method ClaimFinalizationReplay(id: JobKey, window: nat, now: int) returns (intent: Intent)
      modifies this
      ensures Documents() == OnJob(old(Documents()), id, Replay(window), now)
      ensures intent == if id in old(jobs) then ReplayTxn(id, old(jobs)[id], window, now).1 else NoIntent("missing")
    {
      hide RecordDelta;
      if id !in jobs {
        return NoIntent("missing");
      }
      var job := jobs[id];
      var status := job.status;
      if status == BlockedByok || Terminal(status) {
        return IntentOf(id, job, false);
      }
      if status == Leased && job.leaseExpiresAt.Some? && job.leaseExpiresAt.value > now {
        return IntentOf(id, job, false);
      }
      if status == Queued && job.dispatchRequestedAt.Some? && job.dispatchRequestedAt.value > now - window {
        return IntentOf(id, job, false);
      }
      var generation := GenerationOf(job) + 1;
      jobs := jobs[id :=
              job.(status := Queued, generation := generation, dispatchRequestedAt := Some(now), updatedAt := Some(now),
                              leaseExpiresAt := Some(now), reconcileAfterAt := Some(now + window))];
      if status == Leased {
        RecordProjectionDelta(job, map[LeasedJobs := -1, QueuedJobs := 1]);
      } else {
        NothingRecorded(shards, job);
      }
      return IntentOf(id, job.(status := Queued, generation := generation), false);
    }

    /** The abandonment step: ends the very version that a sweep read, and completes the row bound to it. */
    method AbandonByokJob(id: JobKey, status: JobStatus, generation: nat, epoch: nat, abandonedAfter: nat, now: int)
      returns (r: Abandonment)
      modifies this
      ensures Documents() == OnJob(old(Documents()), id, Abandon(status, generation, epoch, abandonedAfter), now)
      ensures r == if id in old(jobs)
                   then AbandonTxn(id, old(jobs)[id], ConversationOf(old(Documents()), old(jobs)[id]), status,
                       generation, epoch,
                                   now - abandonedAfter, now).1
                   else AbandonMissing
    {
      hide RecordDelta;
      if id !in jobs {
        return AbandonMissing;
      }
      var job := jobs[id];
      if !job.requiresByok {
        return AbandonFenced;
      }
      if !(job.status == Queued || job.status == Leased) || job.status != status {
        return AbandonFenced;
      }
      if GenerationOf(job) != generation || job.leaseEpoch != epoch {
        return AbandonFenced;
      }
      if job.status == Leased && job.leaseExpiresAt.Some? && job.leaseExpiresAt.value > now {
        return AbandonFenced;
      }
      var activity := LastActivity(job);
      if activity.None? || activity.value > now - abandonedAfter {
        return AbandonFenced;
      }
      var conversation := ReadBoundConversation(job);
      jobs := jobs[id := job.(status := DeadLetter, updatedAt := Some(now), terminalOutcome := Failure,
                              finalizationOutcome := ByokSessionAbandoned, leaseExpiresAt := Some(now),
                              reconcileAfterAt := None, fanoutStatus := FanoutFenced, failure := SessionAbandoned)];
      if status == Queued {
        RecordProjectionDelta(job, map[QueuedJobs := -1, DeadLetterJobs := 1, FailureJobs := 1]);
      } else {
        RecordProjectionDelta(job, map[LeasedJobs := -1, DeadLetterJobs := 1, FailureJobs := 1]);
      }
      if conversation.None? {
        return Abandoned(ConversationMissing);
      }
      var c := conversation.value;
      if c.jobId != Some(id) || c.revision != job.revision {
        return Abandoned(Unbound);
      }
      if c.status != Processing || c.discarded {
        return Abandoned(AlreadyTerminal);
      }
      if c.deferred {
        return Abandoned(DeferredLane);
      }
      conversations := conversations[Bound(job) := c.(status := Done, finalizationStatus := Some(DeadLetter))];
      return Abandoned(Closed);
    }

    /** Sums each counter over the shard documents; no job document is read. */
    method GetJobSummary(now: int) returns (summary: Summary)
      ensures var s := Documents();
              && summary.accepted == Total(s, AcceptedJobs) && summary.queued == Total(s, QueuedJobs)
              && summary.leased == Total(s, LeasedJobs) && summary.blockedByok == Total(s, BlockedJobs)
              && summary.completed == Total(s, CompletedJobs) && summary.deadLetter == Total(s, DeadLetterJobs)
              && summary.success == Total(s, SuccessJobs) && summary.failure == Total(s, FailureJobs)
              && summary.stale == Total(s, StaleJobs)
              && summary.nonterminal == Total(s, QueuedJobs) + Total(s, LeasedJobs)
              && summary.terminalUnknown == 0
      ensures forall id :: id in jobs && !Terminal(jobs[id].status) && jobs[id].createdAt.Some? ==>
                summary.oldestNonterminalAge >= now - jobs[id].createdAt.value
      ensures summary.oldestNonterminalAge == 0 || UnfinishedSince(now - summary.oldestNonterminalAge)
      ensures summary.oldestNonterminalAge >= 0
    {
      var totals := SumShards();
      var age := OldestUnfinishedAge(now);
      summary := Summary(
        Count(totals, AcceptedJobs), Count(totals, SuccessJobs), Count(totals, FailureJobs), Count(totals, StaleJobs),
        Count(totals, QueuedJobs) + Count(totals, LeasedJobs), Count(totals, QueuedJobs), Count(totals, LeasedJobs),
        Count(totals, BlockedJobs), Count(totals, CompletedJobs), Count(totals, DeadLetterJobs), 0, age);
    }

    /** Some unfinished job was created at `at`. */
    ghost predicate UnfinishedSince(at: int)
      reads this
    {
      exists id :: id in jobs && !Terminal(jobs[id].status) && jobs[id].createdAt == Some(at)
    }

    method SumShards() returns (totals: Counters)
      ensures forall m: Metric :: Count(totals, m) == Total(Documents(), m)
    {
      totals := map[];
      for shard := 0 to SHARD_COUNT
        invariant forall m: Metric :: Count(totals, m) == ShardTotal(shards, m, shard)
      {
        if shard in shards {
          var data := shards[shard];
          ghost var before := totals;
          for i := 0 to |METRICS|
            invariant forall j :: 0 <= j < i ==>
                          Count(totals, METRICS[j]) == Count(before, METRICS[j]) + Count(data, METRICS[j])
            invariant forall j :: i <= j < |METRICS| ==> Count(totals, METRICS[j]) == Count(before, METRICS[j])
          {
            var name := METRICS[i];
            totals := totals[name := Count(totals, name) + Count(data, name)];
          }
          forall m: Metric ensures Count(totals, m) == ShardTotal(shards, m, shard + 1) {
            assert m == METRICS[MetricIndex(m)];
          }
        }
      }
    }

    /** The ordered query for the oldest job of one status; a job without a creation time is not in its index. */
    method OldestCreated(status: JobStatus) returns (at: Option<int>)
      ensures at.Some? ==> exists id :: id in jobs && jobs[id].status == status && jobs[id].createdAt == at
      ensures forall id :: id in jobs && jobs[id].status == status && jobs[id].createdAt.Some? ==>
                at.Some? && at.value <= jobs[id].createdAt.value
    {
      at := None;
      var rest := jobs.Keys;
      while rest != {}
        invariant rest <= jobs.Keys
        invariant at.Some? ==> exists id :: id in jobs && jobs[id].status == status && jobs[id].createdAt == at
        invariant forall id :: id in jobs && id !in rest && jobs[id].status == status && jobs[id].createdAt.Some? ==>
                    at.Some? && at.value <= jobs[id].createdAt.value
        decreases |rest|
      {
        var id :| id in rest;
        var created := jobs[id].createdAt;
        if jobs[id].status == status && created.Some? && (at.None? || created.value < at.value) {
          at := created;
        }
        rest := rest - {id};
      }
    }

    /** How long some job has been waiting at most, from one query for each status that is not terminal. */
    method OldestUnfinishedAge(now: int) returns (age: int)
      ensures forall id :: id in jobs && !Terminal(jobs[id].status) && jobs[id].createdAt.Some? ==>
                age >= now - jobs[id].createdAt.value
      ensures age >= 0 && (age == 0 || UnfinishedSince(now - age))
    {
      age := 0;
      var statuses := [BlockedByok, Leased, Queued];
      for i := 0 to |statuses|
        invariant forall id :: id in jobs && jobs[id].status in statuses[..i] && jobs[id].createdAt.Some? ==>
                    age >= now - jobs[id].createdAt.value
        invariant age >= 0 && (age == 0 || UnfinishedSince(now - age))
      {
        var oldest := OldestCreated(statuses[i]);
        assert statuses[..i + 1] == statuses[..i] + [statuses[i]];
        if oldest.Some? && now - oldest.value > age {
          age := now - oldest.value;
        }
      }
      assert statuses[..|statuses|] == statuses;
      forall id | id in jobs && !Terminal(jobs[id].status) ensures jobs[id].status in statuses {
        assert statuses[0] == BlockedByok && statuses[1] == Leased && statuses[2] == Queued;
      }
    }
  }

  function MetricIndex(m: Metric): (i: nat)
    ensures i < |METRICS| && METRICS[i] == m
  {
    match m
    case AcceptedJobs => 0
    case QueuedJobs => 1
    case LeasedJobs => 2
    case BlockedJobs => 3
    case CompletedJobs => 4
    case DeadLetterJobs => 5
    case SuccessJobs => 6
    case FailureJobs => 7
    case StaleJobs => 8
  }
}
