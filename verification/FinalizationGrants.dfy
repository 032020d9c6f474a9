/**
  When a finalization transaction is granted and what it then leaves, said of the stored fields alone; and
  how long a granted lease keeps other workers away.
*/
module FinalizationGrants {
  import opened Prelude
  import opened FinalizationJobs
  import opened FinalizationStore
  import opened FinalizationFencing

  /** The lease (generation, epoch) as it stands in the stored fields; a job without a generation has the first. */
  predicate HeldUnder(job: Job, generation: nat, epoch: nat) {
    && job.status == Leased && job.leaseEpoch == epoch
    && InGeneration(job, generation)
  }

  predicate InGeneration(job: Job, generation: nat) {
    if job.generation == 0 then generation == 1 else job.generation == generation
  }

  /** Nobody owns the job: it waits, or the lease on it has no end or has ended. */
  predicate Unowned(job: Job, now: int) {
    || job.status == Queued
    || (job.status == Leased && (job.leaseExpiresAt.None? || job.leaseExpiresAt.value <= now))
  }

  predicate NamedAs(job: Job, uid: Option<string>, conversation: Option<string>) {
    (uid.Some? ==> uid.value == job.uid) && (conversation.Some? ==> conversation.value == job.conversationId)
  }

  /**
    A lease is granted exactly on an unowned job of the named user and conversation, under its current
    generation, to a worker that has the user's keys if they are needed. It runs for the time asked, under
    the next epoch, and touches nothing but the lease, the deadline and the time of the write.
  */
  lemma LeaseGrantedIff(job: Job, generation: nat, allowByok: bool, leaseSeconds: nat, now: int, uid: Option<string>,
                        conversation: Option<string>)
    ensures var (e, r) := ClaimTxn(job, generation, allowByok, leaseSeconds, now, uid, conversation);
            && (r.Claimed? <==>
                  && NamedAs(job, uid, conversation) && (job.requiresByok ==> allowByok)
                  && InGeneration(job, generation)
                  && Unowned(job, now))
            && (e.Write? <==> r.Claimed?)
            && (r.Claimed? ==>
                  && r.epoch == job.leaseEpoch + 1 && r.attempts == job.attemptCount && r.createdAt == job.createdAt
                  && HeldUnder(e.job, generation, r.epoch)
                  && e.job.leaseExpiresAt == Some(now + leaseSeconds) && e.job.updatedAt == Some(now)
                  && e.job.reconcileAfterAt == (if job.requiresByok then None else Some(now + leaseSeconds))
                  && e.close.None?
                  && e.job == job.(status := Leased, leaseEpoch := e.job.leaseEpoch, updatedAt := e.job.updatedAt,
                                   leaseExpiresAt := e.job.leaseExpiresAt, reconcileAfterAt := e.job.reconcileAfterAt))
  {
  }

  /** Why a claim is refused, for a job of the named user and conversation. */
  lemma LeaseRefusals(job: Job, generation: nat, allowByok: bool, leaseSeconds: nat, now: int, uid: Option<string>,
                      conversation: Option<string>)
    ensures var r := ClaimTxn(job, generation, allowByok, leaseSeconds, now, uid, conversation).1;
            && (r.IdentityMismatch? <==> !NamedAs(job, uid, conversation))
            && (NamedAs(job, uid, conversation) ==>
                  && (r.ClaimFenced? <==> job.status == Completed && job.finalizationOutcome == FencedBeforeFanout)
                  && (r.ClaimTerminal? <==>
                        job.status == DeadLetter
                            || (job.status == Completed && job.finalizationOutcome != FencedBeforeFanout))
                  && (job.status in {Queued, Leased} ==> (r.ClaimNeedsByok? <==> job.requiresByok && !allowByok))
                  && (job.status == BlockedByok ==> r.ClaimNeedsByok?)
                  && (r.LeaseHeld? ==>
                        job.status == Leased && job.leaseExpiresAt.Some? && job.leaseExpiresAt.value > now))
  {
  }

  /** A completion is written exactly by the lease holder after fanout, and acknowledged again under its epoch. */
  lemma CompletionGrantedIff(job: Job, generation: nat, epoch: nat, now: int)
    ensures var (e, r) := MarkCompletedTxn(job, generation, epoch, now);
            && (e.Write? <==> HeldUnder(job, generation, epoch) && job.fanoutStatus == FanoutCompleted)
            && (r <==> e.Write? || (job.status == Completed && job.leaseEpoch == epoch))
            && (e.Write? ==>
                  && e.job.leaseExpiresAt == Some(now) && e.job.updatedAt == Some(now) && e.close.None?
                  && e.job == job.(status := Completed, terminalOutcome := Success, failure := NoFailure,
                                   reconcileAfterAt := None, leaseExpiresAt := Some(now), updatedAt := Some(now)))
  {
  }

  /** A fence is written exactly by the lease holder before any fanout was claimed. */
  lemma FenceGrantedIff(job: Job, generation: nat, epoch: nat, now: int)
    ensures var (e, r) := MarkFencedTxn(job, generation, epoch, now);
            && (e.Write? <==> HeldUnder(job, generation, epoch) && job.fanoutStatus in {FanoutUnset, FanoutPending})
            && (r <==> e.Write? || (job.status == Completed && job.leaseEpoch == epoch
                                    && job.finalizationOutcome == FencedBeforeFanout))
            && (e.Write? ==> FencedAs(job, e.job, now) && e.close.None?)
  {
  }

  /** The job ended as stale at `now`; nothing that identifies it changed. */
  predicate FencedAs(job: Job, fenced: Job, now: int) {
    && fenced.status == Completed && fenced.finalizationOutcome == FencedBeforeFanout && fenced.terminalOutcome == Stale
    && fenced.fanoutStatus == FanoutFenced && fenced.reconcileAfterAt == None && fenced.failure == NoFailure
    && fenced.leaseExpiresAt == Some(now) && fenced.updatedAt == Some(now)
    && job == fenced.(status := job.status, finalizationOutcome := job.finalizationOutcome,
                      terminalOutcome := job.terminalOutcome, fanoutStatus := job.fanoutStatus, failure := job.failure,
                      reconcileAfterAt := job.reconcileAfterAt, leaseExpiresAt := job.leaseExpiresAt,
                      updatedAt := job.updatedAt)
  }

  /** The conversation is finished, kept, and bound to this job at its revision. */
  predicate StillOwned(id: JobKey, job: Job, conversation: Option<Conversation>) {
    && conversation.Some? && conversation.value.status == Done && !conversation.value.discarded
    && conversation.value.jobId == Some(id) && conversation.value.revision == job.revision
  }

  /**
    Fanout is granted exactly to the lease holder of a job that still owns its finished conversation and has
    no completed fanout. A lease holder whose conversation has moved on ends the job as stale.
  */
  lemma FanoutGrantedIff(id: JobKey, job: Job, conversation: Option<Conversation>, generation: nat, epoch: nat,
                         now: int)
    ensures var (e, r) := ClaimFanoutTxn(id, job, conversation, generation, epoch, now);
            && (r.FanoutGranted? <==>
                  && HeldUnder(job, generation, epoch) && job.fanoutStatus != FanoutCompleted
                  && StillOwned(id, job, conversation))
            && (r.FanoutFencedNow? <==>
                  && HeldUnder(job, generation, epoch) && job.fanoutStatus != FanoutCompleted
                  && !StillOwned(id, job, conversation))
            && (r.FanoutAlreadyCompleted? <==> job.fanoutStatus == FanoutCompleted)
            && (e.Write? <==> r.FanoutGranted? || r.FanoutFencedNow?)
            && (r.FanoutGranted? ==>
                  && e.job.fanoutKey == Some(r.key) && e.job.fanoutStatus == FanoutLeased && e.job.fanoutEpoch == epoch
                  && e.close.None?
                  && e.job == job.(fanoutKey := e.job.fanoutKey, fanoutStatus := e.job.fanoutStatus,
                                   fanoutEpoch := e.job.fanoutEpoch, updatedAt := Some(now)))
            && (r.FanoutFencedNow? ==> FencedAs(job, e.job, now) && e.close.None?)
            && !r.FanoutMissing? && (job.fanoutKey.Some? ==> r.key == job.fanoutKey.value)
            && (job.fanoutKey.None? ==>
                  r.key == Backfilled(job.conversationId, if job.revision > 0 then job.revision else 1))
  {
  }

  /** Fanout completion is written exactly by the lease holder, and acknowledged again under the fanout's epoch. */
  lemma FanoutCompletionGrantedIff(job: Job, generation: nat, epoch: nat, now: int)
    ensures var (e, r) := MarkFanoutCompletedTxn(job, generation, epoch, now);
            && (e.Write? <==> HeldUnder(job, generation, epoch) && job.fanoutStatus != FanoutCompleted)
            && (r <==> e.Write? || (job.fanoutStatus == FanoutCompleted && job.fanoutEpoch == epoch))
            && (e.Write? ==> e.job == job.(fanoutStatus := FanoutCompleted, updatedAt := Some(now)) && e.close.None?)
  {
  }

  /** A retry is granted exactly to the lease holder; it gives the lease up and counts one more attempt. */
  lemma RetryGrantedIff(job: Job, generation: nat, epoch: nat, code: string, window: nat, now: int)
    ensures var (e, r) := MarkRetryableTxn(job, generation, epoch, code, window, now);
            && (r <==> HeldUnder(job, generation, epoch)) && (e.Write? <==> r)
            && (r ==>
                  && e.job.status == Queued && e.job.attemptCount == job.attemptCount + 1
                  && e.job.failure == ProcessingFailed(code) && e.job.leaseExpiresAt == Some(now)
                  && e.job.reconcileAfterAt == (if job.requiresByok then None else Some(now + window))
                  && e.close.None?
                  && e.job == job.(status := Queued, attemptCount := e.job.attemptCount, failure := e.job.failure,
                                   leaseExpiresAt := Some(now), updatedAt := Some(now),
                                   reconcileAfterAt := e.job.reconcileAfterAt))
  {
  }

  /** A dead letter is granted exactly to the lease holder; it closes exactly the row that still waits for this job. */
  lemma DeadLetterGrantedIff(id: JobKey, job: Job, conversation: Option<Conversation>, generation: nat, epoch: nat,
                             retries: nat, now: int)
    ensures var (e, r) := MarkDeadLetterTxn(id, job, conversation, generation, epoch, retries, now);
            && (r <==> HeldUnder(job, generation, epoch)) && (e.Write? <==> r)
            && (r ==>
                  && e.job == job.(status := DeadLetter, terminalOutcome := Failure, failure := FinalAttemptFailed,
                                   retryCount := retries, reconcileAfterAt := None, leaseExpiresAt := Some(now),
                                   updatedAt := Some(now))
                  && (e.close.Some? <==>
                        && conversation.Some? && conversation.value.status == Processing
                        && !conversation.value.discarded
                        && conversation.value.jobId == Some(id) && conversation.value.revision == job.revision)
                  && (e.close.Some? ==>
                        e.close.value == conversation.value.(status := Failed, discarded := true,
                                                             finalizationStatus := Some(DeadLetter))))
  {
  }

  /** A session resumes exactly a job that waits for its keys. */
  lemma ResumeGrantedIff(id: JobKey, job: Job, now: int)
    ensures var (e, r) := ResumeByokTxn(id, job, now);
            && (e.Write? <==> job.status == BlockedByok && job.requiresByok)
            && (e.Write? ==>
                  e.job == job.(status := Queued, reconcileAfterAt := None, updatedAt := Some(now)) && e.close.None?)
            && r.Intent? && r.id == id && !r.created && r.status == (if e.Write? then Queued else job.status)
  {
  }

  /** A replay requeues exactly a job whose lease has ended, or whose dispatch is at least a window old. */
  lemma ReplayGrantedIff(id: JobKey, job: Job, window: nat, now: int)
    ensures var (e, r) := ReplayTxn(id, job, window, now);
            && (e.Write? <==>
                  || (job.status == Leased && (job.leaseExpiresAt.None? || job.leaseExpiresAt.value <= now))
                  || (job.status == Queued
                      && (job.dispatchRequestedAt.None? || job.dispatchRequestedAt.value + window <= now)))
            && (e.Write? ==>
                  && e.job.generation == (if job.generation == 0 then 2 else job.generation + 1)
                  && e.job.reconcileAfterAt == Some(now + window) && e.job.dispatchRequestedAt == Some(now)
                  && e.close.None?
                  && e.job == job.(status := Queued, generation := e.job.generation, dispatchRequestedAt := Some(now),
                                   updatedAt := Some(now), leaseExpiresAt := Some(now),
                                   reconcileAfterAt := Some(now + window)))
            && r.Intent? && r.id == id && !r.created && r.status == (if e.Write? then Queued else job.status)
            && r.generation ==
                    (if e.Write? then e.job.generation else if job.generation == 0 then 1 else job.generation)
  {
  }

  /** Abandonment ends exactly an unowned job of that kind that is still as scanned and idle since the cutoff. */
  lemma AbandonmentGrantedIff(id: JobKey, job: Job, conversation: Option<Conversation>, status: JobStatus,
                              generation: nat, epoch: nat, cutoff: int, now: int)
    ensures var (e, r) := AbandonTxn(id, job, conversation, status, generation, epoch, cutoff, now);
            var active := if job.updatedAt.Some? then job.updatedAt else job.createdAt;
            && (r.Abandoned? <==>
                  && job.requiresByok && Unowned(job, now) && job.status == status && job.leaseEpoch == epoch
                  && InGeneration(job, generation)
                  && active.Some? && active.value <= cutoff)
            && (e.Write? <==> r.Abandoned?)
            && (r.Abandoned? ==>
                  && e.job == job.(status := DeadLetter, terminalOutcome := Failure, fanoutStatus := FanoutFenced,
                                   finalizationOutcome := ByokSessionAbandoned, failure := SessionAbandoned,
                                   reconcileAfterAt := None, leaseExpiresAt := Some(now), updatedAt := Some(now))
                  && (e.close.Some? <==>
                        && conversation.Some? && conversation.value.jobId == Some(id)
                        && conversation.value.revision == job.revision
                        && conversation.value.status == Processing && !conversation.value.discarded
                        && !conversation.value.deferred)
                  && (e.close.Some? ==>
                        e.close.value == conversation.value.(status := Done, finalizationStatus := Some(DeadLetter))))
  {
  }

  /**
    A create makes a job exactly for an undeferred conversation with content that has no job yet, when it is
    admitted with a fanout key. The job starts at its first generation, waiting, or blocked until the user's
    keys come; the conversation is bound to it and shows as processing.
  */
  lemma JobCreatedIff(s: Store, key: ConvKey, byok: bool, admission: Admission, shard: nat, window: nat, now: int)
    ensures var (s', r) := CreateIntentTxn(s, key, byok, admission, shard, window, now);
            && (r.Intent? && r.created <==>
                  && key in s.conversations && !s.conversations[key].deferred && s.conversations[key].hasContent
                  && !admission.terminal && admission.accepted && admission.fanoutKey != ""
                  && (s.conversations[key].jobId.Some? ==> s.conversations[key].jobId.value !in s.jobs)
                  && JobKey(key.uid, key.conversationId, s.conversations[key].revision + 1) !in s.jobs)
            && (r.Intent? && r.created ==>
                  var c := s.conversations[key];
                  && r.id == JobKey(key.uid, key.conversationId, c.revision + 1) && r.requiresByok == byok
                  && r.generation == 1
                  && s'.conversations == s.conversations[key := s'.conversations[key]]
                  && s'.conversations[key] == c.(status := Processing, jobId := Some(r.id), revision := c.revision + 1,
                                                 finalizationStatus := Some(r.status))
                  && s'.jobs == s.jobs[r.id := s'.jobs[r.id]]
                  && Waiting(s'.jobs[r.id], key, c.revision + 1, byok, admission.fanoutKey, shard, window, now)
                  && r.status == s'.jobs[r.id].status)
            && (!(r.Intent? && r.created) ==> s'.jobs == s.jobs && s'.shards == s.shards)
            && (r.NoIntent? ==> s' == s)
            && (r.Intent? && !r.created ==>
                  && r.id in s.jobs && r.status == s.jobs[r.id].status && r.requiresByok == s.jobs[r.id].requiresByok
                  && key in s.conversations
                  && if s.conversations[key].jobId == Some(r.id) then s' == s
                     else
                       var c := s.conversations[key];
                       && r.id == JobKey(key.uid, key.conversationId, c.revision + 1)
                       && s' == s.(conversations := s.conversations[key := c.(
                            status := Processing, jobId := Some(r.id), revision := c.revision + 1,
                            finalizationStatus := Some(r.status))]))
  {
    hide RecordDelta;
  }

  /** A job that nobody has worked on. */
  predicate Waiting(job: Job, key: ConvKey, revision: nat, byok: bool, fanoutKey: string, shard: nat, window: nat,
                    now: int)
  {
    && (job.uid, job.conversationId, job.revision) == (key.uid, key.conversationId, revision)
    && job.requiresByok == byok && job.status == (if byok then BlockedByok else Queued)
    && job.generation == 1 && job.leaseEpoch == 0 && job.attemptCount == 0 && job.retryCount == 0
    && job.leaseExpiresAt.None?
    && job.fanoutKey == Some(Admitted(fanoutKey)) && job.fanoutStatus == FanoutPending
    && job.reconcileAfterAt == (if byok then None else Some(now + window))
    && job.dispatchRequestedAt == Some(now) && job.createdAt == Some(now) && job.updatedAt == Some(now)
    && job.terminalOutcome == Undecided && job.finalizationOutcome == Unrecorded && job.failure == NoFailure
    && job.projection == Some(shard)
  }

  // ----- how long a lease lasts -----

  /** The job is still leased under this fence until then, or has ended. */
  predicate StillHeld(job: Job, generation: nat, epoch: nat, until: int) {
    || (HeldUnder(job, generation, epoch) && job.leaseExpiresAt == Some(until))
    || job.status == Completed || job.status == DeadLetter
  }

  /** The owner of the fence gives its lease up. */
  predicate GivesUp(e: Event, id: JobKey, generation: nat, epoch: nat) {
    && e.op.Transact? && e.op.id == id && e.op.op.MarkRetryable?
    && e.op.op.generation == generation && e.op.op.epoch == epoch
  }

  lemma LeaseEndGranted(st: State, e: Event, id: JobKey)
    requires Granted(st, e, id).Some?
    ensures id in Next(st, e).store.jobs
    ensures var fence := Granted(st, e, id).value;
            StillHeld(Next(st, e).store.jobs[id], fence.0, fence.1, st.clock + e.elapsed + e.op.op.leaseSeconds)
  {
  }

  lemma EffectKeepsHold(op: JobOp, id: JobKey, job: Job, conversation: Option<Conversation>, now: int, generation: nat,
                        epoch: nat, until: int)
    requires StillHeld(job, generation, epoch, until) && now < until
    requires !(op.MarkRetryable? && op.generation == generation && op.epoch == epoch)
    ensures var e := EffectOf(op, id, job, conversation, now); e.Write? ==> StillHeld(e.job, generation, epoch, until)
  {
  }

  lemma StepKeepsHold(st: State, e: Event, id: JobKey, generation: nat, epoch: nat, until: int)
    requires id in st.store.jobs && StillHeld(st.store.jobs[id], generation, epoch, until)
    requires st.clock + e.elapsed < until && !GivesUp(e, id, generation, epoch)
    ensures id in Next(st, e).store.jobs && StillHeld(Next(st, e).store.jobs[id], generation, epoch, until)
  {
    hide EffectOf, StillHeld, RecordDelta, NewJob;
    if e.op.Transact? && e.op.id == id {
      EffectKeepsHold(e.op.op, id, st.store.jobs[id], ConversationOf(st.store, st.store.jobs[id]), st.clock + e.elapsed,
                      generation, epoch, until);
    } else if e.op.Env? {
      EnvironmentKeepsJobs(st.store, e.op.key, e.op.step);
    }
  }

  lemma {:induction false} LeaseHolds(tr: seq<State>, es: seq<Event>, i: nat, n: nat, id: JobKey)
    requires IsRun(tr, es) && i < n <= |es| && Granted(tr[i], es[i], id).Some?
    requires tr[n].clock < tr[i + 1].clock + es[i].op.op.leaseSeconds
    requires var fence := Granted(tr[i], es[i], id).value;
             forall m :: i < m < n ==> !GivesUp(es[m], id, fence.0, fence.1)
    ensures var fence := Granted(tr[i], es[i], id).value;
            && id in tr[n].store.jobs
            && StillHeld(tr[n].store.jobs[id], fence.0, fence.1, tr[i + 1].clock + es[i].op.op.leaseSeconds)
  {
    hide StillHeld, Apply, ClaimTxn;
    var fence := Granted(tr[i], es[i], id).value;
    assert Follows(tr, es, n - 1) && Follows(tr, es, i);
    if n == i + 1 {
      LeaseEndGranted(tr[i], es[i], id);
    } else {
      LeaseHolds(tr, es, i, n - 1, id);
      StepKeepsHold(tr[n - 1], es[n - 1], id, fence.0, fence.1, tr[i + 1].clock + es[i].op.op.leaseSeconds);
    }
  }

  /**
    One worker at a time. Between two grants of a job lies at least the length of the first lease, unless the
    first owner gave its lease up by reporting a retry in between.
  */
  lemma GrantsAreSpaced(tr: seq<State>, es: seq<Event>, i: nat, k: nat, id: JobKey)
    requires IsRun(tr, es) && i < k < |es|
    requires Granted(tr[i], es[i], id).Some? && Granted(tr[k], es[k], id).Some?
    ensures var fence := Granted(tr[i], es[i], id).value;
            || tr[k + 1].clock >= tr[i + 1].clock + es[i].op.op.leaseSeconds
            || exists m :: i < m < k && GivesUp(es[m], id, fence.0, fence.1)
  {
    var fence := Granted(tr[i], es[i], id).value;
    var until := tr[i + 1].clock + es[i].op.op.leaseSeconds;
    if tr[k + 1].clock < until && forall m :: i < m < k ==> !GivesUp(es[m], id, fence.0, fence.1) {
      NoGrantMeanwhile(tr, es, i, k, id);
    }
  }

  lemma NoGrantMeanwhile(tr: seq<State>, es: seq<Event>, i: nat, k: nat, id: JobKey)
    requires IsRun(tr, es) && i < k < |es| && Granted(tr[i], es[i], id).Some?
    requires tr[k + 1].clock < tr[i + 1].clock + es[i].op.op.leaseSeconds
    requires var fence := Granted(tr[i], es[i], id).value;
             forall m :: i < m < k ==> !GivesUp(es[m], id, fence.0, fence.1)
    ensures Granted(tr[k], es[k], id).None?
  {
    hide StillHeld, Apply, ClaimTxn;
    var fence := Granted(tr[i], es[i], id).value;
    assert Follows(tr, es, k);
    LeaseHolds(tr, es, i, k, id);
    HeldJobIsRefused(tr[k], es[k], id, fence.0, fence.1, tr[i + 1].clock + es[i].op.op.leaseSeconds);
  }

  lemma HeldJobIsRefused(st: State, e: Event, id: JobKey, generation: nat, epoch: nat, until: int)
    requires id in st.store.jobs && StillHeld(st.store.jobs[id], generation, epoch, until)
             && st.clock + e.elapsed < until
    ensures Granted(st, e, id).None?
  {
  }
}
