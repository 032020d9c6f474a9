/**
  One finalization job document and the transactions that rewrite it.

  A transaction is modelled as one atomic step. It reads the job (and, for fanout, dead letter and
  abandonment, the conversation the job names) and yields an `Effect`: either nothing is written, or
  the job is replaced, aggregate counters are incremented, and the conversation may be closed, all in
  one commit. Instants are integers; a missing field is `None` (or 0 for the numeric fields that the
  code defaults).
*/
module FinalizationJobs {
  import opened Prelude

  /** Job ids are a digest of this triple; the digest is taken to be injective. */
  datatype JobKey = JobKey(uid: string, conversationId: string, revision: nat)

  datatype JobStatus = Queued | Leased | BlockedByok | Completed | DeadLetter
  datatype FanoutStatus = FanoutUnset | FanoutPending | FanoutLeased | FanoutCompleted | FanoutFenced
  datatype FanoutKey = Admitted(key: string) | Backfilled(conversationId: string, revision: nat)
  datatype TerminalOutcome = Undecided | Success | Failure | Stale
  datatype FinalizationOutcome = Unrecorded | FencedBeforeFanout | ByokSessionAbandoned
  datatype FailureCode = NoFailure | ProcessingFailed(code: string) | FinalAttemptFailed | SessionAbandoned

  datatype Job = Job(
    uid: string,
    conversationId: string,
    revision: nat,
    status: JobStatus,
    requiresByok: bool,
    fanoutKey: Option<FanoutKey>,
    fanoutStatus: FanoutStatus,
    fanoutEpoch: nat,
    generation: nat,
    leaseEpoch: nat,
    leaseExpiresAt: Option<int>,
    reconcileAfterAt: Option<int>,
    dispatchRequestedAt: Option<int>,
    createdAt: Option<int>,
    updatedAt: Option<int>,
    attemptCount: nat,
    retryCount: nat,
    terminalOutcome: TerminalOutcome,
    finalizationOutcome: FinalizationOutcome,
    failure: FailureCode,
    projection: Option<nat>)

  datatype ConversationStatus = InProgress | Processing | Done | Failed | Merging

  datatype Conversation = Conversation(
    status: ConversationStatus,
    discarded: bool,
    deferred: bool,
    hasContent: bool,
    jobId: Option<JobKey>,
    revision: nat,
    finalizationStatus: Option<JobStatus>)

  /** The counters kept per projection shard. */
  datatype Metric =
    | AcceptedJobs | QueuedJobs | LeasedJobs | BlockedJobs | CompletedJobs | DeadLetterJobs
    | SuccessJobs | FailureJobs | StaleJobs

  type Counters = map<Metric, int>

  datatype Effect = Keep | Write(job: Job, delta: Counters, close: Option<Conversation>)

  datatype Intent =
    | NoIntent(reason: string)
    | Intent(id: JobKey, status: JobStatus, generation: nat, requiresByok: bool, fanoutKey: Option<FanoutKey>,
             created: bool)

  datatype ClaimResult =
    | Claimed(epoch: nat, attempts: nat, createdAt: Option<int>)
    | ClaimMissing
    | IdentityMismatch
    | ClaimFenced
    | ClaimTerminal(status: JobStatus)
    | ClaimNeedsByok
    | StaleGeneration
    | LeaseHeld

  datatype FanoutClaim =
    | FanoutMissing
    | FanoutGranted(key: FanoutKey)
    | FanoutAlreadyCompleted(key: FanoutKey)
    | FanoutLeaseConflict(key: FanoutKey)
    | FanoutFencedNow(key: FanoutKey)

  datatype ConversationDisposition = Untouched | ConversationMissing | Unbound | AlreadyTerminal | DeferredLane | Closed
  datatype Abandonment = AbandonMissing | AbandonFenced | Abandoned(conversation: ConversationDisposition)

  predicate Terminal(status: JobStatus) {
    status.Completed? || status.DeadLetter?
  }

  /** An absent generation reads as 1. */
  function GenerationOf(job: Job): (g: nat) {
    if job.generation == 0 then 1 else job.generation
  }

  predicate IsCurrentLease(job: Job, generation: nat, epoch: nat) {
    job.status.Leased? && GenerationOf(job) == generation && job.leaseEpoch == epoch
  }

  predicate LeaseLive(job: Job, now: int) {
    job.status.Leased? && job.leaseExpiresAt.Some? && job.leaseExpiresAt.value > now
  }

  function FanoutKeyOf(job: Job): (key: FanoutKey) {
    match job.fanoutKey
    case Some(key) => key
    case None => Backfilled(job.conversationId, if job.revision == 0 then 1 else job.revision)
  }

  function LastActivity(job: Job): (at: Option<int>) {
    if job.updatedAt.Some? then job.updatedAt else job.createdAt
  }

  function IntentOf(id: JobKey, job: Job, created: bool): (intent: Intent) {
    Intent(id, job.status, GenerationOf(job), job.requiresByok, job.fanoutKey, created)
  }

  /** A BYOK job is only ever resumed by a live session, so it never gets a reconcile deadline. */
  function ResumeByokTxn(id: JobKey, job: Job, now: int): (r: (Effect, Intent)) {
    if job.status.BlockedByok? && job.requiresByok then
      (Write(job.(status := Queued, updatedAt := Some(now), reconcileAfterAt := None),
             map[BlockedJobs := -1, QueuedJobs := 1], None),
       IntentOf(id, job.(status := Queued), false))
    else
      (Keep, IntentOf(id, job, false))
  }

  function ClaimTxn(job: Job, generation: nat, allowByok: bool, leaseSeconds: nat, now: int,
                    expectedUid: Option<string>, expectedConversation: Option<string>): (r: (Effect, ClaimResult))
  {
    if expectedUid.Some? && expectedUid.value != job.uid then (Keep, IdentityMismatch)
    else if expectedConversation.Some? && expectedConversation.value != job.conversationId then (Keep, IdentityMismatch)
    else if job.status.Completed? && job.finalizationOutcome.FencedBeforeFanout? then (Keep, ClaimFenced)
    else if Terminal(job.status) then (Keep, ClaimTerminal(job.status))
    else if job.requiresByok && !allowByok then (Keep, ClaimNeedsByok)
    else if job.status.BlockedByok? then (Keep, ClaimNeedsByok)
    else if GenerationOf(job) != generation then (Keep, StaleGeneration)
    else if LeaseLive(job, now) then (Keep, LeaseHeld)
    else
      var expires := now + leaseSeconds;
      (Write(job.(status := Leased,
                  leaseExpiresAt := Some(expires),
                  leaseEpoch := job.leaseEpoch + 1,
                  reconcileAfterAt := if job.requiresByok then None else Some(expires),
                  updatedAt := Some(now)),
             if job.status.Queued? then map[QueuedJobs := -1, LeasedJobs := 1] else map[], None),
       Claimed(job.leaseEpoch + 1, job.attemptCount, job.createdAt))
  }

  function MarkCompletedTxn(job: Job, generation: nat, epoch: nat, now: int): (r: (Effect, bool)) {
    if job.status.Completed? then (Keep, job.leaseEpoch == epoch)
    else if !IsCurrentLease(job, generation, epoch) then (Keep, false)
    else if !job.fanoutStatus.FanoutCompleted? then (Keep, false)
    else
      (Write(job.(status := Completed, terminalOutcome := Success, updatedAt := Some(now),
                  leaseExpiresAt := Some(now), reconcileAfterAt := None, failure := NoFailure),
             map[LeasedJobs := -1, CompletedJobs := 1, SuccessJobs := 1], None),
       true)
  }

  /** The job after a fence: completed as stale, with its fanout closed for good. */
  function FencedJob(job: Job, now: int): (fenced: Job) {
    job.(status := Completed, updatedAt := Some(now), leaseExpiresAt := Some(now), reconcileAfterAt := None,
         failure := NoFailure, finalizationOutcome := FencedBeforeFanout, terminalOutcome := Stale,
         fanoutStatus := FanoutFenced)
  }

  function MarkFencedTxn(job: Job, generation: nat, epoch: nat, now: int): (r: (Effect, bool)) {
    if job.status.Completed? then
      (Keep, job.finalizationOutcome.FencedBeforeFanout? && job.leaseEpoch == epoch)
    else if !IsCurrentLease(job, generation, epoch) then (Keep, false)
    else if !(job.fanoutStatus.FanoutUnset? || job.fanoutStatus.FanoutPending?) then (Keep, false)
    else (Write(FencedJob(job, now), map[LeasedJobs := -1, CompletedJobs := 1, StaleJobs := 1], None), true)
  }

  /** The conversation must still be completed, kept, and bound to this job at this revision. */
  predicate AdmitsFanout(conversation: Conversation, job: Job, id: JobKey) {
    && !conversation.discarded
    && conversation.status.Done?
    && conversation.jobId == Some(id)
    && conversation.revision == job.revision
  }

  function ClaimFanoutTxn(id: JobKey, job: Job, conversation: Option<Conversation>, generation: nat, epoch: nat,
                          now: int)
    : (r: (Effect, FanoutClaim))
  {
    var key := FanoutKeyOf(job);
    if job.fanoutStatus.FanoutCompleted? then (Keep, FanoutAlreadyCompleted(key))
    else if !IsCurrentLease(job, generation, epoch) then (Keep, FanoutLeaseConflict(key))
    else if conversation.None? || !AdmitsFanout(conversation.value, job, id) then
      (Write(FencedJob(job, now), map[LeasedJobs := -1, CompletedJobs := 1, StaleJobs := 1], None),
       FanoutFencedNow(key))
    else
      (Write(job.(fanoutKey := Some(key), fanoutStatus := FanoutLeased, fanoutEpoch := epoch, updatedAt := Some(now)),
             map[], None),
       FanoutGranted(key))
  }

  function MarkFanoutCompletedTxn(job: Job, generation: nat, epoch: nat, now: int): (r: (Effect, bool)) {
    if job.fanoutStatus.FanoutCompleted? then (Keep, job.fanoutEpoch == epoch)
    else if !IsCurrentLease(job, generation, epoch) then (Keep, false)
    else (Write(job.(fanoutStatus := FanoutCompleted, updatedAt := Some(now)), map[], None), true)
  }

  function MarkRetryableTxn(job: Job, generation: nat, epoch: nat, code: string, window: nat, now: int)
    : (r: (Effect, bool))
  {
    if !IsCurrentLease(job, generation, epoch) then (Keep, false)
    else
      (Write(job.(status := Queued, updatedAt := Some(now), leaseExpiresAt := Some(now),
                  attemptCount := job.attemptCount + 1,
                  reconcileAfterAt := if job.requiresByok then None else Some(now + window),
                  failure := ProcessingFailed(code)),
             map[LeasedJobs := -1, QueuedJobs := 1], None),
       true)
  }

  function MarkDeadLetterTxn(id: JobKey, job: Job, conversation: Option<Conversation>, generation: nat, epoch: nat,
                             retries: nat, now: int): (r: (Effect, bool))
  {
    if !IsCurrentLease(job, generation, epoch) then (Keep, false)
    else
      var close :=
        match conversation
        case Some(c) =>
          if c.status.Processing? && !c.discarded && c.jobId == Some(id) && c.revision == job.revision
          then Some(c.(status := Failed, discarded := true, finalizationStatus := Some(DeadLetter)))
          else None
        case None => None;
      (Write(job.(status := DeadLetter, updatedAt := Some(now), terminalOutcome := Failure,
                  leaseExpiresAt := Some(now), reconcileAfterAt := None, retryCount := retries,
                  failure := FinalAttemptFailed),
             map[LeasedJobs := -1, DeadLetterJobs := 1, FailureJobs := 1], close),
       true)
  }

  /** Whether a replay at `now` with stale window `window` requeues this job. */
  predicate Replayable(job: Job, window: nat, now: int) {
    || (job.status.Leased? && !LeaseLive(job, now))
    || (job.status.Queued? && !(job.dispatchRequestedAt.Some? && job.dispatchRequestedAt.value > now - window))
  }

  function ReplayTxn(id: JobKey, job: Job, window: nat, now: int): (r: (Effect, Intent)) {
    if job.status.BlockedByok? || Terminal(job.status) then (Keep, IntentOf(id, job, false))
    else if !Replayable(job, window, now) then (Keep, IntentOf(id, job, false))
    else
      var generation := GenerationOf(job) + 1;
      (Write(job.(status := Queued, generation := generation, dispatchRequestedAt := Some(now),
                  updatedAt := Some(now), leaseExpiresAt := Some(now), reconcileAfterAt := Some(now + window)),
             if job.status.Leased? then map[LeasedJobs := -1, QueuedJobs := 1] else map[], None),
       IntentOf(id, job.(status := Queued, generation := generation), false))
  }

  /** The job is still the version a sweep read, nobody holds its lease, and it has been idle since the cutoff. */
  predicate Abandonable(job: Job, status: JobStatus, generation: nat, epoch: nat, cutoff: int, now: int) {
    && job.requiresByok
    && (job.status.Queued? || job.status.Leased?)
    && job.status == status
    && GenerationOf(job) == generation
    && job.leaseEpoch == epoch
    && !LeaseLive(job, now)
    && LastActivity(job).Some?
    && LastActivity(job).value <= cutoff
  }

  function AbandonDisposition(id: JobKey, job: Job, conversation: Option<Conversation>): (d: ConversationDisposition) {
    match conversation
    case None => ConversationMissing
    case Some(c) =>
      if c.jobId != Some(id) || c.revision != job.revision then Unbound
      else if !c.status.Processing? || c.discarded then AlreadyTerminal
      else if c.deferred then DeferredLane
      else Closed
  }

  function AbandonTxn(id: JobKey, job: Job, conversation: Option<Conversation>, status: JobStatus, generation: nat,
                      epoch: nat, cutoff: int, now: int): (r: (Effect, Abandonment))
  {
    if !Abandonable(job, status, generation, epoch, cutoff, now) then (Keep, AbandonFenced)
    else
      var disposition := AbandonDisposition(id, job, conversation);
      var close :=
        if disposition.Closed?
        then Some(conversation.value.(status := Done, finalizationStatus := Some(DeadLetter)))
        else None;
      (Write(job.(status := DeadLetter, updatedAt := Some(now), terminalOutcome := Failure,
                  finalizationOutcome := ByokSessionAbandoned, leaseExpiresAt := Some(now),
                  reconcileAfterAt := None, fanoutStatus := FanoutFenced, failure := SessionAbandoned),
             if status.Queued? then map[QueuedJobs := -1, DeadLetterJobs := 1, FailureJobs := 1]
             else map[LeasedJobs := -1, DeadLetterJobs := 1, FailureJobs := 1],
             close),
       Abandoned(disposition))
  }

  /** Every transaction on an existing job, with the arguments its caller chooses. */
  datatype JobOp =
    | Resume
    | Claim(generation: nat, allowByok: bool, leaseSeconds: nat, expectedUid: Option<string>,
            expectedConversation: Option<string>)
    | MarkCompleted(generation: nat, epoch: nat)
    | MarkFenced(generation: nat, epoch: nat)
    | ClaimFanout(generation: nat, epoch: nat)
    | MarkFanoutCompleted(generation: nat, epoch: nat)
    | MarkRetryable(generation: nat, epoch: nat, code: string, window: nat)
    | MarkDeadLetter(generation: nat, epoch: nat, retries: nat)
    | Replay(window: nat)
    | Abandon(status: JobStatus, generation: nat, epoch: nat, abandonedAfter: nat)

  function EffectOf(op: JobOp, id: JobKey, job: Job, conversation: Option<Conversation>, now: int): (e: Effect) {
    match op
    case Resume => ResumeByokTxn(id, job, now).0
    case Claim(g, byok, lease, uid, cid) => ClaimTxn(job, g, byok, lease, now, uid, cid).0
    case MarkCompleted(g, e) => MarkCompletedTxn(job, g, e, now).0
    case MarkFenced(g, e) => MarkFencedTxn(job, g, e, now).0
    case ClaimFanout(g, e) => ClaimFanoutTxn(id, job, conversation, g, e, now).0
    case MarkFanoutCompleted(g, e) => MarkFanoutCompletedTxn(job, g, e, now).0
    case MarkRetryable(g, e, code, window) => MarkRetryableTxn(job, g, e, code, window, now).0
    case MarkDeadLetter(g, e, retries) => MarkDeadLetterTxn(id, job, conversation, g, e, retries, now).0
    case Replay(window) => ReplayTxn(id, job, window, now).0
    case Abandon(status, g, e, after) => AbandonTxn(id, job, conversation, status, g, e, now - after, now).0
  }

  /** The operations a worker performs under the (generation, epoch) fence of its lease. */
  predicate WorkerOp(op: JobOp, generation: nat, epoch: nat) {
    match op
    case MarkCompleted(g, e) => g == generation && e == epoch
    case MarkFenced(g, e) => g == generation && e == epoch
    case ClaimFanout(g, e) => g == generation && e == epoch
    case MarkFanoutCompleted(g, e) => g == generation && e == epoch
    case MarkRetryable(g, e, _, _) => g == generation && e == epoch
    case MarkDeadLetter(g, e, _) => g == generation && e == epoch
    case _ => false
  }
}
