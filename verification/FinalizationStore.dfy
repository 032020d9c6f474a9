/**
  The finalization documents of every user, and runs over them.

  `Next` is one committed transaction or one step of the surrounding system, and a run is the sequence
  of states that an arbitrary interleaving of them produces. The clock never runs backwards: an event
  says how much time passed before it. A crash is an event that never comes.
*/
module FinalizationStore {
  import opened Prelude
  import opened FinalizationJobs

  const SHARD_COUNT: nat := 16

  datatype ConvKey = ConvKey(uid: string, conversationId: string)

  datatype Admission = Admission(accepted: bool, terminal: bool, reason: string, fanoutKey: string)

  datatype Store = Store(
    jobs: map<JobKey, Job>,
    conversations: map<ConvKey, Conversation>,
    shards: map<nat, Counters>)

  function Count(doc: Counters, m: Metric): (n: int) {
    if m in doc then doc[m] else 0
  }

  /** A counter of one shard; a shard document or field that was never written reads as 0. */
  function ReadShard(shards: map<nat, Counters>, k: nat, m: Metric): (n: int) {
    if k in shards then Count(shards[k], m) else 0
  }

  function NonZero(delta: Counters): (d: Counters) {
    map m | m in delta && delta[m] != 0 :: delta[m]
  }

  /** Increments the job's shard atomically with its transaction; unprojected jobs move no counter. */
  function RecordDelta(shards: map<nat, Counters>, job: Job, delta: Counters): (r: map<nat, Counters>) {
    var moved := NonZero(delta);
    if job.projection.None? || moved == map[] then shards
    else
      var k := job.projection.value;
      var doc := if k in shards then shards[k] else map[];
      shards[k := map m | m in doc.Keys + moved.Keys :: Count(doc, m) + Count(moved, m)]
  }

  lemma NothingRecorded(shards: map<nat, Counters>, job: Job)
    ensures RecordDelta(shards, job, map[]) == shards
  {
    assert NonZero(map[]) == map[];
  }

  function Bound(job: Job): (k: ConvKey) {
    ConvKey(job.uid, job.conversationId)
  }

  /** The conversation a job names; a job without a uid or conversation id names none. */
  function ConversationOf(s: Store, job: Job): (c: Option<Conversation>) {
    if job.uid != "" && job.conversationId != "" && Bound(job) in s.conversations
    then Some(s.conversations[Bound(job)])
    else None
  }

  function Commit(s: Store, id: JobKey, effect: Effect): (s': Store)
    requires id in s.jobs
  {
    match effect
    case Keep => s
    case Write(job, delta, close) =>
      Store(s.jobs[id := job],
            if close.Some? then s.conversations[Bound(s.jobs[id]) := close.value] else s.conversations,
            RecordDelta(s.shards, s.jobs[id], delta))
  }

  function OnJob(s: Store, id: JobKey, op: JobOp, now: int): (s': Store) {
    if id !in s.jobs then s
    else Commit(s, id, EffectOf(op, id, s.jobs[id], ConversationOf(s, s.jobs[id]), now))
  }

  function NewJob(uid: string, conversationId: string, revision: nat, requiresByok: bool, fanoutKey: string, shard: nat,
                  window: nat, now: int): (job: Job)
  {
    Job(uid, conversationId, revision,
        if requiresByok then BlockedByok else Queued, requiresByok,
        Some(Admitted(fanoutKey)), FanoutPending, 0,
        1, 0, None, if requiresByok then None else Some(now + window), Some(now), Some(now), Some(now),
        0, 0, Undecided, Unrecorded, NoFailure, Some(shard))
  }

  /**
    Creates the finalization job of a conversation, or returns the one it already has. `shard` stands
    for the digest-derived shard of the new job id; it is left arbitrary below SHARD_COUNT.
  */
  function CreateIntentTxn(s: Store, key: ConvKey, requiresByok: bool, admission: Admission, shard: nat, window: nat,
                           now: int)
    : (r: (Store, Intent))
  {
    if key !in s.conversations then (s, NoIntent("missing"))
    else
      var conversation := s.conversations[key];
      if conversation.deferred then (s, NoIntent("deferred"))
      else if !conversation.hasContent then (s, NoIntent("no_content"))
      else if admission.terminal then (s, NoIntent(admission.reason))
      else if conversation.jobId.Some? && conversation.jobId.value in s.jobs then
        (s, IntentOf(conversation.jobId.value, s.jobs[conversation.jobId.value], false))
      else if !admission.accepted || admission.fanoutKey == "" then (s, NoIntent(admission.reason))
      else
        var revision := conversation.revision + 1;
        var id := JobKey(key.uid, key.conversationId, revision);
        if id in s.jobs then
          (s.(conversations := s.conversations[key := conversation.(
                status := Processing, jobId := Some(id), revision := revision,
                finalizationStatus := Some(s.jobs[id].status))]),
           IntentOf(id, s.jobs[id], false))
        else
          var job := NewJob(key.uid, key.conversationId, revision, requiresByok, admission.fanoutKey, shard, window,
                            now);
          (Store(s.jobs[id := job],
                 s.conversations[key := conversation.(
                   status := Processing, jobId := Some(id), revision := revision,
                   finalizationStatus := Some(job.status))],
                 RecordDelta(s.shards, job,
                             map[AcceptedJobs := 1, BlockedJobs := if requiresByok then 1 else 0,
                                 QueuedJobs := if requiresByok then 0 else 1])),
           IntentOf(id, job, true))
  }

  /** Steps of the rest of the system on a conversation document. */
  datatype ConversationStep =
    | Inserted(hasContent: bool, deferred: bool)    // a new recording, under an id never used before
    | AdmittedWithoutJob                            // the synchronous route starts processing an unbound row
    | Moved(status: ConversationStatus)             // a processor completes, fails or merges the row
    | GainedContent
    | Discarded
    | Deferred
    | Deleted

  function Environment(s: Store, key: ConvKey, step: ConversationStep): (s': Store) {
    match step
    case Inserted(hasContent, deferred) =>
      if key in s.conversations || key.uid == "" || key.conversationId == ""
          || (exists id :: id in s.jobs && Bound(s.jobs[id]) == key)
      then s
      else s.(conversations :=
                s.conversations[key := Conversation(InProgress, false, deferred, hasContent, None, 0, None)])
    case Deleted => s.(conversations := s.conversations - {key})
    case _ =>
      if key !in s.conversations then s
      else
        var c := s.conversations[key];
        var c' :=
          match step
          case AdmittedWithoutJob => if c.jobId.None? then c.(status := Processing) else c
          case Moved(status) => if status.Processing? then c else c.(status := status)
          case GainedContent => c.(hasContent := true)
          case Discarded => c.(discarded := true)
          case Deferred => c.(deferred := true)
          case _ => c;
        s.(conversations := s.conversations[key := c'])
  }

  datatype Op =
    | Create(key: ConvKey, requiresByok: bool, admission: Admission, shard: nat, window: nat)
    | Transact(id: JobKey, op: JobOp)
    | Scan(found: set<JobKey>)
    | Env(key: ConvKey, step: ConversationStep)

  datatype Event = Event(elapsed: nat, op: Op)

  /** `scanned` remembers every job some sweep has read from the replay-candidate query. */
  datatype State = State(store: Store, clock: int, scanned: set<JobKey>)

  /** The server-side candidate query: the reconcile deadline passed and the row is queued or leased. */
  predicate ReplayCandidate(job: Job, now: int) {
    && job.reconcileAfterAt.Some?
    && job.reconcileAfterAt.value <= now
    && (job.status.Queued? || job.status.Leased?)
  }

  function Apply(s: Store, op: Op, now: int): (s': Store) {
    match op
    case Create(key, byok, admission, shard, window) =>
      CreateIntentTxn(s, key, byok, admission, shard % SHARD_COUNT, window, now).0
    case Transact(id, jobOp) => OnJob(s, id, jobOp, now)
    case Scan(_) => s
    case Env(key, step) => Environment(s, key, step)
  }

  /** What a sweep newly learns from the candidate query at `now`. */
  function Learned(s: Store, op: Op, now: int): (ids: set<JobKey>) {
    if op.Scan? then set id | id in op.found && id in s.jobs && ReplayCandidate(s.jobs[id], now) else {}
  }

  function Next(st: State, e: Event): (st': State) {
    var now := st.clock + e.elapsed;
    State(Apply(st.store, e.op, now), now, st.scanned + Learned(st.store, e.op, now))
  }

  /** `tr` is the run that the events `es` produce from its first state. */
  ghost predicate IsRun(tr: seq<State>, es: seq<Event>) {
    && |tr| == |es| + 1
    && forall i :: 0 <= i < |es| ==> Follows(tr, es, i)
  }

  predicate Follows(tr: seq<State>, es: seq<Event>, i: nat)
    requires i < |es| && i + 1 < |tr|
  {
    tr[i + 1] == Next(tr[i], es[i])
  }

  /** Before the first finalization: unbound conversations at real document paths, no jobs, no counters. */
  predicate Initial(st: State) {
    && st.store.jobs == map[]
    && st.store.shards == map[]
    && st.scanned == {}
    && forall key :: key in st.store.conversations ==>
         && key.uid != "" && key.conversationId != ""
         && st.store.conversations[key].jobId.None? && st.store.conversations[key].revision == 0
  }
}
