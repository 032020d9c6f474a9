/**
  A conversation and its job. One conversation gets at most one job, and no conversation is left on
  processing behind a dead-lettered job.
*/
module FinalizationBinding {
  import opened Prelude
  import opened FinalizationJobs
  import opened FinalizationStore
  import opened FinalizationFencing

  /** The row still shows the user a spinner that somebody must end. */
  predicate Spinning(c: Conversation) {
    c.status.Processing? && !c.discarded && !c.deferred
  }

  /** A job is named by its document, and is the first revision of its conversation. */
  predicate JobNamed(id: JobKey, job: Job) {
    && job.uid == id.uid && job.conversationId == id.conversationId && job.revision == id.revision == 1
    && job.uid != "" && job.conversationId != ""
  }

  /** A conversation that exists for a job is bound to it, and is not left spinning once it is dead-lettered. */
  predicate Attached(id: JobKey, job: Job, c: Conversation) {
    && c.jobId == Some(id)
    && c.revision == id.revision
    && (job.status.DeadLetter? ==> !Spinning(c))
  }

  ghost predicate Bindings(s: Store) {
    && (forall id :: id in s.jobs ==> JobNamed(id, s.jobs[id]))
    && (forall id :: id in s.jobs && Bound(s.jobs[id]) in s.conversations ==>
          Attached(id, s.jobs[id], s.conversations[Bound(s.jobs[id])]))
    && (forall key :: key in s.conversations ==> ConversationSound(s, key, s.conversations[key]))
  }

  predicate ConversationSound(s: Store, key: ConvKey, c: Conversation) {
    && key.uid != "" && key.conversationId != ""
    && (c.jobId.None? ==> c.revision == 0)
    && (c.jobId.Some? ==> c.jobId.value in s.jobs && c.jobId.value == JobKey(key.uid, key.conversationId, 1))
  }

  /** What a transaction does to the binding: a dead letter closes a spinning row, and no row is rebound. */
  lemma EffectKeepsBinding(op: JobOp, id: JobKey, job: Job, conversation: Option<Conversation>, now: int)
    requires JobNamed(id, job) && (conversation.Some? ==> Attached(id, job, conversation.value))
    ensures var e := EffectOf(op, id, job, conversation, now);
            e.Write? ==>
              && JobNamed(id, e.job) && Bound(e.job) == Bound(job)
              && (e.close.Some? ==> conversation.Some? && Attached(id, e.job, e.close.value))
              && (e.close.None? && conversation.Some? ==> Attached(id, e.job, conversation.value))
  {
  }

  lemma CommitKeepsBindings(s: Store, id: JobKey, effect: Effect)
    requires Bindings(s) && id in s.jobs
    requires effect.Write? ==>
      && JobNamed(id, effect.job) && Bound(effect.job) == Bound(s.jobs[id])
      && (effect.close.Some? ==> Bound(s.jobs[id]) in s.conversations && Attached(id, effect.job, effect.close.value))
      && (effect.close.None? && Bound(s.jobs[id]) in s.conversations ==>
            Attached(id, effect.job, s.conversations[Bound(s.jobs[id])]))
    ensures Bindings(Commit(s, id, effect))
  {
  }

  lemma NewBindingKeepsBindings(s: Store, s': Store, key: ConvKey, job: Job, c: Conversation)
    requires Bindings(s) && key in s.conversations
    requires var id := JobKey(key.uid, key.conversationId, 1);
             && id !in s.jobs && s'.jobs == s.jobs[id := job] && s'.conversations == s.conversations[key := c]
             && JobNamed(id, job) && Attached(id, job, c)
    ensures Bindings(s')
  {
  }

  /**
    A create never rebinds: either the store keeps its bindings as they are, or this conversation gets its
    first job.
  */
  lemma CreateKeepsBindings(s: Store, key: ConvKey, byok: bool, admission: Admission, shard: nat, window: nat, now: int)
    requires Bindings(s)
    ensures Bindings(CreateIntentTxn(s, key, byok, admission, shard, window, now).0)
    ensures var (s', intent) := CreateIntentTxn(s, key, byok, admission, shard, window, now);
            intent.Intent? && intent.created ==>
              var id := JobKey(key.uid, key.conversationId, 1);
              intent.id == id && id in s'.jobs && id !in s.jobs
  {
    hide RecordDelta;
    var (s', intent) := CreateIntentTxn(s, key, byok, admission, shard, window, now);
    if key in s.conversations {
      var c := s.conversations[key];
      assert ConversationSound(s, key, c);
      if intent.Intent? && intent.created {
        var job := NewJob(key.uid, key.conversationId, 1, byok, admission.fanoutKey, shard, window, now);
        NewBindingKeepsBindings(s, s', key, job, s'.conversations[key]);
      } else {
        assert s' == s;
      }
    }
  }

  lemma EnvironmentKeepsBindings(s: Store, key: ConvKey, step: ConversationStep)
    requires Bindings(s)
    ensures Bindings(Environment(s, key, step))
  {
  }

  lemma StepKeepsBindings(s: Store, op: Op, now: int)
    requires Bindings(s)
    ensures Bindings(Apply(s, op, now))
  {
    match op
    case Create(key, byok, admission, shard, window) =>
      CreateKeepsBindings(s, key, byok, admission, shard % SHARD_COUNT, window, now);
    case Transact(id, jobOp) =>
      if id in s.jobs {
        var conversation := ConversationOf(s, s.jobs[id]);
        EffectKeepsBinding(jobOp, id, s.jobs[id], conversation, now);
        CommitKeepsBindings(s, id, EffectOf(jobOp, id, s.jobs[id], conversation, now));
      }
    case Scan(_) =>
    case Env(key, step) => EnvironmentKeepsBindings(s, key, step);
  }

  lemma UnboundRowsAreSound(s: Store)
    requires s.jobs == map[]
    requires forall key :: key in s.conversations ==>
                 s.conversations[key].jobId.None? && ConversationSound(s, key, s.conversations[key])
    ensures Bindings(s)
  {
  }

  lemma {:induction false} RunKeepsBindings(tr: seq<State>, es: seq<Event>, n: nat)
    requires IsRun(tr, es) && Initial(tr[0]) && n <= |es|
    ensures Bindings(tr[n].store)
  {
    hide Apply, Bindings;
    if n == 0 {
      UnboundRowsAreSound(tr[0].store);
    } else {
      RunKeepsBindings(tr, es, n - 1);
      assert Follows(tr, es, n - 1);
      StepKeepsBindings(tr[n - 1].store, es[n - 1].op, tr[n].clock);
    }
  }

  /** The job this event newly created for `key`, if any. */
  function CreatedJob(st: State, e: Event, key: ConvKey): (id: Option<JobKey>) {
    if e.op.Create? && e.op.key == key then
      var intent := CreateIntentTxn(st.store, key, e.op.requiresByok, e.op.admission, e.op.shard % SHARD_COUNT,
                                    e.op.window, st.clock + e.elapsed).1;
      if intent.Intent? && intent.created then Some(intent.id) else None
    else None
  }

  /** At most one create call of a whole run creates a job for a given conversation. */
  lemma OneJobPerConversation(tr: seq<State>, es: seq<Event>, i: nat, k: nat, key: ConvKey)
    requires IsRun(tr, es) && Initial(tr[0]) && i < |es| && k < |es|
    requires CreatedJob(tr[i], es[i], key).Some? && CreatedJob(tr[k], es[k], key).Some?
    ensures i == k
  {
    if i < k {
      NoSecondJob(tr, es, i, k, key);
    } else if k < i {
      NoSecondJob(tr, es, k, i, key);
    }
  }

  lemma NoSecondJob(tr: seq<State>, es: seq<Event>, i: nat, k: nat, key: ConvKey)
    requires IsRun(tr, es) && Initial(tr[0]) && i < k < |es|
    requires CreatedJob(tr[i], es[i], key).Some?
    ensures CreatedJob(tr[k], es[k], key).None?
  {
    hide CreateIntentTxn, Bindings, Evolves;
    RunKeepsBindings(tr, es, i);
    RunKeepsBindings(tr, es, k);
    assert Follows(tr, es, i);
    var first, second := es[i].op, es[k].op;
    CreateKeepsBindings(tr[i].store, key, first.requiresByok, first.admission, first.shard % SHARD_COUNT, first.window,
                        tr[i + 1].clock);
    RunEvolves(tr, es, i + 1, k, JobKey(key.uid, key.conversationId, 1));
    if second.Create? && second.key == key {
      CreateKeepsBindings(tr[k].store, key, second.requiresByok, second.admission, second.shard % SHARD_COUNT,
                          second.window, tr[k].clock + es[k].elapsed);
    }
  }

  /**
    No conversation bound by id and revision to a dead-lettered job is left on processing, after any run
    of creates, worker steps, sweeps, abandonments and processor writes (rows of the deferred lane keep
    their own owner).
  */
  lemma NoSpinnerBehindDeadLetter(tr: seq<State>, es: seq<Event>, n: nat, key: ConvKey)
    requires IsRun(tr, es) && Initial(tr[0]) && n <= |es|
    requires key in tr[n].store.conversations
    requires tr[n].store.conversations[key].jobId.Some?
    ensures var c := tr[n].store.conversations[key];
            && c.jobId.value in tr[n].store.jobs
            && c.revision == tr[n].store.jobs[c.jobId.value].revision
            && (tr[n].store.jobs[c.jobId.value].status.DeadLetter? ==> c.status.Processing? ==>
                    c.discarded || c.deferred)
  {
    RunKeepsBindings(tr, es, n);
  }
}
