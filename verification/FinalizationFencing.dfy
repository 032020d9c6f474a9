/**
  Lease fencing and the fanout boundary over whole runs.

  `Evolves` says how a job document may differ from an earlier version of itself. Every transaction
  stays inside it and it composes, so it holds between any two moments of any run; the fencing and
  fanout theorems are read off it.
*/
module FinalizationFencing {
  import opened Prelude
  import opened FinalizationJobs
  import opened FinalizationStore

  predicate Evolves(a: Job, b: Job) {
    // identity never changes
    && (b.uid, b.conversationId, b.revision) == (a.uid, a.conversationId, a.revision)
    && b.requiresByok == a.requiresByok
    && b.projection == a.projection
    && FanoutKeyOf(b) == FanoutKeyOf(a)
    // fences only move forward
    && b.leaseEpoch >= a.leaseEpoch
    && GenerationOf(b) >= GenerationOf(a)
    && b.attemptCount >= a.attemptCount
    // a lease, or a completion, of a job that was not leased needs a new epoch
    && (!a.status.Leased? && (b.status.Leased? || b.status.Completed?) ==> b == a || b.leaseEpoch > a.leaseEpoch)
    // terminal documents are never written again
    && (Terminal(a.status) ==> b == a)
    // completed fanout survives unless the job is abandoned, and is never reported as fenced
    && (a.fanoutStatus.FanoutCompleted? ==> b.fanoutStatus.FanoutCompleted? || AbandonedByok(b))
    && (b.finalizationOutcome.FencedBeforeFanout? ==>
          a.finalizationOutcome.FencedBeforeFanout? || !a.fanoutStatus.FanoutCompleted?)
  }

  predicate AbandonedByok(job: Job) {
    job.status.DeadLetter? && job.finalizationOutcome.ByokSessionAbandoned?
  }

  lemma EffectEvolves(op: JobOp, id: JobKey, job: Job, conversation: Option<Conversation>, now: int)
    ensures var e := EffectOf(op, id, job, conversation, now); e.Write? ==> Evolves(job, e.job)
  {
  }

  lemma EvolvesReflexive(job: Job)
    ensures Evolves(job, job)
  {
  }

  lemma EvolvesTransitive(a: Job, b: Job, c: Job)
    requires Evolves(a, b) && Evolves(b, c)
    ensures Evolves(a, c)
  {
  }

  lemma CommitEvolves(s: Store, id: JobKey, effect: Effect, other: JobKey)
    requires id in s.jobs && other in s.jobs
    requires effect.Write? ==> Evolves(s.jobs[id], effect.job)
    ensures other in Commit(s, id, effect).jobs
    ensures Evolves(s.jobs[other], Commit(s, id, effect).jobs[other])
  {
  }

  lemma TransactEvolves(s: Store, id: JobKey, op: JobOp, now: int, other: JobKey)
    requires other in s.jobs
    ensures other in OnJob(s, id, op, now).jobs
    ensures Evolves(s.jobs[other], OnJob(s, id, op, now).jobs[other])
  {
    if id in s.jobs {
      var conversation := ConversationOf(s, s.jobs[id]);
      EffectEvolves(op, id, s.jobs[id], conversation, now);
      CommitEvolves(s, id, EffectOf(op, id, s.jobs[id], conversation, now), other);
    }
  }

  lemma CreateKeepsJobs(s: Store, key: ConvKey, byok: bool, admission: Admission, shard: nat, window: nat, now: int,
                        id: JobKey)
    requires id in s.jobs
    ensures id in CreateIntentTxn(s, key, byok, admission, shard, window, now).0.jobs
    ensures CreateIntentTxn(s, key, byok, admission, shard, window, now).0.jobs[id] == s.jobs[id]
  {
  }

  lemma EnvironmentKeepsJobs(s: Store, key: ConvKey, step: ConversationStep)
    ensures Environment(s, key, step).jobs == s.jobs
  {
  }

  lemma StepEvolves(s: Store, op: Op, now: int, id: JobKey)
    requires id in s.jobs
    ensures id in Apply(s, op, now).jobs
    ensures Evolves(s.jobs[id], Apply(s, op, now).jobs[id])
  {
    match op
    case Transact(target, jobOp) => TransactEvolves(s, target, jobOp, now, id);
    case Create(key, byok, admission, shard, window) =>
      CreateKeepsJobs(s, key, byok, admission, shard % SHARD_COUNT, window, now, id);
    case Scan(_) =>
    case Env(_, _) =>
  }

  lemma {:induction false} RunEvolves(tr: seq<State>, es: seq<Event>, i: nat, n: nat, id: JobKey)
    requires IsRun(tr, es) && i <= n <= |es|
    requires id in tr[i].store.jobs
    ensures id in tr[n].store.jobs
    ensures Evolves(tr[i].store.jobs[id], tr[n].store.jobs[id])
    decreases n
  {
    hide Apply, Evolves;
    EvolvesReflexive(tr[i].store.jobs[id]);
    if i < n {
      RunEvolves(tr, es, i, n - 1, id);
      assert Follows(tr, es, n - 1);
      StepEvolves(tr[n - 1].store, es[n - 1].op, tr[n].clock, id);
      EvolvesTransitive(tr[i].store.jobs[id], tr[n - 1].store.jobs[id], tr[n].store.jobs[id]);
    }
  }

  /** Completed and dead-lettered documents are absorbing: no later event of any run changes a field. */
  lemma TerminalJobsAreFrozen(tr: seq<State>, es: seq<Event>, i: nat, n: nat, id: JobKey)
    requires IsRun(tr, es) && i <= n <= |es|
    requires id in tr[i].store.jobs && Terminal(tr[i].store.jobs[id].status)
    ensures id in tr[n].store.jobs && tr[n].store.jobs[id] == tr[i].store.jobs[id]
  {
    RunEvolves(tr, es, i, n, id);
  }

  // ----- the lease fence -----

  /** The (generation, epoch) fence handed out when this event is a granted claim of `id`. */
  function Granted(st: State, e: Event, id: JobKey): (fence: Option<(nat, nat)>) {
    if e.op.Transact? && e.op.id == id && e.op.op.Claim? && id in st.store.jobs then
      var c := e.op.op;
      var r := ClaimTxn(st.store.jobs[id], c.generation, c.allowByok, c.leaseSeconds, st.clock + e.elapsed,
                        c.expectedUid, c.expectedConversation).1;
      if r.Claimed? then Some((c.generation, r.epoch)) else None
    else None
  }

  /** This event is a replay that really requeued `id` under a new generation. */
  predicate Requeued(st: State, e: Event, id: JobKey) {
    && e.op.Transact? && e.op.id == id && e.op.op.Replay? && id in st.store.jobs
    && ReplayTxn(id, st.store.jobs[id], e.op.op.window, st.clock + e.elapsed).0.Write?
  }

  lemma GrantIsRecorded(st: State, e: Event, id: JobKey)
    requires Granted(st, e, id).Some?
    ensures id in Next(st, e).store.jobs
    ensures st.store.jobs[id].leaseEpoch < Granted(st, e, id).value.1
    ensures GenerationOf(st.store.jobs[id]) == Granted(st, e, id).value.0
    ensures var fence := Granted(st, e, id).value; IsCurrentLease(Next(st, e).store.jobs[id], fence.0, fence.1)
  {
  }

  lemma RequeueIsRecorded(st: State, e: Event, id: JobKey)
    requires Requeued(st, e, id)
    ensures id in Next(st, e).store.jobs
    ensures Next(st, e).store.jobs[id].status.Queued?
    ensures Next(st, e).store.jobs[id].leaseEpoch == st.store.jobs[id].leaseEpoch
    ensures GenerationOf(Next(st, e).store.jobs[id]) == GenerationOf(st.store.jobs[id]) + 1
  {
  }

  /** Of two granted claims of a job, the later one carries a strictly larger epoch and no smaller generation. */
  lemma GrantedEpochsIncrease(tr: seq<State>, es: seq<Event>, i: nat, k: nat, id: JobKey)
    requires IsRun(tr, es) && i < k < |es|
    requires Granted(tr[i], es[i], id).Some? && Granted(tr[k], es[k], id).Some?
    ensures Granted(tr[i], es[i], id).value.1 < Granted(tr[k], es[k], id).value.1
    ensures Granted(tr[i], es[i], id).value.0 <= Granted(tr[k], es[k], id).value.0
  {
    assert Follows(tr, es, i);
    GrantIsRecorded(tr[i], es[i], id);
    RunEvolves(tr, es, i + 1, k, id);
    GrantIsRecorded(tr[k], es[k], id);
  }

  /** A fence that a later claim or replay has overtaken. */
  predicate Overtaken(job: Job, generation: nat, epoch: nat) {
    || job.leaseEpoch > epoch
    || (GenerationOf(job) > generation && job.leaseEpoch == epoch && !job.status.Leased? && !job.status.Completed?)
  }

  lemma OvertakenForever(a: Job, b: Job, generation: nat, epoch: nat)
    requires Evolves(a, b) && Overtaken(a, generation, epoch)
    ensures Overtaken(b, generation, epoch)
  {
  }

  /** After a second grant or a replay of the job, the fence granted earlier is overtaken. */
  lemma SecondOwnerOvertakes(tr: seq<State>, es: seq<Event>, i: nat, j: nat, id: JobKey)
    requires IsRun(tr, es) && i < j < |es|
    requires Granted(tr[i], es[i], id).Some?
    requires Granted(tr[j], es[j], id).Some? || Requeued(tr[j], es[j], id)
    ensures id in tr[j + 1].store.jobs
    ensures var fence := Granted(tr[i], es[i], id).value; Overtaken(tr[j + 1].store.jobs[id], fence.0, fence.1)
  {
    assert Follows(tr, es, i) && Follows(tr, es, j);
    GrantIsRecorded(tr[i], es[i], id);
    RunEvolves(tr, es, i + 1, j, id);
    if Requeued(tr[j], es[j], id) {
      RequeueIsRecorded(tr[j], es[j], id);
    } else {
      GrantIsRecorded(tr[j], es[j], id);
    }
  }

  lemma OvertakenWorkerWritesNothing(id: JobKey, job: Job, conversation: Option<Conversation>, op: JobOp, now: int,
                                     generation: nat, epoch: nat)
    requires Overtaken(job, generation, epoch) && WorkerOp(op, generation, epoch)
    ensures EffectOf(op, id, job, conversation, now).Keep?
    ensures !MarkCompletedTxn(job, generation, epoch, now).1 && !MarkFencedTxn(job, generation, epoch, now).1
  {
  }

  /**
    The fencing theorem. A worker is granted (generation, epoch) at event i; at a later event j another
    claim is granted or a replay requeues the job; at any event k after that, whatever happened in
    between, the first worker can no longer change any document through complete, fence, fanout,
    retry or dead-letter, and neither a completion nor a fence is reported to it as its own.
  */
  lemma SupersededWorkerIsInert(tr: seq<State>, es: seq<Event>, i: nat, j: nat, k: nat, id: JobKey, op: JobOp)
    requires IsRun(tr, es) && i < j < k < |es|
    requires Granted(tr[i], es[i], id).Some?
    requires Granted(tr[j], es[j], id).Some? || Requeued(tr[j], es[j], id)
    requires es[k].op == Transact(id, op)
    requires var fence := Granted(tr[i], es[i], id).value; WorkerOp(op, fence.0, fence.1)
    ensures tr[k + 1].store == tr[k].store
    ensures id in tr[k].store.jobs
    ensures var fence := Granted(tr[i], es[i], id).value;
            && !MarkCompletedTxn(tr[k].store.jobs[id], fence.0, fence.1, tr[k + 1].clock).1
            && !MarkFencedTxn(tr[k].store.jobs[id], fence.0, fence.1, tr[k + 1].clock).1
  {
    var fence := Granted(tr[i], es[i], id).value;
    SecondOwnerOvertakes(tr, es, i, j, id);
    RunEvolves(tr, es, j + 1, k, id);
    OvertakenForever(tr[j + 1].store.jobs[id], tr[k].store.jobs[id], fence.0, fence.1);
    assert Follows(tr, es, k);
    OvertakenWorkerWritesNothing(id, tr[k].store.jobs[id], ConversationOf(tr[k].store, tr[k].store.jobs[id]), op,
                                 tr[k + 1].clock, fence.0, fence.1);
  }

  // ----- the external-integration fanout -----

  /** The key handed out when this event is a granted fanout claim of `id`. */
  function FanoutGrant(st: State, e: Event, id: JobKey): (key: Option<FanoutKey>) {
    if e.op.Transact? && e.op.id == id && e.op.op.ClaimFanout? && id in st.store.jobs then
      var job := st.store.jobs[id];
      var r := ClaimFanoutTxn(id, job, ConversationOf(st.store, job), e.op.op.generation, e.op.op.epoch,
                              st.clock + e.elapsed).1;
      if r.FanoutGranted? then Some(r.key) else None
    else None
  }

  /** Once fanout is marked completed, no later fanout claim on the job is granted and no fence is ever recorded. */
  lemma NoFanoutAfterCompletion(tr: seq<State>, es: seq<Event>, i: nat, k: nat, id: JobKey)
    requires IsRun(tr, es) && i <= k < |es|
    requires id in tr[i].store.jobs
    requires tr[i].store.jobs[id].fanoutStatus.FanoutCompleted?
    requires !tr[i].store.jobs[id].finalizationOutcome.FencedBeforeFanout?
    ensures FanoutGrant(tr[k], es[k], id).None?
    ensures id in tr[k].store.jobs && !tr[k].store.jobs[id].finalizationOutcome.FencedBeforeFanout?
  {
    RunEvolves(tr, es, i, k, id);
  }

  /** Every fanout grant of a job, at any two moments of a run, carries the same idempotency key. */
  lemma FanoutKeyIsStable(tr: seq<State>, es: seq<Event>, i: nat, k: nat, id: JobKey)
    requires IsRun(tr, es) && i <= k < |es|
    requires FanoutGrant(tr[i], es[i], id).Some? && FanoutGrant(tr[k], es[k], id).Some?
    ensures FanoutGrant(tr[i], es[i], id) == FanoutGrant(tr[k], es[k], id)
  {
    RunEvolves(tr, es, i, k, id);
  }

  /** What the terminal fields of a job document say about its status and its fanout. */
  predicate OutcomeConsistent(job: Job) {
    && (job.terminalOutcome.Success? ==> job.status.Completed? && job.fanoutStatus.FanoutCompleted?)
    && (job.terminalOutcome.Stale? ==> job.status.Completed? && job.fanoutStatus.FanoutFenced?)
    && (job.terminalOutcome.Failure? ==> job.status.DeadLetter?)
    && (job.terminalOutcome.Stale? <==> job.finalizationOutcome.FencedBeforeFanout?)
    && (Terminal(job.status) && job.projection.Some? ==> !job.terminalOutcome.Undecided?)
    && (job.status.BlockedByok? ==> job.requiresByok)
  }

  predicate OutcomesConsistent(s: Store) {
    forall id :: id in s.jobs ==> OutcomeConsistent(s.jobs[id])
  }

  lemma EffectKeepsOutcome(op: JobOp, id: JobKey, job: Job, conversation: Option<Conversation>, now: int)
    requires OutcomeConsistent(job)
    ensures var e := EffectOf(op, id, job, conversation, now); e.Write? ==> OutcomeConsistent(e.job)
  {
  }

  lemma StepKeepsOutcomes(s: Store, op: Op, now: int)
    requires OutcomesConsistent(s)
    ensures OutcomesConsistent(Apply(s, op, now))
  {
    if op.Transact? && op.id in s.jobs {
      EffectKeepsOutcome(op.op, op.id, s.jobs[op.id], ConversationOf(s, s.jobs[op.id]), now);
    }
  }

  lemma {:induction false} OutcomesAlwaysConsistent(tr: seq<State>, es: seq<Event>, n: nat)
    requires IsRun(tr, es) && n <= |es|
    requires OutcomesConsistent(tr[0].store)
    ensures OutcomesConsistent(tr[n].store)
  {
    if n > 0 {
      hide Apply, OutcomesConsistent;
      OutcomesAlwaysConsistent(tr, es, n - 1);
      assert Follows(tr, es, n - 1);
      StepKeepsOutcomes(tr[n - 1].store, es[n - 1].op, tr[n].clock);
    }
  }

  /** A job that ends in success has its fanout completed; one that ends fenced never had it completed. */
  lemma TerminalOutcomeTellsFanout(tr: seq<State>, es: seq<Event>, i: nat, n: nat, id: JobKey)
    requires IsRun(tr, es) && Initial(tr[0]) && i <= n <= |es|
    requires id in tr[i].store.jobs
    ensures id in tr[n].store.jobs
    ensures tr[n].store.jobs[id].terminalOutcome.Success? ==> tr[n].store.jobs[id].fanoutStatus.FanoutCompleted?
    ensures tr[n].store.jobs[id].terminalOutcome.Stale? ==> !tr[i].store.jobs[id].fanoutStatus.FanoutCompleted?
  {
    OutcomesAlwaysConsistent(tr, es, i);
    OutcomesAlwaysConsistent(tr, es, n);
    RunEvolves(tr, es, i, n, id);
  }

  /**
    A true answer from mark-completed means the job is terminally completed, but it is this worker's
    success exactly when the job had not been fenced: the same epoch is acknowledged on a fenced job too.
  */
  lemma CompletedAnswerIsSuccessUnlessFenced(job: Job, generation: nat, epoch: nat, now: int)
    requires OutcomeConsistent(job) && job.projection.Some?
    requires MarkCompletedTxn(job, generation, epoch, now).1
    ensures var e := MarkCompletedTxn(job, generation, epoch, now).0;
            var after := if e.Write? then e.job else job;
            && after.status.Completed?
            && after.leaseEpoch == epoch
            && (after.terminalOutcome.Success? <==> !job.finalizationOutcome.FencedBeforeFanout?)
  {
  }

  /** How it comes to that: a lease holder fences its job before fanout, and is then told that it completed it. */
  lemma FencedJobIsAcknowledgedAsCompleted(job: Job, generation: nat, epoch: nat, now: int, later: int)
    requires IsCurrentLease(job, generation, epoch) && job.fanoutStatus.FanoutPending?
    ensures var (fenced, answer) := MarkFencedTxn(job, generation, epoch, now);
            && answer && fenced.Write?
            && MarkCompletedTxn(fenced.job, generation, epoch, later) == (Keep, true)
            && fenced.job.terminalOutcome.Stale?
  {
  }
}
