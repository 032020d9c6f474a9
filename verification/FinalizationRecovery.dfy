/**
  Nothing is stranded. A job that needs no user keys carries a reconcile deadline exactly while it is
  unfinished, and once that deadline passes the sweep finds it and a replay requeues it. A job that
  needs user keys never carries one, and has abandonment as its exit instead.
*/
module FinalizationRecovery {
  import opened Prelude
  import opened FinalizationJobs
  import opened FinalizationStore
  import opened FinalizationFencing

  /** Every transaction of the run that schedules a deadline uses the one configured stale window. */
  predicate UsesWindow(op: Op, window: nat) {
    match op
    case Create(_, _, _, _, w) => w == window
    case Transact(_, jobOp) =>
      (jobOp.MarkRetryable? ==> jobOp.window == window) && (jobOp.Replay? ==> jobOp.window == window)
    case _ => true
  }

  /** The deadline fields of a job, as of `clock`. */
  predicate Scheduled(job: Job, window: nat, clock: int) {
    && (job.dispatchRequestedAt.Some? ==> job.dispatchRequestedAt.value <= clock)
    && job.updatedAt.Some?
    && (job.status.Leased? ==> job.leaseExpiresAt.Some?)
    && (job.status.BlockedByok? ==> job.requiresByok)
    && (!job.requiresByok ==>
          && (job.reconcileAfterAt.Some? <==> !Terminal(job.status))
          && (job.status.Leased? ==> job.leaseExpiresAt == job.reconcileAfterAt)
          && (job.status.Queued? && job.dispatchRequestedAt.Some? ==>
                job.dispatchRequestedAt.value + window <= job.reconcileAfterAt.value))
  }

  ghost predicate AllScheduled(st: State, window: nat) {
    forall id :: id in st.store.jobs ==> Scheduled(st.store.jobs[id], window, st.clock)
  }

  lemma EffectKeepsSchedule(op: JobOp, id: JobKey, job: Job, conversation: Option<Conversation>, window: nat,
                            clock: int, now: int)
    requires Scheduled(job, window, clock) && clock <= now
    requires UsesWindow(Transact(id, op), window)
    ensures var e := EffectOf(op, id, job, conversation, now); e.Write? ==> Scheduled(e.job, window, now)
  {
  }

  lemma CommitKeepsSchedule(s: Store, id: JobKey, effect: Effect, window: nat, clock: int, now: int)
    requires id in s.jobs && clock <= now
    requires forall other :: other in s.jobs ==> Scheduled(s.jobs[other], window, clock)
    requires effect.Write? ==> Scheduled(effect.job, window, now)
    ensures var s' := Commit(s, id, effect); forall other :: other in s'.jobs ==> Scheduled(s'.jobs[other], window, now)
  {
  }

  lemma StepKeepsSchedule(st: State, e: Event, window: nat)
    requires AllScheduled(st, window) && UsesWindow(e.op, window)
    ensures AllScheduled(Next(st, e), window)
  {
    hide EffectOf, Commit, Environment, CreateIntentTxn, Scheduled;
    var now := st.clock + e.elapsed;
    match e.op
    case Create(key, byok, admission, shard, w) =>
      CreateKeepsSchedule(st, key, byok, admission, shard % SHARD_COUNT, window, now);
    case Transact(id, jobOp) =>
      if id in st.store.jobs {
        var job := st.store.jobs[id];
        var conversation := ConversationOf(st.store, job);
        EffectKeepsSchedule(jobOp, id, job, conversation, window, st.clock, now);
        CommitKeepsSchedule(st.store, id, EffectOf(jobOp, id, job, conversation, now), window, st.clock, now);
      } else {
        LaterIsFine(st, window, now);
      }
    case Env(key, step) =>
      EnvironmentKeepsJobs(st.store, key, step);
      LaterIsFine(st, window, now);
    case Scan(_) => LaterIsFine(st, window, now);
  }

  /** Time passing alone keeps the deadlines right. */
  lemma LaterIsFine(st: State, window: nat, now: int)
    requires AllScheduled(st, window) && st.clock <= now
    ensures forall id :: id in st.store.jobs ==> Scheduled(st.store.jobs[id], window, now)
  {
  }

  lemma CreateKeepsSchedule(st: State, key: ConvKey, byok: bool, admission: Admission, shard: nat, window: nat,
                            now: int)
    requires AllScheduled(st, window) && st.clock <= now
    ensures var s' := CreateIntentTxn(st.store, key, byok, admission, shard, window, now).0;
            forall id :: id in s'.jobs ==> Scheduled(s'.jobs[id], window, now)
  {
    hide RecordDelta;
    LaterIsFine(st, window, now);
  }

  lemma {:induction false} RunKeepsSchedule(tr: seq<State>, es: seq<Event>, window: nat, n: nat)
    requires IsRun(tr, es) && Initial(tr[0]) && n <= |es|
    requires forall i :: 0 <= i < |es| ==> UsesWindow(es[i].op, window)
    ensures AllScheduled(tr[n], window)
  {
    if n > 0 {
      hide Next, AllScheduled;
      RunKeepsSchedule(tr, es, window, n - 1);
      assert Follows(tr, es, n - 1);
      StepKeepsSchedule(tr[n - 1], es[n - 1], window);
    }
  }

  /**
    After any run, a job without user keys has a deadline exactly while it is unfinished. If the job does
    not change, the candidate query returns it exactly from that deadline on, and whenever it does a replay
    requeues it under the next generation with a fresh deadline.
  */
  lemma NothingIsStranded(tr: seq<State>, es: seq<Event>, window: nat, n: nat, id: JobKey, at: int)
    requires IsRun(tr, es) && Initial(tr[0]) && n <= |es|
    requires forall i :: 0 <= i < |es| ==> UsesWindow(es[i].op, window)
    requires id in tr[n].store.jobs && !tr[n].store.jobs[id].requiresByok
    ensures tr[n].store.jobs[id].reconcileAfterAt.Some? <==> !Terminal(tr[n].store.jobs[id].status)
    ensures ReplayCandidate(tr[n].store.jobs[id], at) <==>
              !Terminal(tr[n].store.jobs[id].status) && at >= tr[n].store.jobs[id].reconcileAfterAt.value
    ensures !Terminal(tr[n].store.jobs[id].status) && at >= tr[n].store.jobs[id].reconcileAfterAt.value ==>
              var job := tr[n].store.jobs[id];
              var e := ReplayTxn(id, job, window, at).0;
              && ReplayCandidate(job, at)
              && e.Write?
              && e.job.status.Queued?
              && GenerationOf(e.job) == GenerationOf(job) + 1
              && e.job.reconcileAfterAt == Some(at + window)
  {
    RunKeepsSchedule(tr, es, window, n);
  }

  // ----- jobs that need the user's own keys -----

  /** A replay is fed by the sweep: some earlier query of this run returned the job. */
  predicate FedFromScan(st: State, op: Op) {
    op.Transact? && op.op.Replay? ==> op.id in st.scanned
  }

  ghost predicate ByokUnscheduled(st: State) {
    && (forall id :: id in st.store.jobs && st.store.jobs[id].requiresByok ==> st.store.jobs[id].reconcileAfterAt.None?)
    && (forall id :: id in st.scanned ==> id in st.store.jobs && !st.store.jobs[id].requiresByok)
  }

  lemma EffectKeepsByokUnscheduled(op: JobOp, id: JobKey, job: Job, conversation: Option<Conversation>, now: int)
    requires job.requiresByok && job.reconcileAfterAt.None? && !op.Replay?
    ensures var e := EffectOf(op, id, job, conversation, now); e.Write? ==> e.job.reconcileAfterAt.None?
  {
  }

  lemma StepKeepsByokUnscheduled(st: State, e: Event)
    requires ByokUnscheduled(st) && FedFromScan(st, e.op)
    ensures ByokUnscheduled(Next(st, e))
  {
    hide EffectOf, Evolves;
    var st' := Next(st, e);
    forall id | id in st'.scanned ensures id in st'.store.jobs && !st'.store.jobs[id].requiresByok {
      StepEvolves(st.store, e.op, st'.clock, id);
    }
    forall id | id in st'.store.jobs && st'.store.jobs[id].requiresByok
      ensures st'.store.jobs[id].reconcileAfterAt.None?
    {
      if id in st.store.jobs {
        StepEvolves(st.store, e.op, st'.clock, id);
        if e.op.Transact? && e.op.id == id && !e.op.op.Replay? {
          EffectKeepsByokUnscheduled(e.op.op, id, st.store.jobs[id], ConversationOf(st.store, st.store.jobs[id]),
                                     st'.clock);
        }
      }
    }
  }

  /** A BYOK job never carries a deadline in any run whose replays come from the candidate query. */
  lemma {:induction false} ByokNeverScheduled(tr: seq<State>, es: seq<Event>, n: nat)
    requires IsRun(tr, es) && Initial(tr[0]) && n <= |es|
    requires forall i :: 0 <= i < |es| ==> FedFromScan(tr[i], es[i].op)
    ensures ByokUnscheduled(tr[n])
  {
    if n > 0 {
      hide Next, ByokUnscheduled;
      ByokNeverScheduled(tr, es, n - 1);
      assert Follows(tr, es, n - 1) && FedFromScan(tr[n - 1], es[n - 1].op);
      StepKeepsByokUnscheduled(tr[n - 1], es[n - 1]);
    }
  }

  /** A replay called directly on an unfinished BYOK job schedules it when it is due. */
  lemma DirectReplaySchedulesByok(id: JobKey, job: Job, window: nat, now: int)
    requires job.requiresByok && job.reconcileAfterAt.None?
    ensures var e := ReplayTxn(id, job, window, now).0;
            (e.Write? && e.job.reconcileAfterAt.Some?) <==> Replayable(job, window, now)
  {
  }

  /** The event replays a BYOK job that is due, without having found it through the candidate query. */
  predicate ReplaysDueByok(st: State, e: Event) {
    && e.op.Transact? && e.op.op.Replay? && e.op.id in st.store.jobs
    && st.store.jobs[e.op.id].requiresByok
    && Replayable(st.store.jobs[e.op.id], e.op.op.window, st.clock + e.elapsed)
  }

  /**
    Feeding replays from the sweep is sufficient; this is what is necessary. Of all steps of the system,
    exactly the replay of a due BYOK job gives such a job a deadline.
  */
  lemma StepKeepsByokUnscheduledIff(st: State, e: Event)
    requires ByokUnscheduled(st)
    ensures ByokUnscheduled(Next(st, e)) <==> !ReplaysDueByok(st, e)
  {
    hide EffectOf, Evolves, ReplayTxn, ByokUnscheduled;
    var st' := Next(st, e);
    if ReplaysDueByok(st, e) {
      ReplayOfDueByok(st, e);
    } else if e.op.Transact? && e.op.op.Replay? && e.op.id in st.scanned {
      StepKeepsByokUnscheduled(st, e);
    } else if e.op.Transact? && e.op.op.Replay? {
      ReplayOfOther(st, e);
    } else {
      StepKeepsByokUnscheduled(st, e);
    }
  }

  lemma ReplayOfDueByok(st: State, e: Event)
    requires ByokUnscheduled(st) && ReplaysDueByok(st, e)
    ensures !ByokUnscheduled(Next(st, e))
  {
    var id := e.op.id;
    DirectReplaySchedulesByok(id, st.store.jobs[id], e.op.op.window, st.clock + e.elapsed);
    assert id in Next(st, e).store.jobs && Next(st, e).store.jobs[id].reconcileAfterAt.Some?;
  }

  lemma ReplayOfOther(st: State, e: Event)
    requires ByokUnscheduled(st) && e.op.Transact? && e.op.op.Replay? && !ReplaysDueByok(st, e)
    ensures ByokUnscheduled(Next(st, e))
  {
    hide Evolves;
    var st' := Next(st, e);
    forall id | id in st'.scanned ensures id in st'.store.jobs && !st'.store.jobs[id].requiresByok {
      hide Apply;
      StepEvolvesKeepsByok(st, e, id);
    }
    forall id | id in st'.store.jobs && st'.store.jobs[id].requiresByok
      ensures st'.store.jobs[id].reconcileAfterAt.None?
    {
      if id == e.op.id && id in st.store.jobs && st.store.jobs[id].requiresByok {
        DirectReplaySchedulesByok(id, st.store.jobs[id], e.op.op.window, st.clock + e.elapsed);
      }
    }
  }

  lemma StepEvolvesKeepsByok(st: State, e: Event, id: JobKey)
    requires id in st.store.jobs
    ensures id in Next(st, e).store.jobs && Next(st, e).store.jobs[id].requiresByok == st.store.jobs[id].requiresByok
  {
    hide Apply;
    StepEvolves(st.store, e.op, st.clock + e.elapsed, id);
  }

  /**
    The exit of a BYOK job: after any run, if it is queued or leased and stays unchanged, abandonment
    with the values a sweep reads from the row terminalizes it at every time past its lease and its
    abandonment age, and at no earlier time.
  */
  lemma ByokJobsCanBeAbandoned(tr: seq<State>, es: seq<Event>, window: nat, n: nat, id: JobKey, after: nat, at: int)
    requires IsRun(tr, es) && Initial(tr[0]) && n <= |es|
    requires forall i :: 0 <= i < |es| ==> UsesWindow(es[i].op, window)
    requires id in tr[n].store.jobs && tr[n].store.jobs[id].requiresByok
    requires tr[n].store.jobs[id].status.Queued? || tr[n].store.jobs[id].status.Leased?
    ensures var job := tr[n].store.jobs[id];
            var r := AbandonTxn(id, job, ConversationOf(tr[n].store, job), job.status, GenerationOf(job),
                                job.leaseEpoch, at - after, at);
            && job.updatedAt.Some? && (job.status.Leased? ==> job.leaseExpiresAt.Some?)
            && (r.1.Abandoned? <==>
                  job.updatedAt.value + after <= at && (job.status.Leased? ==> job.leaseExpiresAt.value <= at))
            && (r.1.Abandoned? ==> r.0.Write? && r.0.job.status.DeadLetter?)
  {
    RunKeepsSchedule(tr, es, window, n);
  }
}
