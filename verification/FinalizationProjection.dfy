/**
  Conservation of the sharded aggregate: in every reachable state each shard counter is exactly the
  number of jobs it stands for, so the totals a summary reads are the true counts and balance.
*/
module FinalizationProjection {
  import opened Prelude
  import opened FinalizationJobs
  import opened FinalizationStore
  import opened FinalizationFencing

  /** Which jobs a counter is meant to count. */
  predicate Counts(m: Metric, job: Job) {
    match m
    case AcceptedJobs => true
    case QueuedJobs => job.status.Queued?
    case LeasedJobs => job.status.Leased?
    case BlockedJobs => job.status.BlockedByok?
    case CompletedJobs => job.status.Completed?
    case DeadLetterJobs => job.status.DeadLetter?
    case SuccessJobs => job.terminalOutcome.Success?
    case FailureJobs => job.terminalOutcome.Failure?
    case StaleJobs => job.terminalOutcome.Stale?
  }

  predicate InShard(job: Job, k: nat) {
    job.projection == Some(k)
  }

  /** The jobs of shard `k` that counter `m` is meant to count. */
  function Counted(jobs: map<JobKey, Job>, k: nat, m: Metric): (ids: set<JobKey>) {
    set id | id in jobs && InShard(jobs[id], k) && Counts(m, jobs[id])
  }

  ghost predicate Conserved(s: Store) {
    && (forall id :: id in s.jobs && s.jobs[id].projection.Some? ==> s.jobs[id].projection.value < SHARD_COUNT)
    && (forall k: nat, m: Metric :: ReadShard(s.shards, k, m) == |Counted(s.jobs, k, m)|)
  }

  /** A transaction's recorded increments are the change in what each counter should count. */
  predicate DeltaMatches(before: Job, after: Job, delta: Counters) {
    && after.projection == before.projection
    && forall m: Metric :: Count(delta, m) == Bit(Counts(m, after)) - Bit(Counts(m, before))
  }

  lemma EffectDelta(op: JobOp, id: JobKey, job: Job, conversation: Option<Conversation>, now: int, m: Metric)
    requires OutcomeConsistent(job)
    ensures var e := EffectOf(op, id, job, conversation, now);
            e.Write? ==>
              && e.job.projection == job.projection
              && Count(e.delta, m) == Bit(Counts(m, e.job)) - Bit(Counts(m, job))
  {
  }

  lemma EffectDeltaMatches(op: JobOp, id: JobKey, job: Job, conversation: Option<Conversation>, now: int)
    requires OutcomeConsistent(job)
    ensures var e := EffectOf(op, id, job, conversation, now); e.Write? ==> DeltaMatches(job, e.job, e.delta)
  {
    hide EffectOf, Count, Counts, OutcomeConsistent;
    var e := EffectOf(op, id, job, conversation, now);
    EffectDelta(op, id, job, conversation, now, AcceptedJobs);
    forall m: Metric ensures e.Write? ==> Count(e.delta, m) == Bit(Counts(m, e.job)) - Bit(Counts(m, job)) {
      EffectDelta(op, id, job, conversation, now, m);
    }
  }

  lemma RecordedDelta(shards: map<nat, Counters>, job: Job, delta: Counters, k: nat, m: Metric)
    ensures ReadShard(RecordDelta(shards, job, delta), k, m)
         == ReadShard(shards, k, m) + (if InShard(job, k) then Count(delta, m) else 0)
  {
    var moved := NonZero(delta);
    assert Count(moved, m) == Count(delta, m);
    if moved == map[] {
      assert m !in moved;
    }
  }

  lemma CountedAfterWrite(jobs: map<JobKey, Job>, id: JobKey, job: Job, k: nat, m: Metric)
    ensures id in jobs && job.projection == jobs[id].projection ==>
      |Counted(jobs[id := job], k, m)|
      == |Counted(jobs, k, m)| + (if InShard(job, k) then Bit(Counts(m, job)) - Bit(Counts(m, jobs[id])) else 0)
    ensures id !in jobs ==>
      |Counted(jobs[id := job], k, m)| == |Counted(jobs, k, m)| + (if InShard(job, k) then Bit(Counts(m, job)) else 0)
  {
    var before, after := Counted(jobs, k, m), Counted(jobs[id := job], k, m);
    assert forall other :: other != id ==> (other in before <==> other in after);
    SizeAfterChange(before, after, id);
  }

  lemma CommitConserves(s: Store, id: JobKey, effect: Effect)
    requires Conserved(s) && id in s.jobs
    requires effect.Write? ==> DeltaMatches(s.jobs[id], effect.job, effect.delta)
    ensures Conserved(Commit(s, id, effect))
  {
    if effect.Write? {
      var s' := Commit(s, id, effect);
      forall k: nat, m: Metric ensures ReadShard(s'.shards, k, m) == |Counted(s'.jobs, k, m)| {
        RecordedDelta(s.shards, s.jobs[id], effect.delta, k, m);
        CountedAfterWrite(s.jobs, id, effect.job, k, m);
      }
    }
  }

  lemma InsertConserves(s: Store, s': Store, id: JobKey, job: Job, delta: Counters)
    requires Conserved(s) && id !in s.jobs
    requires job.projection.Some? && job.projection.value < SHARD_COUNT
    requires forall m: Metric :: Count(delta, m) == Bit(Counts(m, job))
    requires s'.jobs == s.jobs[id := job] && s'.shards == RecordDelta(s.shards, job, delta)
    ensures Conserved(s')
  {
    hide RecordDelta, Count, Counts;
    forall k: nat, m: Metric ensures ReadShard(s'.shards, k, m) == |Counted(s'.jobs, k, m)| {
      RecordedDelta(s.shards, job, delta, k, m);
      CountedAfterWrite(s.jobs, id, job, k, m);
    }
  }

  lemma CreateConserves(s: Store, key: ConvKey, byok: bool, admission: Admission, shard: nat, window: nat, now: int)
    requires Conserved(s) && shard < SHARD_COUNT
    ensures Conserved(CreateIntentTxn(s, key, byok, admission, shard, window, now).0)
  {
    hide RecordDelta;
    var (s', intent) := CreateIntentTxn(s, key, byok, admission, shard, window, now);
    if intent.Intent? && intent.created {
      var job := NewJob(key.uid, key.conversationId, intent.id.revision, byok, admission.fanoutKey, shard, window, now);
      InsertConserves(s, s', intent.id, job,
                      map[AcceptedJobs := 1, BlockedJobs := if byok then 1 else 0,
                          QueuedJobs := if byok then 0 else 1]);
    }
  }

  lemma StepConserves(s: Store, op: Op, now: int)
    requires Conserved(s) && OutcomesConsistent(s)
    ensures Conserved(Apply(s, op, now))
  {
    match op
    case Create(key, byok, admission, shard, window) =>
      CreateConserves(s, key, byok, admission, shard % SHARD_COUNT, window, now);
    case Transact(id, jobOp) =>
      if id in s.jobs {
        var conversation := ConversationOf(s, s.jobs[id]);
        EffectDeltaMatches(jobOp, id, s.jobs[id], conversation, now);
        CommitConserves(s, id, EffectOf(jobOp, id, s.jobs[id], conversation, now));
      }
    case Scan(_) =>
    case Env(_, _) =>
  }

  lemma {:induction false} RunConserves(tr: seq<State>, es: seq<Event>, n: nat)
    requires IsRun(tr, es) && n <= |es|
    requires Conserved(tr[0].store) && OutcomesConsistent(tr[0].store)
    ensures Conserved(tr[n].store)
  {
    hide Apply, Conserved, OutcomesConsistent, Learned;
    if n > 0 {
      RunConserves(tr, es, n - 1);
      OutcomesAlwaysConsistent(tr, es, n - 1);
      assert Follows(tr, es, n - 1);
      StepConserves(tr[n - 1].store, es[n - 1].op, tr[n].clock);
    }
  }

  /**
    The projection starts empty beside any backlog of older jobs, which belong to no shard: the counters
    are right at once, without a backfill.
  */
  lemma FreshProjectionIsConserved(s: Store)
    requires s.shards == map[]
    requires forall id :: id in s.jobs ==> s.jobs[id].projection.None?
    ensures Conserved(s)
  {
    forall k: nat, m: Metric ensures ReadShard(s.shards, k, m) == |Counted(s.jobs, k, m)| {
      assert Counted(s.jobs, k, m) == {};
    }
  }

  // ----- what the summary reads -----

  /** The sum of one counter over the first `n` shard documents. */
  function ShardTotal(shards: map<nat, Counters>, m: Metric, n: nat): (total: int) {
    if n == 0 then 0 else ShardTotal(shards, m, n - 1) + ReadShard(shards, n - 1, m)
  }

  function Total(s: Store, m: Metric): (total: int) {
    ShardTotal(s.shards, m, SHARD_COUNT)
  }

  /** The projected jobs, whatever their shard, that counter `m` is meant to count. */
  function Projected(jobs: map<JobKey, Job>, m: Metric, n: nat): (ids: set<JobKey>) {
    set id | id in jobs && jobs[id].projection.Some? && jobs[id].projection.value < n && Counts(m, jobs[id])
  }

  lemma OneMoreShard(jobs: map<JobKey, Job>, m: Metric, n: nat)
    requires n > 0
    ensures Projected(jobs, m, n) == Projected(jobs, m, n - 1) + Counted(jobs, n - 1, m)
    ensures Projected(jobs, m, n - 1) * Counted(jobs, n - 1, m) == {}
  {
    forall id
      ensures id in Projected(jobs, m, n) <==> id in Projected(jobs, m, n - 1) || id in Counted(jobs, n - 1, m)
    {
      if id in jobs && jobs[id].projection.Some? {
        assert InShard(jobs[id], n - 1) <==> jobs[id].projection.value == n - 1;
      }
    }
  }

  lemma {:induction false} ShardTotalCounts(s: Store, m: Metric, n: nat)
    requires Conserved(s)
    ensures ShardTotal(s.shards, m, n) == |Projected(s.jobs, m, n)|
  {
    if n == 0 {
      assert Projected(s.jobs, m, 0) == {};
    } else {
      ShardTotalCounts(s, m, n - 1);
      OneMoreShard(s.jobs, m, n);
      SizeOfDisjointUnion(Projected(s.jobs, m, n), Projected(s.jobs, m, n - 1), Counted(s.jobs, n - 1, m));
    }
  }

  /** The statuses of the jobs a counter stands for, as one set. */
  lemma StatusesCover(jobs: map<JobKey, Job>, n: nat)
    ensures Projected(jobs, AcceptedJobs, n)
         == (Projected(jobs, QueuedJobs, n) + Projected(jobs, LeasedJobs, n) + Projected(jobs, BlockedJobs, n))
          + (Projected(jobs, CompletedJobs, n) + Projected(jobs, DeadLetterJobs, n))
    ensures Projected(jobs, QueuedJobs, n) !! Projected(jobs, LeasedJobs, n) !! Projected(jobs, BlockedJobs, n)
            !! Projected(jobs, CompletedJobs, n) !! Projected(jobs, DeadLetterJobs, n)
  {
  }

  lemma OutcomesCover(jobs: map<JobKey, Job>, n: nat)
    requires forall id :: id in jobs ==> OutcomeConsistent(jobs[id])
    ensures Projected(jobs, SuccessJobs, n) + Projected(jobs, FailureJobs, n) + Projected(jobs, StaleJobs, n)
         == Projected(jobs, CompletedJobs, n) + Projected(jobs, DeadLetterJobs, n)
    ensures Projected(jobs, SuccessJobs, n) !! Projected(jobs, FailureJobs, n) !! Projected(jobs, StaleJobs, n)
  {
  }

  lemma CountersPartition(jobs: map<JobKey, Job>, n: nat)
    requires forall id :: id in jobs ==> OutcomeConsistent(jobs[id])
    ensures |Projected(jobs, AcceptedJobs, n)|
         == |Projected(jobs, QueuedJobs, n)| + |Projected(jobs, LeasedJobs, n)| + |Projected(jobs, BlockedJobs, n)|
          + |Projected(jobs, CompletedJobs, n)| + |Projected(jobs, DeadLetterJobs, n)|
    ensures |Projected(jobs, SuccessJobs, n)| + |Projected(jobs, FailureJobs, n)| + |Projected(jobs, StaleJobs, n)|
         == |Projected(jobs, CompletedJobs, n)| + |Projected(jobs, DeadLetterJobs, n)|
  {
    var q, l, b := Projected(jobs, QueuedJobs, n), Projected(jobs, LeasedJobs, n), Projected(jobs, BlockedJobs, n);
    var c, d := Projected(jobs, CompletedJobs, n), Projected(jobs, DeadLetterJobs, n);
    StatusesCover(jobs, n);
    SizeOfThreeParts(q + l + b, q, l, b);
    SizeOfDisjointUnion(c + d, c, d);
    SizeOfDisjointUnion(Projected(jobs, AcceptedJobs, n), q + l + b, c + d);
    OutcomesCover(jobs, n);
    SizeOfThreeParts(c + d, Projected(jobs, SuccessJobs, n), Projected(jobs, FailureJobs, n),
                     Projected(jobs, StaleJobs, n));
  }

  /**
    Conservation over whole runs. At every moment of any run each total equals the number of projected
    jobs it names, every accepted job is in exactly one status counter, and every terminal job in
    exactly one outcome counter.
  */
  lemma TotalsBalance(tr: seq<State>, es: seq<Event>, n: nat)
    requires IsRun(tr, es) && n <= |es|
    requires Conserved(tr[0].store) && OutcomesConsistent(tr[0].store)
    ensures forall m: Metric :: Total(tr[n].store, m) == |Projected(tr[n].store.jobs, m, SHARD_COUNT)|
    ensures var s := tr[n].store;
            && Total(s, AcceptedJobs) == Total(s, QueuedJobs) + Total(s, LeasedJobs) + Total(s, BlockedJobs)
                                       + Total(s, CompletedJobs) + Total(s, DeadLetterJobs)
            && Total(s, SuccessJobs) + Total(s, FailureJobs) + Total(s, StaleJobs)
               == Total(s, CompletedJobs) + Total(s, DeadLetterJobs)
  {
    RunConserves(tr, es, n);
    OutcomesAlwaysConsistent(tr, es, n);
    forall m: Metric ensures Total(tr[n].store, m) == |Projected(tr[n].store.jobs, m, SHARD_COUNT)| {
      ShardTotalCounts(tr[n].store, m, SHARD_COUNT);
    }
    CountersPartition(tr[n].store.jobs, SHARD_COUNT);
  }
}
