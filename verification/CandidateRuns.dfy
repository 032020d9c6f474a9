/**
  What every run of the Candidate store keeps: a started promotion wins, a resolution happens once,
  a semantic identity has one live suggestion, an alias never moves, and a delivery is leased to one
  owner at a time and never again after it succeeded.
*/
module CandidateRuns {
  import opened Prelude
  import opened CandidateAnnotations
  import opened IntegrationOutbox
  import opened CandidateRecords

  // ----- how one Candidate may change -----

  /** The task reserved by a promotion whose legacy mutation has started. */
  function Reserved(s: Store, id: CandidateKey): (task: Option<TaskKey>) {
    if id in s.claims && s.claims[id].active && s.claims[id].phase.MutationStarted? then s.claims[id].task else None
  }

  /** Annotations only grow: no confidence falls and no stored evidence is lost. */
  ghost predicate Strengthens(p: Proposal, q: Proposal) {
    && q.capture >= p.capture && q.ownership >= p.ownership
    && NotBelow(p.dueConfidence, q.dueConfidence) && NotBelow(p.priority, q.priority)
    && EvidenceKept(p.evidence, q.evidence)
  }

  lemma MergeStrengthens(c: Candidate, p: Proposal)
    ensures Strengthens(c.proposal, Merged(c, p).proposal)
    ensures SemanticIdentity(Merged(c, p).proposal) == SemanticIdentity(c.proposal)
  {
    hide MergedEvidence, EvidenceKept;
    MergeKeepsExisting(c.proposal.evidence, p.evidence);
  }

  ghost predicate Advances(s: Store, s': Store, id: CandidateKey)
    requires id in s.candidates
  {
    && id in s'.candidates
    && var a, b := s.candidates[id], s'.candidates[id];
       && b.key == a.key
       && SemanticIdentity(b.proposal) == SemanticIdentity(a.proposal)
       && (b.proposal == a.proposal || Strengthens(a.proposal, b.proposal))
       && b.createdAt == a.createdAt
       // a pending suggestion keeps its deadline, a resolved one its resolution
       && (b.status.Pending? ==> a.status.Pending? && b.expiresAt == a.expiresAt)
       && (!a.status.Pending? ==> (b.status, b.resultTask, b.resolvedAt) == (a.status, a.resultTask, a.resolvedAt))
       // a started promotion stays reserved until it is accepted with exactly its task
       && (a.status.Pending? && Reserved(s, id).Some? ==>
             || (b.status.Pending? && Reserved(s', id) == Reserved(s, id))
             || (b.status.Accepted? && b.resultTask == Reserved(s, id)))
  }

  /** A create that is refused or already known moves no document; it may write the alias of its own document. */
  predicate Recognized(s: Store, s': Store, id: CandidateKey, p: Proposal) {
    && s'.candidates == s.candidates && s'.pending == s.pending && s'.claims == s.claims
    && (|| s'.aliases == s.aliases
        || (id !in s.aliases && id in s.candidates && s'.aliases == s.aliases[id := Alias(id, p, id.generation)]))
  }

  /** A create whose identity is held merges its annotations into the holder. */
  predicate Coalesced(s: Store, s': Store, id: CandidateKey, p: Proposal) {
    var k := SemanticKey(id.generation, p.identity);
    && SemanticIdentity(p).Some? && k in s.pending && s.pending[k] in s.candidates && id !in s.aliases
    && s'.claims == s.claims
    && var holder := s.candidates[s.pending[k]];
       && holder.key.generation == id.generation
       && s'.candidates == s.candidates[s.pending[k] := Merged(holder, p)]
       && s'.aliases == s.aliases[id := Alias(holder.key, p, id.generation)]
       && s'.pending == s.pending[k := holder.key]
  }

  /** A create adds a new suggestion, because no live one holds its identity. */
  predicate Added(s: Store, s': Store, id: CandidateKey, p: Proposal, now: int) {
    var k := SemanticKey(id.generation, p.identity);
    && id !in s.candidates && id !in s.aliases
    && s'.claims == s.claims
    && s'.candidates == s.candidates[id := NewCandidate(id, p, now)]
    && s'.aliases == s.aliases[id := Alias(id, p, id.generation)]
    && s'.pending == (if SemanticIdentity(p).Some? then s.pending[k := id] else s.pending)
    && (SemanticIdentity(p).Some? && k in s.pending && s.pending[k] in s.candidates
        && s.candidates[s.pending[k]].key.generation == id.generation ==>
          !ReusablePending(s.candidates[s.pending[k]], now))
  }

  lemma CreateCases(s: Store, generation: nat, key: string, p: Proposal, now: int)
    ensures var s' := CreateTxn(s, generation, key, p, now).0;
            var id := CandidateKey(generation, key);
            Recognized(s, s', id, p) || Coalesced(s, s', id, p) || Added(s, s', id, p, now)
  {
    hide Merged, AnnotatedTask, ReusableAccept, ReusablePending, Blank, NewCandidate;
    var s' := CreateTxn(s, generation, key, p, now).0;
    var id := CandidateKey(generation, key);
    if Blank(key) || s.generation != generation || id in s.aliases || id in s.candidates {
      assert Recognized(s, s', id, p);
    } else {
      var holder := Holder(s, generation, p);
      if holder.Some? && (ReusablePending(holder.value, now) || ReusableAccept(s, holder.value, generation)) {
        MergeKeepsKey(holder.value, p);
        assert Coalesced(s, s', id, p);
      } else {
        assert Added(s, s', id, p, now);
      }
    }
  }

  lemma CreateAdvances(s: Store, generation: nat, key: string, p: Proposal, now: int, id: CandidateKey)
    requires id in s.candidates
    ensures Advances(s, CreateTxn(s, generation, key, p, now).0, id)
  {
    hide CreateTxn, MergedEvidence, ReusablePending, NewCandidate, Strengthens;
    var s' := CreateTxn(s, generation, key, p, now).0;
    CreateCases(s, generation, key, p, now);
    MergeStrengthens(s.candidates[id], p);
    assert s'.candidates[id] == s.candidates[id] || s'.candidates[id] == Merged(s.candidates[id], p);
  }

  lemma ResolveAdvances(s: Store, generation: nat, id: CandidateKey, linksValid: bool, changed: Task, now: int,
                        other: CandidateKey)
    requires other in s.candidates
    ensures Advances(s, ResolveTxn(s, generation, id, linksValid, changed, now).0, other)
  {
    var s' := ResolveTxn(s, generation, id, linksValid, changed, now).0;
    assert s'.claims == s.claims;
    if other != id {
      assert s'.candidates[other] == s.candidates[other];
    } else if s' != s {
      assert s'.candidates[id] == Resolved(s.candidates[id], Accepted, s'.candidates[id].resultTask, now);
    }
  }

  lemma ReconcileAdvances(s: Store, generation: nat, id: CandidateKey, status: Status, task: Option<TaskKey>,
                          token: Option<Token>, at: int, other: CandidateKey)
    requires other in s.candidates
    ensures Advances(s, ReconcileTxn(s, generation, id, status, task, token, at).0, other)
  {
    var s' := ReconcileTxn(s, generation, id, status, task, token, at).0;
    if other != id {
      assert s'.candidates[other] == s.candidates[other];
      assert Reserved(s', other) == Reserved(s, other);
    } else if s' != s {
      assert s'.candidates[id] == Resolved(s.candidates[id], status, task, at);
    }
  }

  lemma CloseAdvances(s: Store, generation: nat, id: CandidateKey, status: Status, now: int, other: CandidateKey)
    requires other in s.candidates
    ensures Advances(s, CloseTxn(s, generation, id, status, now).0, other)
  {
    var s' := CloseTxn(s, generation, id, status, now).0;
    assert s'.claims == s.claims;
    if other != id {
      assert s'.candidates[other] == s.candidates[other];
    } else if s' != s {
      assert s'.candidates[id] == Resolved(s.candidates[id], status, None, now);
    }
  }

  lemma ClaimPromotionAdvances(s: Store, generation: nat, id: CandidateKey, minted: Token, lease: nat, resume: bool,
                               now: int, other: CandidateKey)
    requires other in s.candidates
    ensures Advances(s, ClaimPromotionTxn(s, generation, id, minted, lease, resume, now).0, other)
  {
    var s' := ClaimPromotionTxn(s, generation, id, minted, lease, resume, now).0;
    assert s'.candidates == s.candidates;
    assert Reserved(s, other).Some? ==> Reserved(s', other) == Reserved(s, other);
  }

  lemma BeginPromotionAdvances(s: Store, generation: nat, id: CandidateKey, token: Token, task: TaskKey,
                               preferred: Option<TaskKey>, committed: bool, lease: nat, now: int, other: CandidateKey)
    requires other in s.candidates
    ensures Advances(s, BeginPromotionTxn(s, generation, id, token, task, preferred, committed, lease, now).0, other)
  {
    hide Reserve;
    var s' := BeginPromotionTxn(s, generation, id, token, task, preferred, committed, lease, now).0;
    assert s'.candidates == s.candidates;
    assert Reserved(s, other).Some? ==> Reserved(s', other) == Reserved(s, other);
  }

  lemma StepAdvances(s: Store, op: Op, now: int, id: CandidateKey)
    requires id in s.candidates
    ensures Advances(s, Apply(s, op, now), id)
  {
    hide CreateTxn, ResolveTxn, CloseTxn, ReconcileTxn, ClaimPromotionTxn, BeginPromotionTxn, RowAfter;
    match op
    case Create(g, key, p) => CreateAdvances(s, g, key, p, now, id);
    case Resolve(g, target, valid, changed) => ResolveAdvances(s, g, target, valid, changed, now, id);
    case Close(g, target, status) => CloseAdvances(s, g, target, status, now, id);
    case Reconcile(g, target, status, task, token, at) => ReconcileAdvances(s, g, target, status, task, token, at, id);
    case ClaimPromotion(g, target, minted, lease, resume) =>
      ClaimPromotionAdvances(s, g, target, minted, lease, resume, now, id);
    case BeginPromotion(g, target, token, task, preferred, committed, lease) =>
      BeginPromotionAdvances(s, g, target, token, task, preferred, committed, lease, now, id);
    case _ =>
  }

  lemma AdvancesTransitive(s0: Store, s1: Store, s2: Store, id: CandidateKey)
    requires id in s0.candidates && Advances(s0, s1, id) && Advances(s1, s2, id)
    ensures Advances(s0, s2, id)
  {
    var a, b, c := s0.candidates[id].proposal, s1.candidates[id].proposal, s2.candidates[id].proposal;
    if b != a && c != b {
      StrengthensTransitive(a, b, c);
    }
    hide Strengthens;
  }

  lemma StrengthensTransitive(a: Proposal, b: Proposal, c: Proposal)
    requires Strengthens(a, b) && Strengthens(b, c)
    ensures Strengthens(a, c)
  {
    EvidenceKeptTransitive(a.evidence, b.evidence, c.evidence);
  }

  lemma {:induction false} RunAdvances(tr: seq<State>, es: seq<Event>, i: nat, n: nat, id: CandidateKey)
    requires IsRun(tr, es) && i <= n <= |es|
    requires id in tr[i].store.candidates
    ensures Advances(tr[i].store, tr[n].store, id)
    decreases n
  {
    hide Apply;
    if i < n {
      RunAdvances(tr, es, i, n - 1, id);
      assert Follows(tr, es, n - 1);
      StepAdvances(tr[n - 1].store, es[n - 1].op, tr[n].clock, id);
      AdvancesTransitive(tr[i].store, tr[n - 1].store, tr[n].store, id);
    }
  }

  /**
    Coalescing only strengthens a Candidate: over any run its confidences never fall and its evidence is never
    lost or reordered.
  */
  lemma AnnotationsOnlyGrow(tr: seq<State>, es: seq<Event>, i: nat, n: nat, id: CandidateKey)
    requires IsRun(tr, es) && i <= n <= |es| && id in tr[i].store.candidates
    ensures id in tr[n].store.candidates
    ensures Strengthens(tr[i].store.candidates[id].proposal, tr[n].store.candidates[id].proposal)
  {
    RunAdvances(tr, es, i, n, id);
  }

  /** A begun promotion is reserved under exactly the task its caller is told, on the first call and on every repeat. */
  lemma BeginReserves(s: Store, generation: nat, id: CandidateKey, token: Token, task: TaskKey,
                      preferred: Option<TaskKey>, committed: bool, lease: nat, now: int)
    requires BeginPromotionTxn(s, generation, id, token, task, preferred, committed, lease, now).1.Ok?
    ensures var (s', r) := BeginPromotionTxn(s, generation, id, token, task, preferred, committed, lease, now);
            && Reserved(s', id) == Some(r.value.task)
            && id in s'.candidates && s'.candidates[id].status.Pending?
            && (Reserved(s, id).Some? ==> s' == s && Reserved(s, id) == Some(r.value.task))
  {
  }

  /**
    Once a legacy promotion of a pending Candidate has started its mutation with reserved task T, then
    after any later run, whatever leases expire and tokens are reclaimed, the Candidate is still pending
    with the same reservation or accepted with T.
  */
  lemma StartedPromotionWins(tr: seq<State>, es: seq<Event>, i: nat, n: nat, id: CandidateKey, task: TaskKey)
    requires IsRun(tr, es) && i <= n <= |es|
    requires id in tr[i].store.candidates && tr[i].store.candidates[id].status.Pending?
    requires Reserved(tr[i].store, id) == Some(task)
    ensures id in tr[n].store.candidates
    ensures var c := tr[n].store.candidates[id];
            || (c.status.Pending? && Reserved(tr[n].store, id) == Some(task))
            || (c.status.Accepted? && c.resultTask == Some(task))
  {
    RunAdvances(tr, es, i, n, id);
  }

  /**
    While the reservation stands nobody else resolves the Candidate: an ordinary accept and a reject or
    expire are refused and change nothing, and a reconcile succeeds only with the reserved task and the
    token of a live lease. In particular the fence outlives every lease.
  */
  lemma ReservationRefusesEverythingElse(s: Store, generation: nat, id: CandidateKey, task: TaskKey, linksValid: bool,
                                         changed: Task, status: Status, result: Option<TaskKey>,
                                         token: Option<Token>, now: int)
    requires id in s.candidates && s.candidates[id].status.Pending?
    requires Reserved(s, id) == Some(task)
    ensures ResolveTxn(s, generation, id, linksValid, changed, now).0 == s
    ensures ResolveTxn(s, generation, id, linksValid, changed, now).1.Refused?
    ensures CloseTxn(s, generation, id, status, now).0 == s && CloseTxn(s, generation, id, status, now).1.Refused?
    ensures ReconcileTxn(s, generation, id, status, result, token, now).1.Ok? <==>
              && s.generation == generation && s.candidates[id].key.generation == generation
              && status.Accepted? && result == Some(task)
              && token == Some(s.claims[id].token) && s.claims[id].leaseExpiresAt > now
  {
  }

  // ----- resolution happens once -----

  /** A resolved Candidate keeps its status, its task and its resolution time in every later run. */
  lemma ResolutionIsPermanent(tr: seq<State>, es: seq<Event>, i: nat, n: nat, id: CandidateKey)
    requires IsRun(tr, es) && i <= n <= |es|
    requires id in tr[i].store.candidates && !tr[i].store.candidates[id].status.Pending?
    ensures id in tr[n].store.candidates
    ensures var a, b := tr[i].store.candidates[id], tr[n].store.candidates[id];
            (b.status, b.resultTask, b.resolvedAt) == (a.status, a.resultTask, a.resolvedAt)
  {
    RunAdvances(tr, es, i, n, id);
  }

  function Answer(st: State, e: Event): (r: Result<Receipt>)
    requires e.op.Resolve?
  {
    ResolveTxn(st.store, e.op.generation, e.op.id, e.op.linksValid, e.op.changed, st.clock + e.elapsed).1
  }

  lemma AcceptIsRecorded(st: State, e: Event)
    requires e.op.Resolve? && Answer(st, e).Ok? && Answer(st, e).value.newlyResolved
    ensures var (s', r) := (Next(st, e).store, Answer(st, e).value);
            && e.op.id in s'.candidates && s'.candidates[e.op.id].status.Accepted?
            && r == Receipt(e.op.id, Accepted, s'.candidates[e.op.id].resultTask, true,
                            s'.candidates[e.op.id].resolvedAt)
            && s'.candidates[e.op.id].key.generation == e.op.generation
  {
  }

  lemma AcceptedIsAnswered(st: State, e: Event)
    requires e.op.Resolve? && e.op.id in st.store.candidates && st.store.candidates[e.op.id].status.Accepted?
    ensures Next(st, e).store == st.store
    ensures var c := st.store.candidates[e.op.id];
            Answer(st, e) == if st.store.generation == e.op.generation == c.key.generation
                             then Ok(Receipt(e.op.id, Accepted, c.resultTask, false, c.resolvedAt))
                             else Refused(GenerationMismatch)
  {
  }

  /**
    An accept that succeeded at event i is answered, at every later retry in the same generation while
    the account is in it, with the same receipt, no longer marked new; in any other generation it is
    refused. Either way the retry writes no document at all: not the task, not the outbox row.
  */
  lemma AcceptRetryReturnsTheReceipt(tr: seq<State>, es: seq<Event>, i: nat, k: nat, id: CandidateKey)
    requires IsRun(tr, es) && i < k < |es|
    requires es[i].op.Resolve? && es[k].op.Resolve? && es[i].op.id == es[k].op.id == id
    requires Answer(tr[i], es[i]).Ok? && Answer(tr[i], es[i]).value.newlyResolved
    ensures tr[k + 1].store == tr[k].store
    ensures Answer(tr[k], es[k]) ==
              if tr[k].store.generation == es[k].op.generation == es[i].op.generation
              then Ok(Answer(tr[i], es[i]).value.(newlyResolved := false))
              else Refused(GenerationMismatch)
  {
    hide Next, ResolveTxn;
    assert Follows(tr, es, i) && Follows(tr, es, k);
    AcceptIsRecorded(tr[i], es[i]);
    RunAdvances(tr, es, i + 1, k, id);
    AcceptedIsAnswered(tr[k], es[k]);
  }

  // ----- one live suggestion per identity, and aliases that never move -----

  /** Only a create adds documents, aliases or identity claims. */
  lemma OnlyCreateAdds(s: Store, op: Op, now: int)
    requires !op.Create?
    ensures SameIndexes(s, Apply(s, op, now))
  {
    hide ResolveTxn, CloseTxn, ReconcileTxn, ClaimPromotionTxn, BeginPromotionTxn, RowAfter;
    match op
    case Resolve(g, id, valid, changed) => ResolveAddsNothing(s, g, id, valid, changed, now);
    case Close(g, id, status) => CloseAddsNothing(s, g, id, status, now);
    case Reconcile(g, id, status, task, token, at) => ReconcileAddsNothing(s, g, id, status, task, token, at);
    case ClaimPromotion(g, id, minted, lease, resume) => ClaimAddsNothing(s, g, id, minted, lease, resume, now);
    case BeginPromotion(g, id, token, task, preferred, committed, lease) =>
      BeginAddsNothing(s, g, id, token, task, preferred, committed, lease, now);
    case Dispatch(_, _) =>
    case _ =>
  }

  predicate SameIndexes(s: Store, s': Store) {
    s'.candidates.Keys == s.candidates.Keys && s'.aliases == s.aliases && s'.pending == s.pending
  }

  lemma ResolveAddsNothing(s: Store, generation: nat, id: CandidateKey, linksValid: bool, changed: Task, now: int)
    ensures SameIndexes(s, ResolveTxn(s, generation, id, linksValid, changed, now).0)
  {
    hide Blocked, Resolved, CreatedTask;
  }

  lemma CloseAddsNothing(s: Store, generation: nat, id: CandidateKey, status: Status, now: int)
    ensures SameIndexes(s, CloseTxn(s, generation, id, status, now).0)
    ensures CloseTxn(s, generation, id, status, now).0.outbox == s.outbox
  {
    hide Blocked, Resolved;
  }

  lemma ReconcileAddsNothing(s: Store, generation: nat, id: CandidateKey, status: Status, task: Option<TaskKey>,
                             token: Option<Token>, at: int)
    ensures SameIndexes(s, ReconcileTxn(s, generation, id, status, task, token, at).0)
    ensures ReconcileTxn(s, generation, id, status, task, token, at).0.outbox == s.outbox
  {
    hide Resolved;
  }

  lemma ClaimAddsNothing(s: Store, generation: nat, id: CandidateKey, minted: Token, leaseSeconds: nat, resume: bool,
                         now: int)
    ensures SameIndexes(s, ClaimPromotionTxn(s, generation, id, minted, leaseSeconds, resume, now).0)
    ensures ClaimPromotionTxn(s, generation, id, minted, leaseSeconds, resume, now).0.outbox == s.outbox
  {
  }

  lemma BeginAddsNothing(s: Store, generation: nat, id: CandidateKey, token: Token, task: TaskKey,
                         preferred: Option<TaskKey>, committed: bool, leaseSeconds: nat, now: int)
    ensures SameIndexes(s, BeginPromotionTxn(s, generation, id, token, task, preferred, committed, leaseSeconds, now).0)
    ensures BeginPromotionTxn(s, generation, id, token, task, preferred, committed, leaseSeconds, now).0.outbox
            == s.outbox
  {
    hide Reserve;
  }

  /** A document that was not there before this step is the one this create announces. */
  lemma NewDocuments(s: Store, op: Op, now: int, id: CandidateKey)
    requires id in Apply(s, op, now).candidates && id !in s.candidates
    ensures op.Create? && id == CandidateKey(op.generation, op.key)
    ensures Apply(s, op, now).candidates[id] == NewCandidate(id, op.proposal, now)
    ensures SemanticIdentity(op.proposal).Some? ==>
              var k := SemanticKey(op.generation, op.proposal.identity);
              k in Apply(s, op, now).pending && Apply(s, op, now).pending[k] == id
  {
    if op.Create? {
      hide CreateTxn, Merged, Lapsed;
      CreateCases(s, op.generation, op.key, op.proposal, now);
    } else {
      hide Apply;
      OnlyCreateAdds(s, op, now);
    }
  }

  /** The identity of a suggestion that is still alive at `now` keeps naming it through any step at `now`. */
  lemma LiveSuggestionKeepsItsIdentity(s: Store, op: Op, now: int, id: CandidateKey)
    requires id in s.candidates && s.candidates[id].key == id
    requires ReusablePending(s.candidates[id], now)
    requires SemanticIdentity(s.candidates[id].proposal).Some?
    requires var k := SemanticKey(id.generation, s.candidates[id].proposal.identity);
             k in s.pending && s.pending[k] == id
    ensures var k := SemanticKey(id.generation, s.candidates[id].proposal.identity);
            k in Apply(s, op, now).pending && Apply(s, op, now).pending[k] == id
  {
    if op.Create? {
      hide CreateTxn, Merged, Lapsed;
      CreateCases(s, op.generation, op.key, op.proposal, now);
    } else {
      hide Apply, Lapsed;
      OnlyCreateAdds(s, op, now);
    }
  }

  /** A suggestion with a semantic identity that is pending and not lapsed. */
  predicate Live(c: Candidate, now: int) {
    c.status.Pending? && !Lapsed(c, now) && SemanticIdentity(c.proposal).Some?
  }

  predicate Holds(s: Store, id: CandidateKey)
    requires id in s.candidates
  {
    var k := SemanticKey(id.generation, s.candidates[id].proposal.identity);
    k in s.pending && s.pending[k] == id
  }

  ghost predicate IdentitiesHeld(st: State) {
    forall id :: id in st.store.candidates ==>
      && st.store.candidates[id].key == id
      && (Live(st.store.candidates[id], st.clock) ==> Holds(st.store, id))
  }

  lemma StepKeepsIdentities(st: State, e: Event)
    requires IdentitiesHeld(st)
    ensures IdentitiesHeld(Next(st, e))
  {
    hide Apply;
    var st' := Next(st, e);
    forall id | id in st'.store.candidates
      ensures st'.store.candidates[id].key == id && (Live(st'.store.candidates[id], st'.clock) ==> Holds(st'.store, id))
    {
      if id in st.store.candidates {
        StepAdvances(st.store, e.op, st'.clock, id);
        if Live(st'.store.candidates[id], st'.clock) {
          assert Live(st.store.candidates[id], st.clock);
          LiveSuggestionKeepsItsIdentity(st.store, e.op, st'.clock, id);
        }
      } else {
        NewDocuments(st.store, e.op, st'.clock, id);
      }
    }
  }

  lemma {:induction false} IdentitiesAlwaysHeld(tr: seq<State>, es: seq<Event>, n: nat)
    requires IsRun(tr, es) && n <= |es| && IdentitiesHeld(tr[0])
    ensures IdentitiesHeld(tr[n])
  {
    hide Next, IdentitiesHeld;
    if n > 0 {
      IdentitiesAlwaysHeld(tr, es, n - 1);
      assert Follows(tr, es, n - 1);
      StepKeepsIdentities(tr[n - 1], es[n - 1]);
    }
  }

  /** At any time at most one live suggestion exists per task-create identity and account generation. */
  lemma OneLiveSuggestion(tr: seq<State>, es: seq<Event>, n: nat, a: CandidateKey, b: CandidateKey, now: int)
    requires IsRun(tr, es) && n <= |es| && tr[0].store.candidates == map[] && tr[n].clock <= now
    requires a in tr[n].store.candidates && b in tr[n].store.candidates
    requires Live(tr[n].store.candidates[a], now) && Live(tr[n].store.candidates[b], now)
    requires a.generation == b.generation
    requires tr[n].store.candidates[a].proposal.identity == tr[n].store.candidates[b].proposal.identity
    ensures a == b
  {
    IdentitiesAlwaysHeld(tr, es, n);
  }

  /** Aliases name existing Candidates of their own generation. */
  ghost predicate AliasesSound(s: Store) {
    && (forall id :: id in s.candidates ==> s.candidates[id].key == id)
    && (forall a :: a in s.aliases ==>
          && s.aliases[a].target in s.candidates
          && s.aliases[a].generation == s.aliases[a].target.generation == a.generation)
  }

  predicate AliasKept(s: Store, s': Store, a: CandidateKey)
    requires a in s.aliases
  {
    a in s'.aliases && s'.aliases[a] == s.aliases[a]
  }

  lemma StepKeepsAlias(s: Store, op: Op, now: int, a: CandidateKey)
    requires a in s.aliases
    ensures AliasKept(s, Apply(s, op, now), a)
  {
    if op.Create? {
      hide CreateTxn, Merged, Lapsed, NewCandidate;
      CreateCases(s, op.generation, op.key, op.proposal, now);
    } else {
      hide Apply;
      OnlyCreateAdds(s, op, now);
    }
  }

  lemma NewAlias(s: Store, op: Op, now: int, a: CandidateKey)
    requires AliasesSound(s) && a in Apply(s, op, now).aliases && a !in s.aliases
    ensures var alias := Apply(s, op, now).aliases[a];
            && alias.target in Apply(s, op, now).candidates
            && alias.generation == alias.target.generation == a.generation
  {
    if op.Create? {
      hide CreateTxn, Merged, Lapsed, NewCandidate;
      CreateCases(s, op.generation, op.key, op.proposal, now);
    } else {
      hide Apply;
      OnlyCreateAdds(s, op, now);
    }
  }

  lemma StepKeepsAliasesSound(s: Store, op: Op, now: int)
    requires AliasesSound(s)
    ensures AliasesSound(Apply(s, op, now))
  {
    hide Apply;
    var s' := Apply(s, op, now);
    forall id | id in s'.candidates ensures s'.candidates[id].key == id {
      if id in s.candidates {
        StepAdvances(s, op, now, id);
      } else {
        NewDocuments(s, op, now, id);
      }
    }
    forall a | a in s'.aliases
      ensures s'.aliases[a].target in s'.candidates
              && s'.aliases[a].generation == s'.aliases[a].target.generation == a.generation
    {
      if a in s.aliases {
        StepKeepsAlias(s, op, now, a);
        StepAdvances(s, op, now, s.aliases[a].target);
      } else {
        NewAlias(s, op, now, a);
      }
    }
  }

  lemma {:induction false} RunKeepsAliases(tr: seq<State>, es: seq<Event>, i: nat, n: nat, a: CandidateKey)
    requires IsRun(tr, es) && i <= n <= |es| && AliasesSound(tr[i].store)
    ensures AliasesSound(tr[n].store)
    ensures a in tr[i].store.aliases ==> AliasKept(tr[i].store, tr[n].store, a)
    decreases n
  {
    hide Apply, AliasesSound;
    if i < n {
      RunKeepsAliases(tr, es, i, n - 1, a);
      assert Follows(tr, es, n - 1);
      StepKeepsAliasesSound(tr[n - 1].store, es[n - 1].op, tr[n].clock);
      if a in tr[i].store.aliases {
        StepKeepsAlias(tr[n - 1].store, es[n - 1].op, tr[n].clock, a);
      }
    }
  }

  function Created(st: State, e: Event): (r: Result<Candidate>)
    requires e.op.Create?
  {
    CreateTxn(st.store, e.op.generation, e.op.key, e.op.proposal, st.clock + e.elapsed).1
  }

  lemma CreateIsAliased(st: State, e: Event)
    requires e.op.Create? && AliasesSound(st.store) && Created(st, e).Ok?
    ensures var a := CandidateKey(e.op.generation, e.op.key);
            && a in Next(st, e).store.aliases
            && Next(st, e).store.aliases[a] == Alias(Created(st, e).value.key, e.op.proposal, e.op.generation)
            && !Blank(e.op.key)
  {
    hide MergedEvidence, AnnotatedTask, ReusableAccept, Lapsed, Blank;
    var a := CandidateKey(e.op.generation, e.op.key);
    if a in st.store.aliases {
      assert Next(st, e).store == st.store;
    } else if a in st.store.candidates {
      assert Created(st, e).value == st.store.candidates[a];
    }
  }

  lemma AliasIsAnswered(st: State, e: Event)
    requires e.op.Create? && AliasesSound(st.store) && !Blank(e.op.key)
    requires CandidateKey(e.op.generation, e.op.key) in st.store.aliases
    ensures Next(st, e).store == st.store
    ensures var alias := st.store.aliases[CandidateKey(e.op.generation, e.op.key)];
            Created(st, e) == if st.store.generation != e.op.generation then Refused(GenerationMismatch)
                              else if alias.request != e.op.proposal then Refused(Conflict)
                              else Ok(st.store.candidates[alias.target])
  {
    hide MergedEvidence, AnnotatedTask, ReusableAccept, Lapsed, Blank;
  }

  /**
    A create that succeeded at event i fixes what its idempotency key means: every later create with the
    same key and proposal, while the account is in that generation, returns the very same Candidate as it
    is then stored, any other proposal is a conflict, and neither writes anything.
  */
  lemma CreateRetryReturnsTheCandidate(tr: seq<State>, es: seq<Event>, i: nat, k: nat)
    requires IsRun(tr, es) && i < k < |es| && AliasesSound(tr[0].store)
    requires es[i].op.Create? && es[k].op.Create?
    requires es[i].op.generation == es[k].op.generation && es[i].op.key == es[k].op.key
    requires Created(tr[i], es[i]).Ok?
    ensures tr[k + 1].store == tr[k].store
    ensures Created(tr[i], es[i]).value.key in tr[k].store.candidates
    ensures Created(tr[k], es[k]) ==
              if tr[k].store.generation != es[k].op.generation then Refused(GenerationMismatch)
              else if es[k].op.proposal != es[i].op.proposal then Refused(Conflict)
              else Ok(tr[k].store.candidates[Created(tr[i], es[i]).value.key])
  {
    hide Next, CreateTxn;
    var a := CandidateKey(es[i].op.generation, es[i].op.key);
    RunKeepsAliases(tr, es, 0, i, a);
    assert Follows(tr, es, i) && Follows(tr, es, k);
    CreateIsAliased(tr[i], es[i]);
    RunKeepsAliases(tr, es, 0, i + 1, a);
    RunKeepsAliases(tr, es, i + 1, k, a);
    AliasIsAnswered(tr[k], es[k]);
  }

  // ----- delivery of the accepted side effect -----

  /** The token of an attempted dispatch claim of `id`. */
  function ClaimToken(e: Event, id: CandidateKey): (token: Option<Token>) {
    if e.op.Dispatch? && e.op.id == id && e.op.op.ClaimDispatch? then Some(e.op.op.token) else None
  }

  /** The lease granted by this event on the outbox row of `id`. */
  function Leased(st: State, e: Event, id: CandidateKey): (token: Option<Token>) {
    if ClaimToken(e, id).Some? && id in st.store.outbox then
      ClaimDispatchTxn(st.store.outbox[id], st.store.generation, e.op.op.generation, e.op.op.leaseSeconds,
                       e.op.op.token,
                       st.clock + e.elapsed).1
    else None
  }

  /** Random tokens are never drawn twice. */
  ghost predicate DistinctTokens(es: seq<Event>, id: CandidateKey) {
    forall i, j :: 0 <= i < j < |es| && ClaimToken(es[i], id).Some? ==> ClaimToken(es[i], id) != ClaimToken(es[j], id)
  }

  /** A row exists only for an accepted Candidate, so it is written afresh exactly once. */
  ghost predicate RowsFollowAcceptance(s: Store) {
    forall id :: id in s.outbox ==> id in s.candidates && s.candidates[id].status.Accepted?
  }

  /** Only an accept creates a row, and only for a pending Candidate that it accepts. */
  lemma OnlyAcceptAddsRows(s: Store, op: Op, now: int)
    requires !op.Dispatch?
    ensures var s' := Apply(s, op, now);
            || s'.outbox == s.outbox
            || (&& op.Resolve? && op.id in s.candidates && s.candidates[op.id].status.Pending?
                && op.id in s'.candidates && s'.candidates[op.id].status.Accepted?
                && s'.outbox == s.outbox[op.id := NewRow(op.generation)])
  {
    hide CreateTxn, ResolveTxn, CloseTxn, ReconcileTxn, ClaimPromotionTxn, BeginPromotionTxn, NewRow;
    match op
    case Create(g, key, p) => CreateKeepsRows(s, g, key, p, now);
    case Resolve(g, id, valid, changed) => ResolveAddsOneRow(s, g, id, valid, changed, now);
    case Close(g, id, status) => CloseAddsNothing(s, g, id, status, now);
    case Reconcile(g, id, status, task, token, at) => ReconcileAddsNothing(s, g, id, status, task, token, at);
    case ClaimPromotion(g, id, minted, lease, resume) => ClaimAddsNothing(s, g, id, minted, lease, resume, now);
    case BeginPromotion(g, id, token, task, preferred, committed, lease) =>
      BeginAddsNothing(s, g, id, token, task, preferred, committed, lease, now);
    case _ =>
  }

  lemma CreateKeepsRows(s: Store, generation: nat, key: string, p: Proposal, now: int)
    ensures CreateTxn(s, generation, key, p, now).0.outbox == s.outbox
  {
    hide Merged, AnnotatedTask, Lapsed, Blank, Holder, NewCandidate;
  }

  lemma ResolveAddsOneRow(s: Store, generation: nat, id: CandidateKey, linksValid: bool, changed: Task, now: int)
    ensures var s' := ResolveTxn(s, generation, id, linksValid, changed, now).0;
            || s'.outbox == s.outbox
            || (&& id in s.candidates && s.candidates[id].status.Pending?
                && id in s'.candidates && s'.candidates[id].status.Accepted?
                && s'.outbox == s.outbox[id := NewRow(generation)])
  {
    hide Blocked, CreatedTask, NewRow;
  }

  /** What one step does to an existing row: at most the row operation of a dispatch event for it. */
  lemma RowStep(s: Store, op: Op, now: int, id: CandidateKey)
    requires RowsFollowAcceptance(s) && id in s.outbox
    ensures id in Apply(s, op, now).outbox
    ensures Apply(s, op, now).outbox[id] ==
              if op.Dispatch? && op.id == id then RowAfter(s.outbox[id], op.op, s.generation, now) else s.outbox[id]
  {
    hide RowAfter;
    if !op.Dispatch? {
      hide Apply;
      OnlyAcceptAddsRows(s, op, now);
    }
  }

  lemma NewRows(s: Store, op: Op, now: int, id: CandidateKey)
    requires id in Apply(s, op, now).outbox && id !in s.outbox
    ensures id in Apply(s, op, now).candidates && Apply(s, op, now).candidates[id].status.Accepted?
  {
    hide RowAfter;
    if !op.Dispatch? {
      hide Apply;
      OnlyAcceptAddsRows(s, op, now);
    }
  }

  lemma {:induction false} RowsAlwaysFollowAcceptance(tr: seq<State>, es: seq<Event>, n: nat)
    requires IsRun(tr, es) && n <= |es| && RowsFollowAcceptance(tr[0].store)
    ensures RowsFollowAcceptance(tr[n].store)
  {
    hide Apply;
    if n > 0 {
      RowsAlwaysFollowAcceptance(tr, es, n - 1);
      assert Follows(tr, es, n - 1);
      forall id | id in tr[n].store.outbox
        ensures id in tr[n].store.candidates && tr[n].store.candidates[id].status.Accepted?
      {
        if id in tr[n - 1].store.outbox {
          StepAdvances(tr[n - 1].store, es[n - 1].op, tr[n].clock, id);
        } else {
          NewRows(tr[n - 1].store, es[n - 1].op, tr[n].clock, id);
        }
      }
    }
  }

  /** Once a success is recorded, or the row suppressed, no lease is ever granted on it again. */
  lemma {:induction false} SettledForever(tr: seq<State>, es: seq<Event>, i: nat, n: nat, id: CandidateKey)
    requires IsRun(tr, es) && i <= n <= |es| && RowsFollowAcceptance(tr[0].store)
    requires id in tr[i].store.outbox && Settled(tr[i].store.outbox[id])
    ensures id in tr[n].store.outbox && Settled(tr[n].store.outbox[id])
    ensures n < |es| ==> Leased(tr[n], es[n], id).None?
    decreases n
  {
    hide Apply;
    if i < n {
      SettledForever(tr, es, i, n - 1, id);
      RowsAlwaysFollowAcceptance(tr, es, n - 1);
      assert Follows(tr, es, n - 1);
      RowStep(tr[n - 1].store, es[n - 1].op, tr[n].clock, id);
    }
  }

  /** This event records a delivery success on the row of `id`. */
  predicate RecordsSuccess(st: State, e: Event, id: CandidateKey) {
    && e.op.Dispatch? && e.op.id == id && e.op.op.CompleteDispatch? && e.op.op.succeeded && id in st.store.outbox
    && CompleteDispatchTxn(st.store.outbox[id], st.store.generation, e.op.op.generation, e.op.op.token, true).1
  }

  lemma SuccessSettles(st: State, e: Event, id: CandidateKey)
    requires RecordsSuccess(st, e, id)
    ensures id in Next(st, e).store.outbox && Next(st, e).store.outbox[id].status.Delivered?
    ensures !Settled(st.store.outbox[id])
  {
  }

  /** The side effect succeeds at most once: no run records two successes on one row. */
  lemma OneSuccessPerRow(tr: seq<State>, es: seq<Event>, i: nat, k: nat, id: CandidateKey)
    requires IsRun(tr, es) && i < k < |es| && RowsFollowAcceptance(tr[0].store)
    requires RecordsSuccess(tr[i], es[i], id)
    ensures !RecordsSuccess(tr[k], es[k], id)
  {
    hide Apply;
    assert Follows(tr, es, i);
    SuccessSettles(tr[i], es[i], id);
    SettledForever(tr, es, i + 1, k, id);
  }

  /** The event claims or completes this row under a generation that is no longer the row's and the account's. */
  predicate CallsAcrossGenerations(st: State, e: Event, id: CandidateKey)
    requires id in st.store.outbox
  {
    && e.op.Dispatch? && e.op.id == id && (e.op.op.ClaimDispatch? || e.op.op.CompleteDispatch?)
    && GenerationMoved(st.store.outbox[id], st.store.generation, e.op.op.generation)
  }

  /**
    A delivered row is not quite terminal. One step of a run leaves it as it is, except that it becomes
    suppressed exactly when a claim or completion arrives across a change of generation.
  */
  lemma DeliveredTurnsSuppressedIff(tr: seq<State>, es: seq<Event>, n: nat, id: CandidateKey)
    requires IsRun(tr, es) && n < |es| && RowsFollowAcceptance(tr[0].store)
    requires id in tr[n].store.outbox && tr[n].store.outbox[id].status.Delivered?
    ensures id in tr[n + 1].store.outbox
    ensures tr[n + 1].store.outbox[id] ==
              if CallsAcrossGenerations(tr[n], es[n], id) then tr[n].store.outbox[id].(status := Suppressed)
              else tr[n].store.outbox[id]
  {
    hide Apply;
    RowsAlwaysFollowAcceptance(tr, es, n);
    assert Follows(tr, es, n);
    RowStep(tr[n].store, es[n].op, tr[n + 1].clock, id);
  }

  /** After a lease granted at event j, the token stored on the row was supplied at event j or later. */
  lemma {:induction false} TokenIsRecent(tr: seq<State>, es: seq<Event>, j: nat, n: nat, id: CandidateKey)
    requires IsRun(tr, es) && j < n <= |es| && RowsFollowAcceptance(tr[0].store)
    requires Leased(tr[j], es[j], id).Some?
    ensures id in tr[n].store.outbox
    ensures tr[n].store.outbox[id].token.Some? ==>
              exists m :: j <= m < n && ClaimToken(es[m], id) == tr[n].store.outbox[id].token
    decreases n
  {
    hide Apply;
    if j < n - 1 {
      TokenIsRecent(tr, es, j, n - 1, id);
    }
    RowsAlwaysFollowAcceptance(tr, es, n - 1);
    assert Follows(tr, es, n - 1);
    RowStep(tr[n - 1].store, es[n - 1].op, tr[n].clock, id);
    if tr[n].store.outbox[id].token.Some? {
      if ClaimToken(es[n - 1], id) != tr[n].store.outbox[id].token {
        assert tr[n - 1].store.outbox[id].token == tr[n].store.outbox[id].token;
      }
    }
  }

  /**
    Only the latest lease can report an outcome. A token leased at event i is overtaken by a lease
    granted at event j; at any later event k its completion is not recorded, and the row is left as it
    is unless the account generation moved, in which case it is suppressed.
  */
  lemma OvertakenTokenReportsNothing(tr: seq<State>, es: seq<Event>, i: nat, j: nat, k: nat, id: CandidateKey,
                                     generation: nat, succeeded: bool)
    requires IsRun(tr, es) && i < j < k < |es| && RowsFollowAcceptance(tr[0].store) && DistinctTokens(es, id)
    requires Leased(tr[i], es[i], id).Some? && Leased(tr[j], es[j], id).Some?
    requires es[k].op == Dispatch(id, CompleteDispatch(generation, Leased(tr[i], es[i], id).value, succeeded))
    ensures id in tr[k].store.outbox && id in tr[k + 1].store.outbox
    ensures !CompleteDispatchTxn(tr[k].store.outbox[id], tr[k].store.generation, generation,
                                 Leased(tr[i], es[i], id).value, succeeded).1
    ensures tr[k + 1].store.outbox[id] ==
              if GenerationMoved(tr[k].store.outbox[id], tr[k].store.generation, generation)
              then tr[k].store.outbox[id].(status := Suppressed) else tr[k].store.outbox[id]
  {
    hide Apply;
    TokenIsRecent(tr, es, j, k, id);
    RowsAlwaysFollowAcceptance(tr, es, k);
    assert Follows(tr, es, k);
    RowStep(tr[k].store, es[k].op, tr[k + 1].clock, id);
    assert ClaimToken(es[i], id) == Leased(tr[i], es[i], id);
    assert tr[k].store.outbox[id].token != Leased(tr[i], es[i], id);
  }
}
