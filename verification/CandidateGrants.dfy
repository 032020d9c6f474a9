/**
  When a Candidate transaction is granted and which documents it then leaves, said of the stored fields
  alone; and what an accepted create has brought about for good.
*/
module CandidateGrants {
  import opened Prelude
  import opened CandidateAnnotations
  import opened IntegrationOutbox
  import opened CandidateRecords
  import opened CandidateRuns

  /** The document is there, in the generation of the caller and of the account. */
  predicate Present(s: Store, generation: nat, id: CandidateKey) {
    s.generation == generation && id in s.candidates && s.candidates[id].key.generation == generation
  }

  /** A promotion holds the Candidate: its mutation has started, or its lease still runs. */
  predicate Promoting(s: Store, id: CandidateKey, now: int) {
    && id in s.claims && s.claims[id].active
    && (s.claims[id].phase == MutationStarted || s.claims[id].leaseExpiresAt > now)
  }

  /** Only these documents differ. */
  predicate OnlyTasksAndOutbox(s: Store, s': Store) {
    s'.generation == s.generation && s'.aliases == s.aliases && s'.pending == s.pending && s'.claims == s.claims
  }

  // ----- accepting -----

  predicate CreateMayBeAccepted(s: Store, generation: nat, id: CandidateKey, linksValid: bool) {
    var task := CandidateTask(generation, id);
    linksValid && (task in s.tasks ==> s.tasks[task].candidate == Some(id))
  }

  predicate ChangeMayBeAccepted(s: Store, generation: nat, target: Option<TaskKey>, linksValid: bool) {
    && linksValid && target.Some? && target.value in s.tasks
    && (s.tasks[target.value].generation == 0 || s.tasks[target.value].generation == generation)
  }

  /**
    An accept is granted exactly on an accepted Candidate, which answers the same again, and on a pending task
    proposal that no promotion holds and whose links and target are good.
  */
  lemma AcceptGrantedIff(s: Store, generation: nat, id: CandidateKey, linksValid: bool, changed: Task, now: int)
    ensures var r := ResolveTxn(s, generation, id, linksValid, changed, now).1;
            r.Ok? <==>
              && Present(s, generation, id)
              && var c := s.candidates[id];
                 || c.status == Accepted
                 || (&& c.status == Pending && !Promoting(s, id, now) && c.proposal.subject == TaskSubject
                     && (if c.proposal.action == CreateTask then CreateMayBeAccepted(s, generation, id, linksValid)
                         else ChangeMayBeAccepted(s, generation, c.proposal.target, linksValid)))
  {
  }

  /** What a granted accept of a pending proposal leaves: the resolved Candidate and the receipt that says so. */
  lemma AcceptResolves(s: Store, generation: nat, id: CandidateKey, linksValid: bool, changed: Task, now: int)
    requires ResolveTxn(s, generation, id, linksValid, changed, now).1.Ok?
    ensures var (s', r) := ResolveTxn(s, generation, id, linksValid, changed, now);
            var c := s.candidates[id];
            && OnlyTasksAndOutbox(s, s')
            && (c.status == Accepted ==> s' == s && r.value == Receipt(id, Accepted, c.resultTask, false, c.resolvedAt))
            && (c.status == Pending ==>
                  && r.value.candidate == id && r.value.status == Accepted && r.value.newlyResolved
                  && r.value.resolvedAt == Some(now) && r.value.task.Some?
                  && s'.candidates == s.candidates[id := s'.candidates[id]]
                  && s'.candidates[id] == c.(status := Accepted, resultTask := r.value.task, resolvedAt := Some(now),
                                             expiresAt := None)
                  && s'.tasks == s.tasks[r.value.task.value := s'.tasks[r.value.task.value]])
  {
  }

  /** The task that an accepted create stands for: made from the proposal, and traced back to the Candidate. */
  predicate MadeFrom(t: Task, c: Candidate) {
    && t.candidate == Some(c.key) && t.generation == c.key.generation && t.active
    && t.identity == c.proposal.identity && t.provenance == c.proposal.evidence
    && t.capture == c.proposal.capture && t.ownership == c.proposal.ownership
    && t.dueConfidence == c.proposal.dueConfidence && t.priority == c.proposal.priority
  }

  /** Accepting a create makes its task, unless an earlier attempt already did, and its one row in the outbox. */
  lemma AcceptedCreateMakesItsTask(s: Store, generation: nat, id: CandidateKey, linksValid: bool, changed: Task,
                                   now: int)
    requires ResolveTxn(s, generation, id, linksValid, changed, now).1.Ok?
    requires s.candidates[id].status == Pending && s.candidates[id].proposal.action == CreateTask
    ensures var (s', r) := ResolveTxn(s, generation, id, linksValid, changed, now);
            var task := CandidateTask(generation, id);
            && r.value.task == Some(task) && task in s'.tasks
            && (if task in s.tasks then s'.tasks[task] == s.tasks[task] && s.tasks[task].candidate == Some(id)
                else MadeFrom(s'.tasks[task], s.candidates[id]))
            && s'.outbox == s.outbox[id := s'.outbox[id]]
            && s'.outbox[id].status == Ready && s'.outbox[id].attempts == 0 && s'.outbox[id].token.None?
            && s'.outbox[id].claimedAt.None? && s'.outbox[id].generation == generation
  {
  }

  /** Accepting a change writes the changed task in place, in the account's generation, and no outbox row. */
  lemma AcceptedChangeWritesItsTarget(s: Store, generation: nat, id: CandidateKey, linksValid: bool, changed: Task,
                                      now: int)
    requires ResolveTxn(s, generation, id, linksValid, changed, now).1.Ok?
    requires s.candidates[id].status == Pending && s.candidates[id].proposal.action == ChangeTask
    ensures var (s', r) := ResolveTxn(s, generation, id, linksValid, changed, now);
            && r.value.task == s.candidates[id].proposal.target && r.value.task.Some? && r.value.task.value in s'.tasks
            && s'.tasks[r.value.task.value] == changed.(generation := generation)
            && s'.outbox == s.outbox
  {
  }

  // ----- closing and reconciling -----

  /** A reject or expire is granted exactly on a Candidate already so closed, or pending and held by no promotion. */
  lemma CloseGrantedIff(s: Store, generation: nat, id: CandidateKey, status: Status, now: int)
    ensures var (s', r) := CloseTxn(s, generation, id, status, now);
            && (r.Ok? <==>
                  && (status == Rejected || status == Expired) && Present(s, generation, id)
                  && (|| s.candidates[id].status == status
                      || (s.candidates[id].status == Pending && !Promoting(s, id, now))))
            && (r.Refused? ==> s' == s)
            && (r.Ok? ==>
                  var c := s.candidates[id];
                  && r.value.candidate == id && r.value.status == status && r.value.task.None?
                  && (r.value.newlyResolved <==> c.status == Pending)
                  && s' == s.(candidates := s.candidates[id := s'.candidates[id]])
                  && (c.status == Pending ==>
                        && s'.candidates[id] == c.(status := status, resolvedAt := Some(now), expiresAt := None)
                        && r.value.resolvedAt == Some(now))
                  && (c.status != Pending ==> s'.candidates[id] == c && r.value.resolvedAt == c.resolvedAt))
  {
    if id in s.candidates {
      assert s.candidates == s.candidates[id := s.candidates[id]];
    }
  }

  /** The owner of a started promotion finishes it: with its own token in time, for the task it reserved. */
  predicate FinishesPromotion(claim: PromotionClaim, status: Status, task: Option<TaskKey>, token: Option<Token>,
                              at: int)
  {
    && token == Some(claim.token) && claim.active && claim.leaseExpiresAt > at && claim.phase == MutationStarted
    && status == Accepted && claim.task == task
  }

  /** A reconcile is granted exactly on a Candidate already there, to the owner of its promotion, or free of any. */
  lemma ReconcileGrantedIff(s: Store, generation: nat, id: CandidateKey, status: Status, task: Option<TaskKey>,
                            token: Option<Token>, at: int)
    ensures var (s', r) := ReconcileTxn(s, generation, id, status, task, token, at);
            && (r.Ok? <==>
                  && status != Pending && (status == Accepted ==> task.Some?) && Present(s, generation, id)
                  && (|| s.candidates[id].status == status
                      || (&& s.candidates[id].status == Pending
                          && (if Promoting(s, id, at) then FinishesPromotion(s.claims[id], status, task, token, at)
                              else token.None?))))
            && (r.Refused? ==> s' == s)
            && (r.Ok? && s.candidates[id].status != Pending ==> s' == s && r.value == s.candidates[id])
            && (r.Ok? && s.candidates[id].status == Pending ==>
                  var c := s.candidates[id];
                  && r.value == c.(status := status, resultTask := if task.Some? then task else c.resultTask,
                                   resolvedAt := Some(at), expiresAt := None)
                  && s'.candidates == s.candidates[id := r.value]
                  && s'.claims == (if token.Some? then s.claims[id := s.claims[id].(active := false)] else s.claims)
                  && s' == s.(candidates := s'.candidates, claims := s'.claims))
  {
  }

  // ----- promoting -----

  predicate OwnedNow(s: Store, id: CandidateKey, now: int) {
    id in s.claims && s.claims[id].active && s.claims[id].leaseExpiresAt > now
  }

  predicate StartedBefore(s: Store, id: CandidateKey) {
    id in s.claims && s.claims[id].active && s.claims[id].phase == MutationStarted
  }

  /**
    A promotion is claimed exactly for a pending Candidate that nobody owns now, or to resume with the owner's
    token. A started promotion changes hands with its reservation; any other begins anew.
  */
  lemma PromotionClaimedIff(s: Store, generation: nat, id: CandidateKey, minted: Token, leaseSeconds: nat,
                            resume: bool, now: int)
    ensures var (s', r) := ClaimPromotionTxn(s, generation, id, minted, leaseSeconds, resume, now);
            && (r.Ok? <==>
                  && Present(s, generation, id) && s.candidates[id].status == Pending
                  && (OwnedNow(s, id, now) ==> resume)
                  && (!OwnedNow(s, id, now) && StartedBefore(s, id) ==> s.claims[id].task.Some?))
            && (r.Refused? ==> s' == s)
            && (r.Ok? && OwnedNow(s, id, now) ==> s' == s && r.value == s.claims[id].token)
            && (r.Ok? && !OwnedNow(s, id, now) ==>
                  && r.value == minted && s' == s.(claims := s.claims[id := s'.claims[id]])
                  && OwnedUnder(s'.claims[id], minted, now + leaseSeconds)
                  && (if StartedBefore(s, id)
                      then s'.claims[id] == s.claims[id].(token := minted, leaseExpiresAt := now + leaseSeconds)
                      else s'.claims[id].phase == PreMutation && s'.claims[id].task.None? && s'.claims[id].kind.None?))
  {
  }

  predicate OwnedUnder(claim: PromotionClaim, token: Token, until: int) {
    claim.active && claim.token == token && claim.leaseExpiresAt == until
  }

  /**
    A promotion begins exactly for the owner of a running lease on a pending Candidate. It reserves the
    committed task, else the preferred one if that is active, else the given one, and repeats its answer.
  */
  lemma PromotionBegunIff(s: Store, generation: nat, id: CandidateKey, token: Token, task: TaskKey,
                          preferred: Option<TaskKey>, committed: bool, leaseSeconds: nat, now: int)
    ensures var (s', r) := BeginPromotionTxn(s, generation, id, token, task, preferred, committed, leaseSeconds, now);
            && (r.Ok? <==>
                  && Present(s, generation, id) && s.candidates[id].status == Pending
                  && OwnedNow(s, id, now) && s.claims[id].token == token
                  && (s.claims[id].phase == MutationStarted ==> s.claims[id].task.Some? && s.claims[id].kind.Some?))
            && (r.Refused? ==> s' == s)
            && (r.Ok? && s.claims[id].phase == MutationStarted ==>
                  s' == s && Some(r.value.task) == s.claims[id].task && Some(r.value.kind) == s.claims[id].kind)
            && (r.Ok? && s.claims[id].phase == PreMutation ==>
                  && s' == s.(claims := s.claims[id := s'.claims[id]])
                  && s'.claims[id] == s.claims[id].(phase := MutationStarted, task := Some(r.value.task),
                                                    kind := Some(r.value.kind), leaseExpiresAt := now + leaseSeconds)
                  && (r.value.kind == ReservedCommitted <==> committed)
                  && (r.value.kind == ReservedExisting <==>
                        !committed && preferred.Some? && preferred.value in s.tasks && s.tasks[preferred.value].active)
                  && r.value.task == if r.value.kind == ReservedExisting then preferred.value else task)
  {
  }

  // ----- creating -----

  /** The suggestion may still be shown. */
  predicate Showing(c: Candidate, now: int) {
    c.status == Pending && now < (if c.expiresAt.Some? then c.expiresAt.value else c.createdAt + 2 * 86400)
  }

  /** The Candidate was accepted as a task that is still active and still the same task. */
  predicate StandsAsTask(s: Store, c: Candidate, generation: nat) {
    && c.status == Accepted && c.resultTask.Some? && c.resultTask.value in s.tasks
    && var t := s.tasks[c.resultTask.value];
       t.active && t.identity == c.proposal.identity && (t.generation == 0 || t.generation == generation)
  }

  /** The key has been used: by an alias, or by a document of its own. */
  predicate KeyUsed(s: Store, id: CandidateKey) {
    id in s.aliases || id in s.candidates
  }

  /** Another document already says the same task create, and can take this capture in. */
  predicate TakenIn(s: Store, id: CandidateKey, p: Proposal, now: int) {
    && p.subject == TaskSubject && p.action == CreateTask
    && var k := SemanticKey(id.generation, p.identity);
       && k in s.pending && s.pending[k] in s.candidates && s.candidates[s.pending[k]].key.generation == id.generation
       && (Showing(s.candidates[s.pending[k]], now) || StandsAsTask(s, s.candidates[s.pending[k]], id.generation))
  }

  /**
    A create is refused exactly for a blank key, in another generation, or when its key was used for another
    proposal or lost its document. Otherwise it answers with a stored document, to which its alias then leads;
    and it adds a new document exactly when the key is new and no other one can take the capture in.
  */
  lemma CreateGrantedIff(s: Store, generation: nat, key: string, p: Proposal, now: int)
    ensures var (s', r) := CreateTxn(s, generation, key, p, now);
            var id := CandidateKey(generation, key);
            && (r.Refused? <==>
                  || Blank(key) || s.generation != generation
                  || (id in s.aliases && !(&& s.aliases[id].generation == generation && s.aliases[id].request == p
                                           && s.aliases[id].target in s.candidates
                                           && s.candidates[s.aliases[id].target].key.generation == generation))
                  || (id !in s.aliases && id in s.candidates && s.candidates[id].proposal != p))
            && (r.Refused? ==> s' == s)
            && (r.Ok? ==>
                  && id in s'.aliases && s'.aliases[id].request == p && s'.aliases[id].generation == generation
                  && (id in s.candidates && id !in s.aliases ==> r.value == s.candidates[id]))
            && (id !in s.candidates && id in s'.candidates <==> r.Ok? && !KeyUsed(s, id) && !TakenIn(s, id, p, now))
            && (id !in s.candidates && id in s'.candidates ==>
                  s'.candidates[id] == r.value && Suggested(r.value, id, p, now))
            && s'.claims == s.claims && s'.outbox == s.outbox && s'.generation == s.generation
  {
    hide Merged, AnnotatedTask;
  }

  /** A fresh suggestion, to be shown for two days. */
  predicate Suggested(c: Candidate, id: CandidateKey, p: Proposal, now: int) {
    && c.key == id && c.proposal == p && c.status == Pending && c.resultTask.None? && c.resolvedAt.None?
    && c.createdAt == now && c.expiresAt == Some(now + 2 * 86400)
  }

  /** `c` is the larger of `a` and `b`. */
  predicate Larger(c: int, a: int, b: int) {
    c >= a && c >= b && (c == a || c == b)
  }

  predicate LargerOption(c: Option<int>, a: Option<int>, b: Option<int>) {
    && (c.None? <==> a.None? && b.None?)
    && (c.Some? ==> (a.Some? ==> a.value <= c.value) && (b.Some? ==> b.value <= c.value) && (c == a || c == b))
  }

  /** Taking a capture in keeps everything but the annotations, and takes the stronger of each. */
  lemma CaptureIsTakenIn(s: Store, generation: nat, key: string, p: Proposal, now: int)
    requires !KeyUsed(s, CandidateKey(generation, key)) && !Blank(key) && s.generation == generation
    requires TakenIn(s, CandidateKey(generation, key), p, now)
    ensures var (s', r) := CreateTxn(s, generation, key, p, now);
            var at := s.pending[SemanticKey(generation, p.identity)];
            var c := s.candidates[at];
            && r.Ok? && s'.candidates == s.candidates[at := r.value]
            && s'.aliases[CandidateKey(generation, key)].target == c.key
            && r.value == c.(proposal := r.value.proposal)
            && r.value.proposal == c.proposal.(
                 evidence := r.value.proposal.evidence, capture := r.value.proposal.capture,
                 ownership := r.value.proposal.ownership, dueConfidence := r.value.proposal.dueConfidence,
                 priority := r.value.proposal.priority)
            && Larger(r.value.proposal.capture, c.proposal.capture, p.capture)
            && Larger(r.value.proposal.ownership, c.proposal.ownership, p.ownership)
            && (c.proposal.action == CreateTask ==>
                  && LargerOption(r.value.proposal.dueConfidence, c.proposal.dueConfidence, p.dueConfidence)
                  && LargerOption(r.value.proposal.priority, c.proposal.priority, p.priority))
            && (forall x :: x in r.value.proposal.evidence ==> x in c.proposal.evidence || x in p.evidence)
            && EvidenceKept(c.proposal.evidence, r.value.proposal.evidence)
  {
    hide MergedEvidence, EvidenceKept, AnnotatedTask;
    MergeKeepsExisting(s.candidates[s.pending[SemanticKey(generation, p.identity)]].proposal.evidence, p.evidence);
  }

  /** This create takes its capture in to a Candidate that stands as a task. */
  predicate TakenInByTask(s: Store, id: CandidateKey, key: string, p: Proposal, now: int) {
    && !Blank(key) && s.generation == id.generation && !KeyUsed(s, id) && TakenIn(s, id, p, now)
    && StandsAsTask(s, s.candidates[s.pending[SemanticKey(id.generation, p.identity)]], id.generation)
  }

  /** Exactly then the create also strengthens that task, and it touches no other one. */
  lemma TaskIsAnnotated(s: Store, generation: nat, key: string, p: Proposal, now: int)
    ensures var (s', r) := CreateTxn(s, generation, key, p, now);
            if TakenInByTask(s, CandidateKey(generation, key), key, p, now) then
              && r.Ok? && r.value.resultTask.Some? && r.value.resultTask.value in s.tasks
              && var t := r.value.resultTask.value;
                 && s'.tasks == s.tasks[t := s'.tasks[t]]
                 && Annotates(s.tasks[t], s'.tasks[t], r.value.proposal)
            else s'.tasks == s.tasks
  {
    hide MergedEvidence;
    var id := CandidateKey(generation, key);
    if TakenInByTask(s, id, key, p, now) {
      var c := Merged(s.candidates[s.pending[SemanticKey(generation, p.identity)]], p);
      AnnotationsTaken(s.tasks[c.resultTask.value], c);
    }
  }

  ghost predicate Annotates(t: Task, t': Task, p: Proposal) {
    && Larger(t'.capture, t.capture, p.capture) && Larger(t'.ownership, t.ownership, p.ownership)
    && LargerOption(t'.dueConfidence, t.dueConfidence, p.dueConfidence)
    && LargerOption(t'.priority, t.priority, p.priority)
    && (forall x :: x in t'.provenance <==> x in t.provenance || x in p.evidence)
    && t' == t.(capture := t'.capture, ownership := t'.ownership, dueConfidence := t'.dueConfidence,
                priority := t'.priority, provenance := t'.provenance)
  }

  lemma AnnotationsTaken(t: Task, c: Candidate)
    ensures Annotates(t, AnnotatedTask(t, c), c.proposal)
  {
    hide Distinct;
    DistinctMembers(t.provenance + c.proposal.evidence);
  }

  // ----- what an accepted create has brought about -----

  lemma TasksStay(s: Store, op: Op, now: int, task: TaskKey)
    requires task in s.tasks
    ensures task in Apply(s, op, now).tasks
  {
    hide CreateTxn, ResolveTxn, CloseTxn, ReconcileTxn, ClaimPromotionTxn, BeginPromotionTxn, RowAfter;
    match op
    case Create(g, key, p) => TaskIsAnnotated(s, g, key, p, now);
    case Resolve(g, id, valid, changed) => ResolveKeepsTasks(s, g, id, valid, changed, now, task);
    case Close(g, id, status) => CloseGrantedIff(s, g, id, status, now);
    case Reconcile(g, id, status, t, token, at) => ReconcileGrantedIff(s, g, id, status, t, token, at);
    case ClaimPromotion(g, id, minted, lease, resume) => PromotionClaimedIff(s, g, id, minted, lease, resume, now);
    case BeginPromotion(g, id, token, t, preferred, committed, lease) =>
      PromotionBegunIff(s, g, id, token, t, preferred, committed, lease, now);
    case _ =>
  }

  lemma ResolveKeepsTasks(s: Store, generation: nat, id: CandidateKey, linksValid: bool, changed: Task, now: int,
                          task: TaskKey)
    requires task in s.tasks
    ensures task in ResolveTxn(s, generation, id, linksValid, changed, now).0.tasks
  {
  }

  /**
    Once a create has been newly accepted, its task exists in every later state of every run, and so does its
    row in the outbox.
  */
  lemma {:induction false} AcceptedTaskExists(tr: seq<State>, es: seq<Event>, i: nat, n: nat, id: CandidateKey)
    requires IsRun(tr, es) && i < n <= |es| && RowsFollowAcceptance(tr[0].store)
    requires es[i].op.Resolve? && es[i].op.id == id && Answer(tr[i], es[i]).Ok?
             && Answer(tr[i], es[i]).value.newlyResolved
    requires id in tr[i].store.candidates && tr[i].store.candidates[id].proposal.action == CreateTask
    ensures CandidateTask(es[i].op.generation, id) in tr[n].store.tasks && id in tr[n].store.outbox
  {
    hide Apply, ResolveTxn;
    assert Follows(tr, es, n - 1);
    if n == i + 1 {
      AcceptLeavesTaskAndRow(tr[i], es[i]);
    } else {
      AcceptedTaskExists(tr, es, i, n - 1, id);
      TasksStay(tr[n - 1].store, es[n - 1].op, tr[n].clock, CandidateTask(es[i].op.generation, id));
      RowsAlwaysFollowAcceptance(tr, es, n - 1);
      RowStep(tr[n - 1].store, es[n - 1].op, tr[n].clock, id);
    }
  }

  lemma AcceptLeavesTaskAndRow(st: State, e: Event)
    requires e.op.Resolve? && Answer(st, e).Ok? && Answer(st, e).value.newlyResolved
    requires e.op.id in st.store.candidates && st.store.candidates[e.op.id].proposal.action == CreateTask
    ensures CandidateTask(e.op.generation, e.op.id) in Next(st, e).store.tasks && e.op.id in Next(st, e).store.outbox
  {
    hide ResolveTxn;
    var op, now := e.op, st.clock + e.elapsed;
    AcceptGrantedIff(st.store, op.generation, op.id, op.linksValid, op.changed, now);
    AcceptResolves(st.store, op.generation, op.id, op.linksValid, op.changed, now);
    AcceptedCreateMakesItsTask(st.store, op.generation, op.id, op.linksValid, op.changed, now);
  }

  // ----- how long a dispatch lease lasts -----

  /** This event ends the lease of `token` on the row: its owner reports, or the row is parked as malformed. */
  predicate EndsDispatch(e: Event, id: CandidateKey, token: Token) {
    && e.op.Dispatch? && e.op.id == id
    && ((e.op.op.CompleteDispatch? && e.op.op.token == token) || e.op.op.ParkMalformed?)
  }

  /** The row is still being worked on under this token, since then, or it is settled. */
  predicate StillDispatched(row: Row, token: Token, since: int) {
    (row.status == Processing && row.token == Some(token) && row.claimedAt == Some(since)) || Settled(row)
  }

  lemma RowKeepsDispatch(row: Row, op: RowOp, control: nat, now: int, token: Token, since: int)
    requires StillDispatched(row, token, since)
    requires !(op.CompleteDispatch? && op.token == token) && !op.ParkMalformed?
    requires op.ClaimDispatch? ==> now < since + op.leaseSeconds
    ensures StillDispatched(RowAfter(row, op, control, now), token, since)
    ensures op.ClaimDispatch? ==> ClaimDispatchTxn(row, control, op.generation, op.leaseSeconds, op.token, now).1.None?
  {
  }

  /** No claim of the row in these events asks for a lease so short that the first one has ended by it. */
  predicate InsideLease(tr: seq<State>, es: seq<Event>, i: nat, n: nat, id: CandidateKey)
    requires |tr| == |es| + 1 && i < n <= |es|
  {
    forall m :: i < m < n && es[m].op.Dispatch? && es[m].op.id == id && es[m].op.op.ClaimDispatch? ==>
      tr[m + 1].clock < tr[i + 1].clock + es[m].op.op.leaseSeconds
  }

  lemma {:induction false} DispatchHolds(tr: seq<State>, es: seq<Event>, i: nat, n: nat, id: CandidateKey)
    requires IsRun(tr, es) && i < n <= |es| && RowsFollowAcceptance(tr[0].store) && Leased(tr[i], es[i], id).Some?
    requires InsideLease(tr, es, i, n, id)
    requires forall m :: i < m < n ==> !EndsDispatch(es[m], id, Leased(tr[i], es[i], id).value)
    ensures id in tr[n].store.outbox
    ensures StillDispatched(tr[n].store.outbox[id], Leased(tr[i], es[i], id).value, tr[i + 1].clock)
  {
    hide Apply, StillDispatched, RowAfter;
    assert Follows(tr, es, n - 1) && Follows(tr, es, i);
    if n == i + 1 {
      LeaseIsStored(tr[i], es[i], id);
    } else {
      assert InsideLease(tr, es, i, n - 1, id);
      DispatchHolds(tr, es, i, n - 1, id);
      RowsAlwaysFollowAcceptance(tr, es, n - 1);
      RowStep(tr[n - 1].store, es[n - 1].op, tr[n].clock, id);
      assert !EndsDispatch(es[n - 1], id, Leased(tr[i], es[i], id).value);
      if es[n - 1].op.Dispatch? && es[n - 1].op.id == id {
        RowKeepsDispatch(tr[n - 1].store.outbox[id], es[n - 1].op.op, tr[n - 1].store.generation, tr[n].clock,
                         Leased(tr[i], es[i], id).value, tr[i + 1].clock);
      }
    }
  }

  lemma LeaseIsStored(st: State, e: Event, id: CandidateKey)
    requires Leased(st, e, id).Some?
    ensures id in Next(st, e).store.outbox
    ensures StillDispatched(Next(st, e).store.outbox[id], Leased(st, e, id).value, st.clock + e.elapsed)
  {
  }

  /**
    One dispatcher at a time. A row leased at event i is leased again at event k only after the lease time
    that the claim at k, or an earlier one in between, allows, unless the first owner reported an outcome or
    the row was parked meanwhile.
  */
  lemma DispatchLeasesAreSpaced(tr: seq<State>, es: seq<Event>, i: nat, k: nat, id: CandidateKey)
    requires IsRun(tr, es) && i < k < |es| && RowsFollowAcceptance(tr[0].store)
    requires Leased(tr[i], es[i], id).Some? && Leased(tr[k], es[k], id).Some?
    ensures || !InsideLease(tr, es, i, k + 1, id)
            || exists m :: i < m < k && EndsDispatch(es[m], id, Leased(tr[i], es[i], id).value)
  {
    var token := Leased(tr[i], es[i], id).value;
    if InsideLease(tr, es, i, k + 1, id) && forall m :: i < m < k ==> !EndsDispatch(es[m], id, token) {
      NoLeaseMeanwhile(tr, es, i, k, id);
    }
  }

  lemma NoLeaseMeanwhile(tr: seq<State>, es: seq<Event>, i: nat, k: nat, id: CandidateKey)
    requires IsRun(tr, es) && i < k < |es| && RowsFollowAcceptance(tr[0].store) && Leased(tr[i], es[i], id).Some?
    requires InsideLease(tr, es, i, k + 1, id)
    requires forall m :: i < m < k ==> !EndsDispatch(es[m], id, Leased(tr[i], es[i], id).value)
    ensures Leased(tr[k], es[k], id).None?
  {
    hide Apply, StillDispatched;
    assert InsideLease(tr, es, i, k, id);
    DispatchHolds(tr, es, i, k, id);
    RunningDispatchIsRefused(tr, es, i, k, id);
  }

  lemma RunningDispatchIsRefused(tr: seq<State>, es: seq<Event>, i: nat, k: nat, id: CandidateKey)
    requires IsRun(tr, es) && i < k < |es| && Leased(tr[i], es[i], id).Some?
    requires InsideLease(tr, es, i, k + 1, id)
    requires id in tr[k].store.outbox
    requires StillDispatched(tr[k].store.outbox[id], Leased(tr[i], es[i], id).value, tr[i + 1].clock)
    ensures Leased(tr[k], es[k], id).None?
  {
    assert Follows(tr, es, k);
    if Leased(tr[k], es[k], id).Some? {
      RowKeepsDispatch(tr[k].store.outbox[id], es[k].op.op, tr[k].store.generation, tr[k + 1].clock,
                       Leased(tr[i], es[i], id).value, tr[i + 1].clock);
    }
  }
}
