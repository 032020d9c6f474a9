/**
  The Candidate documents of one user and the transactions over them: creation with idempotency
  aliases and semantic coalescing, the ways a suggestion is resolved, and the two-phase claim that
  fences a legacy promotion.
*/
module CandidateRecords {
  import opened Prelude
  import opened CandidateAnnotations
  import opened IntegrationOutbox

  const SUGGESTION_TTL: nat := 2 * 86400

  /** Candidate ids and idempotency hashes are digests of this pair; the digests are taken to be injective. */
  datatype CandidateKey = CandidateKey(generation: nat, idempotencyKey: string)
  datatype TaskKey = CandidateTask(generation: nat, candidate: CandidateKey) | NamedTask(id: string)
  datatype SemanticKey = SemanticKey(generation: nat, identity: string)

  datatype Subject = TaskSubject | WorkstreamSubject
  datatype Action = CreateTask | ChangeTask

  /** `identity` is the canonical semantic payload of a task create; the rest are annotations. */
  datatype Proposal = Proposal(
    subject: Subject,
    action: Action,
    identity: string,
    target: Option<TaskKey>,
    evidence: seq<Evidence>,
    capture: int,
    ownership: int,
    dueConfidence: Option<int>,
    priority: Option<int>)

  datatype Status = Pending | Accepted | Rejected | Expired

  datatype Candidate = Candidate(
    key: CandidateKey,
    proposal: Proposal,
    status: Status,
    resultTask: Option<TaskKey>,
    resolvedAt: Option<int>,
    createdAt: int,
    expiresAt: Option<int>)

  datatype Alias = Alias(target: CandidateKey, request: Proposal, generation: nat)

  datatype Phase = PreMutation | MutationStarted
  datatype ReservationKind = ReservedCreate | ReservedExisting | ReservedCommitted
  datatype PromotionClaim = PromotionClaim(
    active: bool, token: Token, phase: Phase, leaseExpiresAt: int, task: Option<TaskKey>, kind: Option<ReservationKind>)

  datatype Task = Task(
    candidate: Option<CandidateKey>, generation: nat, active: bool, identity: string,
    provenance: seq<Evidence>, capture: int, ownership: int, dueConfidence: Option<int>, priority: Option<int>)

  datatype Store = Store(
    generation: nat,
    candidates: map<CandidateKey, Candidate>,
    aliases: map<CandidateKey, Alias>,
    pending: map<SemanticKey, CandidateKey>,
    claims: map<CandidateKey, PromotionClaim>,
    tasks: map<TaskKey, Task>,
    outbox: map<CandidateKey, Row>)

  datatype StoreError = NotFound | Conflict | GenerationMismatch | ResolverUnavailable | Invalid
  datatype Result<+T> = Ok(value: T) | Refused(error: StoreError)

  datatype Receipt = Receipt(candidate: CandidateKey, status: Status, task: Option<TaskKey>, newlyResolved: bool,
                             resolvedAt: Option<int>)
  datatype Reservation = Reservation(task: TaskKey, kind: ReservationKind)

  predicate Blank(key: string) {
    forall c :: c in key ==> c == ' ' || c == '\t' || c == '\n'
  }

  /** Only task creates have a semantic identity. */
  function SemanticIdentity(p: Proposal): (identity: Option<string>) {
    if p.subject.TaskSubject? && p.action.CreateTask? then Some(p.identity) else None
  }

  /** Pending, but past the time until which it may still be shown. */
  predicate Lapsed(c: Candidate, now: int) {
    c.status.Pending? && (if c.expiresAt.Some? then c.expiresAt.value else c.createdAt + SUGGESTION_TTL) <= now
  }

  predicate OwnerActive(claim: PromotionClaim, now: int) {
    claim.active && claim.leaseExpiresAt > now
  }

  /** A started mutation blocks every other resolution for ever; before that only a live lease does. */
  predicate BlocksResolution(claim: PromotionClaim, now: int) {
    claim.active && (claim.phase.MutationStarted? || claim.leaseExpiresAt > now)
  }

  predicate Blocked(s: Store, id: CandidateKey, now: int) {
    id in s.claims && BlocksResolution(s.claims[id], now)
  }

  function Merged(c: Candidate, p: Proposal): (c': Candidate) {
    c.(proposal := c.proposal.(
      evidence := MergedEvidence(c.proposal.evidence, p.evidence),
      capture := Max(c.proposal.capture, p.capture),
      ownership := Max(c.proposal.ownership, p.ownership),
      dueConfidence :=
        if c.proposal.action.CreateTask? && p.action.CreateTask?
        then MaxOption(c.proposal.dueConfidence, p.dueConfidence) else c.proposal.dueConfidence,
      priority :=
        if c.proposal.action.CreateTask? && p.action.CreateTask?
        then MaxOption(c.proposal.priority, p.priority) else c.proposal.priority))
  }

  lemma MergeKeepsKey(c: Candidate, p: Proposal)
    ensures Merged(c, p).key == c.key && Merged(c, p).resultTask == c.resultTask
  {
  }

  function AnnotatedTask(t: Task, c: Candidate): (t': Task) {
    t.(capture := Max(t.capture, c.proposal.capture),
       ownership := Max(t.ownership, c.proposal.ownership),
       provenance := Distinct(t.provenance + c.proposal.evidence),
       dueConfidence := MaxOption(t.dueConfidence, c.proposal.dueConfidence),
       priority := MaxOption(t.priority, c.proposal.priority))
  }

  /** The Candidate that already holds this proposal's semantic identity in this generation. */
  function Holder(s: Store, generation: nat, p: Proposal): (c: Option<Candidate>) {
    var identity := SemanticIdentity(p);
    if identity.None? then None
    else
      var k := SemanticKey(generation, identity.value);
      if k in s.pending && s.pending[k] in s.candidates && s.candidates[s.pending[k]].key.generation == generation
      then Some(s.candidates[s.pending[k]])
      else None
  }

  predicate ReusablePending(c: Candidate, now: int) {
    c.status.Pending? && !Lapsed(c, now)
  }

  predicate ReusableAccept(s: Store, c: Candidate, generation: nat) {
    && c.status.Accepted? && c.resultTask.Some? && c.resultTask.value in s.tasks
    && var t := s.tasks[c.resultTask.value];
       && (t.generation == 0 || t.generation == generation)
       && t.active
       && t.identity == c.proposal.identity
  }

  function NewCandidate(id: CandidateKey, p: Proposal, now: int): (c: Candidate) {
    Candidate(id, p, Pending, None, None, now, Some(now + SUGGESTION_TTL))
  }

  function CreateTxn(s: Store, generation: nat, key: string, p: Proposal, now: int): (r: (Store, Result<Candidate>)) {
    var id := CandidateKey(generation, key);
    if Blank(key) then (s, Refused(Invalid))
    else if s.generation != generation then (s, Refused(GenerationMismatch))
    else if id in s.aliases then
      var alias := s.aliases[id];
      if alias.generation != generation || alias.request != p then (s, Refused(Conflict))
      else if alias.target !in s.candidates then (s, Refused(Conflict))
      else if s.candidates[alias.target].key.generation != generation then (s, Refused(Conflict))
      else (s, Ok(s.candidates[alias.target]))
    else if id in s.candidates then
      if s.candidates[id].proposal != p then (s, Refused(Conflict))
      else (s.(aliases := s.aliases[id := Alias(id, p, generation)]), Ok(s.candidates[id]))
    else
      var holder := Holder(s, generation, p);
      if holder.Some? && (ReusablePending(holder.value, now) || ReusableAccept(s, holder.value, generation)) then
        var merged := Merged(holder.value, p);
        (s.(candidates := s.candidates[s.pending[SemanticKey(generation, p.identity)] := merged],
            tasks := if ReusableAccept(s, holder.value, generation)
                     then s.tasks[merged.resultTask.value := AnnotatedTask(s.tasks[merged.resultTask.value], merged)]
                     else s.tasks,
            aliases := s.aliases[id := Alias(merged.key, p, generation)],
            pending := s.pending[SemanticKey(generation, p.identity) := merged.key]),
         Ok(merged))
      else
        var record := NewCandidate(id, p, now);
        (s.(candidates := s.candidates[id := record],
            aliases := s.aliases[id := Alias(id, p, generation)],
            pending := if SemanticIdentity(p).Some? then s.pending[SemanticKey(generation, p.identity) := id]
                       else s.pending),
         Ok(record))
  }

  /** The guards shared by every resolution: the account generation, the document, and its own generation. */
  function Guarded(s: Store, generation: nat, id: CandidateKey): (r: Result<Candidate>) {
    if s.generation != generation then Refused(GenerationMismatch)
    else if id !in s.candidates then Refused(NotFound)
    else if s.candidates[id].key.generation != generation then Refused(GenerationMismatch)
    else Ok(s.candidates[id])
  }

  function CreatedTask(c: Candidate): (t: Task) {
    Task(Some(c.key), c.key.generation, true, c.proposal.identity, c.proposal.evidence,
         c.proposal.capture, c.proposal.ownership, c.proposal.dueConfidence, c.proposal.priority)
  }

  function Resolved(c: Candidate, status: Status, task: Option<TaskKey>, at: int): (c': Candidate) {
    c.(status := status,
       resultTask := if task.Some? then task else c.resultTask,
       resolvedAt := Some(at),
       expiresAt := None)
  }

  /**
    Accepts a task Candidate. `linksValid` is the verdict of the relationship checks, and `changed` the
    patched task of a change proposal; both come from outside this store.
  */
  function ResolveTxn(s: Store, generation: nat, id: CandidateKey, linksValid: bool, changed: Task, now: int)
    : (r: (Store, Result<Receipt>))
  {
    var guarded := Guarded(s, generation, id);
    if guarded.Refused? then (s, Refused(guarded.error))
    else
      var c := guarded.value;
      if c.status.Accepted? then (s, Ok(Receipt(id, Accepted, c.resultTask, false, c.resolvedAt)))
      else if !c.status.Pending? then (s, Refused(Conflict))
      else if Blocked(s, id, now) then (s, Refused(Conflict))
      else if c.proposal.subject.WorkstreamSubject? then (s, Refused(ResolverUnavailable))
      else if c.proposal.action.CreateTask? then
        var task := CandidateTask(generation, id);
        if !linksValid then (s, Refused(Conflict))
        else if task in s.tasks && s.tasks[task].candidate != Some(id) then (s, Refused(Conflict))
        else
          (s.(tasks := if task in s.tasks then s.tasks else s.tasks[task := CreatedTask(c)],
              candidates := s.candidates[id := Resolved(c, Accepted, Some(task), now)],
              outbox := s.outbox[id := NewRow(generation)]),
           Ok(Receipt(id, Accepted, Some(task), true, Some(now))))
      else if c.proposal.target.None? || c.proposal.target.value !in s.tasks then (s, Refused(NotFound))
      else
        var task := c.proposal.target.value;
        var current := s.tasks[task];
        if current.generation != 0 && current.generation != generation then (s, Refused(GenerationMismatch))
        else if !linksValid then (s, Refused(Conflict))
        else
          (s.(tasks := s.tasks[task := changed.(generation := generation)],
              candidates := s.candidates[id := Resolved(c, Accepted, Some(task), now)]),
           Ok(Receipt(id, Accepted, Some(task), true, Some(now))))
  }

  /** Rejects or expires a Candidate; no task is touched. */
  function CloseTxn(s: Store, generation: nat, id: CandidateKey, status: Status, now: int)
    : (r: (Store, Result<Receipt>))
  {
    if !status.Rejected? && !status.Expired? then (s, Refused(Invalid))
    else
      var guarded := Guarded(s, generation, id);
      if guarded.Refused? then (s, Refused(guarded.error))
      else
        var c := guarded.value;
        if c.status == status then (s, Ok(Receipt(id, status, None, false, c.resolvedAt)))
        else if !c.status.Pending? then (s, Refused(Conflict))
        else if Blocked(s, id, now) then (s, Refused(Conflict))
        else
          (s.(candidates := s.candidates[id := Resolved(c, status, None, now)]),
           Ok(Receipt(id, status, None, true, Some(now))))
  }

  /** Resolves to a status that some older system already reached, at the time `at` its caller states. */
  function ReconcileTxn(s: Store, generation: nat, id: CandidateKey, status: Status, task: Option<TaskKey>,
                        token: Option<Token>, at: int)
    : (r: (Store, Result<Candidate>))
  {
    if status.Pending? || (status.Accepted? && task.None?) then (s, Refused(Invalid))
    else
      var guarded := Guarded(s, generation, id);
      if guarded.Refused? then (s, Refused(guarded.error))
      else
        var c := guarded.value;
        if c.status == status then (s, Ok(c))
        else if !c.status.Pending? then (s, Refused(Conflict))
        else if Blocked(s, id, at) && (
               || token != Some(s.claims[id].token)
               || !OwnerActive(s.claims[id], at)
               || !s.claims[id].phase.MutationStarted?
               || !status.Accepted?
               || s.claims[id].task != task) then (s, Refused(Conflict))
        else if !Blocked(s, id, at) && token.Some? then (s, Refused(Conflict))
        else
          var resolved := Resolved(c, status, task, at);
          (s.(candidates := s.candidates[id := resolved],
              claims := if token.Some? then s.claims[id := s.claims[id].(active := false)] else s.claims),
           Ok(resolved))
  }

  /** First phase of a promotion: hands out a token whose lease keeps other resolutions away until it expires. */
  function ClaimPromotionTxn(s: Store, generation: nat, id: CandidateKey, minted: Token, leaseSeconds: nat,
                             resume: bool, now: int)
    : (r: (Store, Result<Token>))
  {
    var guarded := Guarded(s, generation, id);
    if guarded.Refused? then (s, Refused(guarded.error))
    else if !guarded.value.status.Pending? then (s, Refused(Conflict))
    else if id in s.claims && OwnerActive(s.claims[id], now) then
      if resume then (s, Ok(s.claims[id].token)) else (s, Refused(Conflict))
    else if id in s.claims && s.claims[id].active && s.claims[id].phase.MutationStarted? then
      if s.claims[id].task.None? then (s, Refused(Conflict))
      else
        (s.(claims := s.claims[id := s.claims[id].(token := minted, leaseExpiresAt := now + leaseSeconds)]), Ok(minted))
    else
      (s.(claims := s.claims[id := PromotionClaim(true, minted, PreMutation, now + leaseSeconds, None, None)]),
       Ok(minted))
  }

  function Reserve(s: Store, task: TaskKey, preferred: Option<TaskKey>, committed: bool): (r: Reservation) {
    if committed then Reservation(task, ReservedCommitted)
    else if preferred.Some? && preferred.value in s.tasks && s.tasks[preferred.value].active
    then Reservation(preferred.value, ReservedExisting)
    else Reservation(task, ReservedCreate)
  }

  /** Second phase: fixes the task under which the Candidate will be accepted, whatever becomes of the lease. */
  function BeginPromotionTxn(s: Store, generation: nat, id: CandidateKey, token: Token, task: TaskKey,
                             preferred: Option<TaskKey>, committed: bool, leaseSeconds: nat, now: int)
    : (r: (Store, Result<Reservation>))
  {
    var guarded := Guarded(s, generation, id);
    if guarded.Refused? then (s, Refused(guarded.error))
    else if !guarded.value.status.Pending? then (s, Refused(Conflict))
    else if id !in s.claims then (s, Refused(Conflict))
    else
      var claim := s.claims[id];
      if !claim.active || claim.token != token then (s, Refused(Conflict))
      else if !OwnerActive(claim, now) then (s, Refused(Conflict))
      else if claim.phase.MutationStarted? then
        if claim.task.None? || claim.kind.None? then (s, Refused(Conflict))
        else (s, Ok(Reservation(claim.task.value, claim.kind.value)))
      else
        var reservation := Reserve(s, task, preferred, committed);
        (s.(claims := s.claims[id := claim.(phase := MutationStarted, task := Some(reservation.task),
                                            kind := Some(reservation.kind), leaseExpiresAt := now + leaseSeconds)]),
         Ok(reservation))
  }

  function DispatchTxn(s: Store, id: CandidateKey, op: RowOp, now: int): (s': Store) {
    if id in s.outbox then s.(outbox := s.outbox[id := RowAfter(s.outbox[id], op, s.generation, now)]) else s
  }

  // ----- runs -----

  datatype Op =
    | Create(generation: nat, key: string, proposal: Proposal)
    | Resolve(generation: nat, id: CandidateKey, linksValid: bool, changed: Task)
    | Close(generation: nat, id: CandidateKey, status: Status)
    | Reconcile(generation: nat, id: CandidateKey, status: Status, result: Option<TaskKey>, presented: Option<Token>,
                at: int)
    | ClaimPromotion(generation: nat, id: CandidateKey, minted: Token, leaseSeconds: nat, resume: bool)
    | BeginPromotion(generation: nat, id: CandidateKey, token: Token, task: TaskKey, preferred: Option<TaskKey>,
                     committed: bool, leaseSeconds: nat)
    | Dispatch(id: CandidateKey, op: RowOp)
    | EditTask(task: TaskKey, edited: Task)        // the user or another writer changes a task
    | MoveGeneration(generation: nat)              // the account control document changes

  datatype Event = Event(elapsed: nat, op: Op)
  datatype State = State(store: Store, clock: int)

  function Apply(s: Store, op: Op, now: int): (s': Store) {
    match op
    case Create(g, key, p) => CreateTxn(s, g, key, p, now).0
    case Resolve(g, id, valid, changed) => ResolveTxn(s, g, id, valid, changed, now).0
    case Close(g, id, status) => CloseTxn(s, g, id, status, now).0
    case Reconcile(g, id, status, task, token, at) => ReconcileTxn(s, g, id, status, task, token, at).0
    case ClaimPromotion(g, id, minted, lease, resume) => ClaimPromotionTxn(s, g, id, minted, lease, resume, now).0
    case BeginPromotion(g, id, token, task, preferred, committed, lease) =>
      BeginPromotionTxn(s, g, id, token, task, preferred, committed, lease, now).0
    case Dispatch(id, rowOp) => DispatchTxn(s, id, rowOp, now)
    case EditTask(task, edited) => s.(tasks := s.tasks[task := edited])
    case MoveGeneration(g) => s.(generation := g)
  }

  function Next(st: State, e: Event): (st': State) {
    State(Apply(st.store, e.op, st.clock + e.elapsed), st.clock + e.elapsed)
  }

  /** `tr` is the run that the events `es` produce from its first state. */
  ghost predicate IsRun(tr: seq<State>, es: seq<Event>) {
    && |tr| == |es| + 1
    && forall i :: 0 <= i < |es| ==> Follows(tr, es, i)
  }

  predicate Follows(tr: seq<State>, es: seq<Event>, i: nat)
    requires i < |es| && i + 1 < |tr|
  {
    tr[i + 1] == Next(tr[i], es[i])
  }
}
