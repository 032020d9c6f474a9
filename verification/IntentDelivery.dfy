/**
  Durable delivery of proactive intents: each intent is handed to a client kernel a bounded number of
  times, then parked as a dead letter that a repair may requeue once. The documents that share one
  intent id form a slot, and every transaction reads and writes one slot.
*/
module IntentDelivery {
  import opened Prelude

  const UNACKNOWLEDGED_FETCH_BUDGET: nat := 20
  const MATERIALIZATION_REJECTION_BUDGET: nat := 3
  const TRANSIENT_DEAD_LETTER_REPAIR_AGE: nat := 6 * 3600
  const CONTINUOUS_DEFERRAL_BUDGET: nat := 7 * 86400

  datatype Source = DailyOpener | CaptureArrival | DeferralReraise | AgentJudgment | ColdStartRich | ColdStartSparse
  datatype SourceKey = Of(source: Source) | ColdStart

  /** Stable ids are digests of these parts; the digest is taken to be injective. */
  datatype IntentId = IntentId(generation: nat, sourceKey: SourceKey, continuity: string)

  datatype Block = CaptureLink(id: string) | ConversationLink(id: string) | OtherBlock(id: string)
  datatype DeliveryState = Ready | PendingReceipt | Delivered | DeadLettered
  datatype Code = InvalidIntent | IdentityConflict | KernelFailed | OtherCode(name: string)
  datatype Reason =
    | Unacknowledged | TransientAfterRequeue | PermanentRejection(code: Code)
    | DeferredBeyondBudget | StaleCapture | SupersededCapture
  datatype Receipt = KernelReceipt(id: string) | ReconciledReceipt

  datatype Intent = Intent(
    id: IntentId,
    source: Source,
    subject: Option<string>,
    blocks: seq<Block>,
    state: DeliveryState,
    createdAt: int,
    deliveredAt: Option<int>,
    receipt: Option<Receipt>,
    reason: Option<Reason>)

  /** Delivery bookkeeping, a document of its own that outlives the intent document. */
  datatype Attempt = Attempt(
    fetches: nat,
    lastFetched: Option<int>,
    requeues: nat,
    rejections: nat,
    lastCode: Option<Code>,
    lastRejection: Option<int>,
    firstDeferred: Option<int>,
    lastDeferral: Option<int>)

  /** An intent as a reader sees it, with its delivery bookkeeping. */
  datatype Hydrated = Hydrated(intent: Intent, attempt: Attempt)

  /** What one fetch comes to; all but a hand-out and a miss are reported as lifecycle events. */
  datatype Fetch = Missed | Reconciled | Parked(reason: Reason) | HandedOut(fetched: Hydrated)

  datatype DeadLetter = DeadLetter(intent: Intent, attempt: Attempt)
  datatype Deferral = Deferral(pending: bool, subject: Option<string>, question: Block)

  datatype Slot = Slot(active: Option<Intent>, attempt: Option<Attempt>, dead: Option<DeadLetter>,
                       deferral: Option<Deferral>)

  datatype StoreError = GenerationMismatch | DocumentGenerationMismatch | Conflict | BudgetExhausted | NotReady
  datatype Result<+T> = Ok(value: T) | Refused(error: StoreError)

  const NoAttempt := Attempt(0, None, 0, 0, None, None, None, None)
  const EmptySlot := Slot(None, None, None, None)

  /** The attempt state a reader of the intent document sees. */
  function AttemptOf(slot: Slot): (a: Attempt) {
    if slot.attempt.Some? then slot.attempt.value else NoAttempt
  }

  /** A dead letter carries its own attempt fields; the sibling document wins when it exists. */
  function DeadAttempt(slot: Slot): (a: Attempt)
    requires slot.dead.Some?
  {
    if slot.attempt.Some? then slot.attempt.value else slot.dead.value.attempt
  }

  predicate Open(intent: Intent) {
    intent.state.Ready? || intent.state.PendingReceipt?
  }

  predicate Transient(reason: Option<Reason>) {
    reason == Some(Unacknowledged) || reason == Some(PermanentRejection(KernelFailed))
  }

  predicate Permanent(code: Code) {
    code.InvalidIntent? || code.IdentityConflict?
  }

  predicate IsCaptureReceipt(intent: Intent) {
    intent.source.CaptureArrival? && forall b :: b in intent.blocks ==> b.CaptureLink?
  }

  predicate SameContent(intent: Intent, source: Source, subject: Option<string>, blocks: seq<Block>) {
    intent.source == source && intent.subject == subject && intent.blocks == blocks
  }

  /** The terminal record keeps the hydrated attempt, with a non-null time to order repairs by. */
  function Bury(slot: Slot, intent: Intent, reason: Reason, attempt: Attempt, now: int): (slot': Slot) {
    var stamped := if attempt.lastFetched.None? then attempt.(lastFetched := Some(now)) else attempt;
    slot.(active := None, dead := Some(DeadLetter(intent.(state := DeadLettered, reason := Some(reason)), stamped)))
  }

  // ----- creation -----

  function NewIntent(id: IntentId, source: Source, subject: Option<string>, blocks: seq<Block>, state: DeliveryState,
                     now: int): (i: Intent)
  {
    Intent(id, source, subject, blocks, state, now, None, None, None)
  }

  /** `admitted` is the turn budget's answer, asked only for agent judgments. */
  function CreateTxn(slot: Slot, id: IntentId, control: nat, source: Source, subject: Option<string>,
                     blocks: seq<Block>, admitted: bool, now: int)
    : (r: (Slot, Result<(Intent, bool)>))
  {
    if control != id.generation then (slot, Refused(GenerationMismatch))
    else if slot.active.Some? then
      (slot, if SameContent(slot.active.value, source, subject, blocks)
             then Ok((slot.active.value, false)) else Refused(Conflict))
    else if slot.dead.Some? then
      (slot, if SameContent(slot.dead.value.intent, source, subject, blocks)
             then Ok((slot.dead.value.intent, false)) else Refused(Conflict))
    else if source.AgentJudgment? && !admitted then (slot, Refused(BudgetExhausted))
    else
      var intent := NewIntent(id, source, subject, blocks, Ready, now);
      (slot.(active := Some(intent)), Ok((intent, true)))
  }

  /** The first-run intent: its id ignores the sampled source, and dead letters are not consulted. */
  function ColdStartTxn(slot: Slot, id: IntentId, control: nat, source: Source, subject: Option<string>,
                        blocks: seq<Block>, now: int)
    : (r: (Slot, Result<(Intent, bool)>))
  {
    if control != id.generation then (slot, Refused(GenerationMismatch))
    else if slot.active.Some? then
      (slot, if slot.active.value.source.ColdStartRich? || slot.active.value.source.ColdStartSparse?
             then Ok((slot.active.value, false)) else Refused(Conflict))
    else
      var intent := NewIntent(id, source, subject, blocks, PendingReceipt, now);
      (slot.(active := Some(intent)), Ok((intent, true)))
  }

  function RecordDeferralTxn(slot: Slot, id: IntentId, control: nat, subject: Option<string>, question: Block)
    : (r: (Slot, Result<bool>))
  {
    if control != id.generation then (slot, Refused(GenerationMismatch))
    else if slot.deferral.Some? then
      (slot, if slot.deferral.value.subject == subject && slot.deferral.value.question == question
             then Ok(false) else Refused(Conflict))
    else (slot.(deferral := Some(Deferral(true, subject, question))), Ok(true))
  }

  /** Turns a pending deferral into a fresh intent; dead letters are not consulted here either. */
  function ReleaseDeferralTxn(slot: Slot, id: IntentId, control: nat, now: int): (r: (Slot, Result<Option<Intent>>)) {
    if control != id.generation then (slot, Refused(GenerationMismatch))
    else if slot.deferral.None? || !slot.deferral.value.pending then (slot, Ok(None))
    else
      var released := Some(slot.deferral.value.(pending := false));
      if slot.active.Some? then
        if !slot.active.value.source.DeferralReraise? then (slot, Refused(Conflict))
        else (slot.(deferral := released), Ok(slot.active))
      else
        var intent := NewIntent(id, DeferralReraise, slot.deferral.value.subject, [slot.deferral.value.question],
                                Ready, now);
        (slot.(active := Some(intent), deferral := released), Ok(Some(intent)))
  }

  // ----- delivery -----

  /** One fetch: reconciles a row the kernel already wrote, parks an intent out of budget, or hands it out. */
  function AdvanceTxn(slot: Slot, generation: nat, reconcile: bool, now: int): (r: (Slot, Fetch)) {
    if slot.active.None? then (slot, Missed)
    else
      var intent := slot.active.value;
      if intent.id.generation != generation || !Open(intent) then (slot, Missed)
      else
        var attempt := AttemptOf(slot).(fetches := AttemptOf(slot).fetches + 1, lastFetched := Some(now));
        var counted := slot.(attempt := Some(attempt));
        if reconcile then
          var delivered := intent.(state := Delivered, deliveredAt := Some(now), receipt := Some(ReconciledReceipt));
          (counted.(active := Some(delivered)), Reconciled)
        else if attempt.fetches >= UNACKNOWLEDGED_FETCH_BUDGET then
          var reason := if attempt.requeues > 0 then TransientAfterRequeue else Unacknowledged;
          (Bury(counted, intent, reason, attempt, now), Parked(reason))
        else (counted, HandedOut(Hydrated(intent, attempt)))
  }

  /** Parks a capture receipt that no kernel has been handed. */
  function RetireTxn(slot: Slot, generation: nat, reason: Reason, now: int): (r: (Slot, bool)) {
    if slot.active.None? then (slot, false)
    else
      var intent := slot.active.value;
      if || intent.id.generation != generation || !intent.state.Ready?
         || !IsCaptureReceipt(intent) || AttemptOf(slot).fetches > 0
      then (slot, false)
      else (Bury(slot, intent, reason, AttemptOf(slot), now), true)
  }

  function RejectTxn(slot: Slot, control: nat, generation: nat, code: Code, now: int)
    : (r: (Slot, Result<(Option<Hydrated>, Option<Reason>)>))
  {
    if control != generation then (slot, Refused(GenerationMismatch))
    else if slot.active.None? then (slot, Ok((None, None)))
    else
      var intent := slot.active.value;
      if intent.id.generation != generation then (slot, Refused(DocumentGenerationMismatch))
      else if !Open(intent) || !Permanent(code) then (slot, Ok((Some(Hydrated(intent, AttemptOf(slot))), None)))
      else
        var before := AttemptOf(slot);
        var attempt := before.(rejections := before.rejections + 1, lastCode := Some(code), lastRejection := Some(now));
        var counted := slot.(attempt := Some(attempt));
        if attempt.rejections >= MATERIALIZATION_REJECTION_BUDGET
        then
          var parked := intent.(state := DeadLettered, reason := Some(PermanentRejection(code)));
          (Bury(counted, intent, PermanentRejection(code), attempt, now),
           Ok((Some(Hydrated(parked, attempt)), Some(PermanentRejection(code)))))
        else (counted, Ok((Some(Hydrated(intent, attempt)), None)))
  }

  function DeferTxn(slot: Slot, control: nat, generation: nat, now: int): (r: (Slot, Result<Option<Hydrated>>)) {
    if control != generation then (slot, Refused(GenerationMismatch))
    else if slot.active.None? then (slot, Ok(None))
    else
      var intent := slot.active.value;
      if intent.id.generation != generation then (slot, Refused(DocumentGenerationMismatch))
      else if !Open(intent) then (slot, Ok(Some(Hydrated(intent, AttemptOf(slot)))))
      else
        var before := AttemptOf(slot);
        var first := if before.firstDeferred.Some? then before.firstDeferred.value else now;
        var attempt := before.(firstDeferred := Some(first), lastDeferral := Some(now));
        var counted := slot.(attempt := Some(attempt));
        if now - first >= CONTINUOUS_DEFERRAL_BUDGET
        then (Bury(counted, intent, DeferredBeyondBudget, attempt, now),
              Ok(Some(Hydrated(intent.(state := DeadLettered, reason := Some(DeferredBeyondBudget)), attempt))))
        else (counted, Ok(Some(Hydrated(intent, attempt))))
  }

  function AcknowledgeTxn(slot: Slot, control: nat, generation: nat, receipt: Receipt, now: int)
    : (r: (Slot, Result<Intent>))
  {
    if control != generation then (slot, Refused(GenerationMismatch))
    else if slot.active.None? then (slot, Refused(NotReady))
    else
      var intent := slot.active.value;
      if intent.id.generation != generation then (slot, Refused(DocumentGenerationMismatch))
      else if intent.state.Delivered? then
        (slot, if intent.receipt != Some(receipt) && intent.receipt != Some(ReconciledReceipt)
               then Refused(Conflict) else Ok(intent))
      else
        var repair := intent.state.DeadLettered? && Transient(intent.reason) && AttemptOf(slot).requeues == 0;
        if intent.state.DeadLettered? && !repair then (slot, Ok(intent))
        else
          var delivered := intent.(state := Delivered, deliveredAt := Some(now), receipt := Some(receipt));
          (slot.(active := Some(delivered),
                 attempt := if repair then Some(AttemptOf(slot).(requeues := 1)) else slot.attempt),
           Ok(delivered))
  }

  /** Gives a transiently failed intent its one more chance. */
  function RequeueTxn(slot: Slot, generation: nat, now: int): (r: (Slot, Option<Intent>)) {
    if slot.dead.None? then (slot, None)
    else
      var intent := slot.dead.value.intent;
      var attempt := DeadAttempt(slot);
      var terminalAt := if attempt.lastRejection.Some? then attempt.lastRejection else attempt.lastFetched;
      if || intent.id.generation != generation || !intent.state.DeadLettered?
         || !Transient(intent.reason) || attempt.requeues != 0 then (slot, None)
      else if terminalAt.None? || now - terminalAt.value < TRANSIENT_DEAD_LETTER_REPAIR_AGE then (slot, None)
      else
        var requeued := intent.(state := Ready, reason := None);
        (slot.(active := Some(requeued), dead := None,
               attempt := Some(AttemptOf(slot).(fetches := 0, requeues := 1, rejections := 0, lastCode := None,
                                                      lastRejection := None))),
         Some(requeued))
  }

  // ----- runs -----

  datatype Op =
    | Create(source: Source, subject: Option<string>, blocks: seq<Block>, admitted: bool)
    | CreateColdStart(source: Source, subject: Option<string>, blocks: seq<Block>)
    | RecordDeferral(subject: Option<string>, question: Block)
    | ReleaseDeferral
    | Advance(generation: nat, reconcile: bool)
    | Retire(generation: nat, reason: Reason)
    | Reject(generation: nat, code: Code)
    | Defer(generation: nat)
    | Acknowledge(generation: nat, receipt: Receipt)
    | Requeue(generation: nat)

  /** A transaction on the slot of `id`, or a change of the account generation. */
  datatype Event = On(elapsed: nat, id: IntentId, op: Op) | MoveControl(elapsed: nat, to: nat)

  datatype State = State(control: nat, slots: map<IntentId, Slot>, clock: int)

  function SlotAt(st: State, id: IntentId): (slot: Slot) {
    if id in st.slots then st.slots[id] else EmptySlot
  }

  function Apply(slot: Slot, id: IntentId, control: nat, op: Op, now: int): (slot': Slot) {
    match op
    case Create(source, subject, blocks, admitted) =>
      CreateTxn(slot, id, control, source, subject, blocks, admitted, now).0
    case CreateColdStart(source, subject, blocks) => ColdStartTxn(slot, id, control, source, subject, blocks, now).0
    case RecordDeferral(subject, question) => RecordDeferralTxn(slot, id, control, subject, question).0
    case ReleaseDeferral => ReleaseDeferralTxn(slot, id, control, now).0
    case Advance(g, reconcile) => AdvanceTxn(slot, g, reconcile, now).0
    case Retire(g, reason) => RetireTxn(slot, g, reason, now).0
    case Reject(g, code) => RejectTxn(slot, control, g, code, now).0
    case Defer(g) => DeferTxn(slot, control, g, now).0
    case Acknowledge(g, receipt) => AcknowledgeTxn(slot, control, g, receipt, now).0
    case Requeue(g) => RequeueTxn(slot, g, now).0
  }

  /** Which operation can address which id: the id of an intent is derived from its source. */
  predicate Addresses(op: Op, id: IntentId) {
    match op
    case Create(source, _, _, _) => id.sourceKey == Of(source) && !source.DeferralReraise?
    case CreateColdStart(source, _, _) =>
      id.sourceKey == ColdStart && (source.ColdStartRich? || source.ColdStartSparse?)
    case RecordDeferral(_, _) => id.sourceKey == Of(DeferralReraise)
    case ReleaseDeferral => id.sourceKey == Of(DeferralReraise)
    case Retire(_, reason) => reason.StaleCapture? || reason.SupersededCapture?
    case _ => true
  }

  function Next(st: State, e: Event): (st': State) {
    match e
    case On(elapsed, id, op) =>
      var now := st.clock + elapsed;
      State(st.control, st.slots[id := Apply(SlotAt(st, id), id, st.control, op, now)], now)
    case MoveControl(elapsed, to) => State(to, st.slots, st.clock + elapsed)
  }

  ghost predicate IsRun(tr: seq<State>, es: seq<Event>) {
    && |tr| == |es| + 1
    && tr[0].slots == map[]
    && forall i :: 0 <= i < |es| ==> Follows(tr, es, i)
  }

  predicate Follows(tr: seq<State>, es: seq<Event>, i: nat)
    requires i < |es| && i + 1 < |tr|
  {
    (es[i].On? ==> Addresses(es[i].op, es[i].id)) && tr[i + 1] == Next(tr[i], es[i])
  }
}
