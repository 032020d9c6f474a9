/**
  When a transaction of the intent store is granted and what it leaves in the slot, said of the stored fields
  alone; and what a delivery means for the rest of a run.
*/
module IntentGrants {
  import opened Prelude
  import opened IntentDelivery
  import opened IntentDeliveryRuns

  predicate Deliverable(slot: Slot, generation: nat) {
    && slot.active.Some? && slot.active.value.id.generation == generation
    && (slot.active.value.state == Ready || slot.active.value.state == PendingReceipt)
  }

  /** The bookkeeping as stored, or nothing yet. */
  predicate Booked(slot: Slot, a: Attempt) {
    if slot.attempt.Some? then slot.attempt.value == a
    else a == Attempt(0, None, 0, 0, None, None, None, None)
  }

  /** The intent has left the active documents, and its dead letter says why, and all about its attempts. */
  predicate Buried(slot: Slot, slot': Slot, reason: Reason, a: Attempt, now: int)
    requires slot.active.Some?
  {
    && slot'.active.None? && slot'.dead.Some? && slot'.deferral == slot.deferral
    && slot'.dead.value.intent == slot.active.value.(state := DeadLettered, reason := Some(reason))
    && slot'.dead.value.attempt == a.(lastFetched := if a.lastFetched.Some? then a.lastFetched else Some(now))
  }

  // ----- creating -----

  predicate Says(x: Intent, source: Source, subject: Option<string>, blocks: seq<Block>) {
    x.source == source && x.subject == subject && x.blocks == blocks
  }

  /** A new intent, not yet delivered. */
  predicate Fresh(x: Intent, id: IntentId, source: Source, subject: Option<string>, blocks: seq<Block>,
                  state: DeliveryState, now: int)
  {
    && x.id == id && Says(x, source, subject, blocks) && x.state == state && x.createdAt == now
    && x.deliveredAt.None? && x.receipt.None? && x.reason.None?
  }

  /**
    A create is granted exactly in the account's generation, to an intent that says the same as the active or
    dead one of its id, or, if there is neither, within the turn budget. It stores something only in that last case.
  */
  lemma CreateGrantedIff(slot: Slot, id: IntentId, control: nat, source: Source, subject: Option<string>,
                         blocks: seq<Block>, admitted: bool, now: int)
    ensures var (slot', r) := CreateTxn(slot, id, control, source, subject, blocks, admitted, now);
            && (r.Ok? <==>
                  && control == id.generation
                  && (if slot.active.Some? then Says(slot.active.value, source, subject, blocks)
                      else if slot.dead.Some? then Says(slot.dead.value.intent, source, subject, blocks)
                      else source == AgentJudgment ==> admitted))
            && (r.Ok? ==> (r.value.1 <==> slot.active.None? && slot.dead.None?))
            && (r.Ok? && r.value.1 ==>
                  && slot' == slot.(active := Some(r.value.0))
                  && Fresh(r.value.0, id, source, subject, blocks, Ready, now))
            && (r.Ok? && !r.value.1 ==>
                  && slot' == slot
                  && (if slot.active.Some? then slot.active == Some(r.value.0)
                      else r.value.0 == slot.dead.value.intent))
            && (r.Refused? ==> slot' == slot)
  {
  }

  /** A cold start is granted in the account's generation unless the id holds another kind of intent. */
  lemma ColdStartGrantedIff(slot: Slot, id: IntentId, control: nat, source: Source, subject: Option<string>,
                            blocks: seq<Block>, now: int)
    ensures var (slot', r) := ColdStartTxn(slot, id, control, source, subject, blocks, now);
            && (r.Ok? <==>
                  && control == id.generation
                  && (slot.active.Some? ==> slot.active.value.source in {ColdStartRich, ColdStartSparse}))
            && (r.Ok? ==> (r.value.1 <==> slot.active.None?) && slot'.active == Some(r.value.0))
            && (r.Ok? && r.value.1 ==> Fresh(r.value.0, id, source, subject, blocks, PendingReceipt, now))
            && slot' == slot.(active := slot'.active) && (!(r.Ok? && r.value.1) ==> slot' == slot)
  {
  }

  /** A deferral is recorded once; the same question again is acknowledged, another one is a conflict. */
  lemma DeferralRecordedIff(slot: Slot, id: IntentId, control: nat, subject: Option<string>, question: Block)
    ensures var (slot', r) := RecordDeferralTxn(slot, id, control, subject, question);
            && (r.Ok? <==>
                  && control == id.generation
                  && (slot.deferral.Some? ==>
                        slot.deferral.value.subject == subject && slot.deferral.value.question == question))
            && (r.Ok? ==> (r.value <==> slot.deferral.None?))
            && slot' == (if r.Ok? && r.value then slot.(deferral := Some(Deferral(true, subject, question))) else slot)
  {
  }

  /** A release asks the question of a pending deferral once; the deferral is then no longer pending. */
  lemma QuestionReleasedIff(slot: Slot, id: IntentId, control: nat, now: int)
    ensures var (slot', r) := ReleaseDeferralTxn(slot, id, control, now);
            var due := slot.deferral.Some? && slot.deferral.value.pending;
            && (r.Ok? <==>
                  && control == id.generation
                  && (due && slot.active.Some? ==> slot.active.value.source == DeferralReraise))
            && (r.Ok? ==> (r.value.Some? <==> due))
            && (r.Ok? && due ==>
                  && slot' == slot.(active := r.value, deferral := Some(slot.deferral.value.(pending := false)))
                  && (if slot.active.Some? then r.value == slot.active
                      else Fresh(r.value.value, id, DeferralReraise, slot.deferral.value.subject,
                                 [slot.deferral.value.question], Ready, now)))
            && (!(r.Ok? && due) ==> slot' == slot)
  {
  }

  // ----- delivering -----

  /**
    What one fetch comes to. It counts exactly on a deliverable intent; then a row the kernel already wrote
    delivers it, the twentieth fetch parks it, and any other hands it out unchanged.
  */
  lemma FetchComesTo(slot: Slot, generation: nat, reconcile: bool, now: int, a: Attempt)
    requires Booked(slot, a)
    ensures var (slot', r) := AdvanceTxn(slot, generation, reconcile, now);
            var counted := a.(fetches := a.fetches + 1, lastFetched := Some(now));
            && (r.Missed? <==> !Deliverable(slot, generation)) && (r.Missed? ==> slot' == slot)
            && (Deliverable(slot, generation) ==>
                  && slot'.attempt == Some(counted) && slot'.deferral == slot.deferral
                  && (r.Reconciled? <==> reconcile)
                  && (r.Parked? <==> !reconcile && a.fetches >= 19)
                  && (r.HandedOut? <==> !reconcile && a.fetches < 19))
            && (r.Reconciled? ==>
                  && slot'.dead == slot.dead
                  && slot'.active == Some(slot.active.value.(state := Delivered, deliveredAt := Some(now),
                                                             receipt := Some(ReconciledReceipt))))
            && (r.Parked? ==>
                  && r.reason == (if a.requeues > 0 then TransientAfterRequeue else Unacknowledged)
                  && Buried(slot, slot', r.reason, counted, now))
            && (r.HandedOut? ==>
                  && slot'.active == slot.active && slot'.dead == slot.dead
                  && r.fetched == Hydrated(slot.active.value, counted))
  {
  }

  /** Exactly a ready receipt of captures that was never fetched can be retired. */
  lemma RetiredIff(slot: Slot, generation: nat, reason: Reason, now: int, a: Attempt)
    requires Booked(slot, a)
    ensures var (slot', r) := RetireTxn(slot, generation, reason, now);
            && (r <==>
                  && slot.active.Some? && slot.active.value.id.generation == generation
                  && slot.active.value.state == Ready
                  && slot.active.value.source == CaptureArrival
                  && (forall b :: b in slot.active.value.blocks ==> b.CaptureLink?)
                  && a.fetches == 0)
            && (r ==> Buried(slot, slot', reason, a, now) && slot'.attempt == slot.attempt)
            && (!r ==> slot' == slot)
  {
  }

  /** A rejection counts exactly on a deliverable intent and for the two permanent codes; the third one parks it. */
  lemma RejectionCountsIff(slot: Slot, control: nat, generation: nat, code: Code, now: int, a: Attempt)
    requires Booked(slot, a)
    ensures var (slot', r) := RejectTxn(slot, control, generation, code, now);
            var counts := control == generation && Deliverable(slot, generation)
                && code in {InvalidIntent, IdentityConflict};
            var counted := a.(rejections := a.rejections + 1, lastCode := Some(code), lastRejection := Some(now));
            && (r.Ok? <==>
                  && control == generation
                  && (slot.active.Some? ==> slot.active.value.id.generation == generation))
            && (!counts ==> slot' == slot && (r.Ok? ==> r.value.1.None?))
            && (counts ==>
                  && slot'.attempt == Some(counted)
                  && (if a.rejections >= 2 then r.value.1 == Some(PermanentRejection(code))
                                                && Buried(slot, slot', PermanentRejection(code), counted, now)
                      else r.value.1.None? && slot'.active == slot.active && slot'.dead == slot.dead))
            && (r.Ok? ==>
                  r.value.0 == if slot.active.None? then None
                               else Some(Hydrated(if slot'.active.None? then slot'.dead.value.intent
                                                  else slot.active.value,
                                                  if counts then counted else a)))
  {
  }

  /** A suppression is noted exactly on a deliverable intent; seven days after the first one it is parked. */
  lemma SuppressionNotedIff(slot: Slot, control: nat, generation: nat, now: int, a: Attempt)
    requires Booked(slot, a)
    ensures var (slot', r) := DeferTxn(slot, control, generation, now);
            var notes := control == generation && Deliverable(slot, generation);
            var first := if a.firstDeferred.Some? then a.firstDeferred.value else now;
            var noted := a.(firstDeferred := Some(first), lastDeferral := Some(now));
            && (r.Ok? <==>
                  && control == generation
                  && (slot.active.Some? ==> slot.active.value.id.generation == generation))
            && (!notes ==> slot' == slot)
            && (notes ==>
                  && slot'.attempt == Some(noted)
                  && (if now - first >= 7 * 86400 then Buried(slot, slot', DeferredBeyondBudget, noted, now)
                      else slot'.active == slot.active && slot'.dead == slot.dead))
            && (r.Ok? ==>
                  r.value == if slot.active.None? then None
                             else Some(Hydrated(if slot'.active.None? then slot'.dead.value.intent
                                                else slot.active.value,
                                                if notes then noted else a)))
  {
  }

  /** The receipt fits a delivered intent: it is the stored one, or the stored one was only inferred. */
  predicate FitsReceipt(x: Intent, receipt: Receipt) {
    x.receipt == Some(receipt) || x.receipt == Some(ReconciledReceipt)
  }

  /** An active document that an earlier version left dead-lettered, for a reason that may pass. */
  predicate LeftForDead(slot: Slot, a: Attempt) {
    && slot.active.Some? && slot.active.value.state == DeadLettered && a.requeues == 0
    && slot.active.value.reason in {Some(Unacknowledged), Some(PermanentRejection(KernelFailed))}
  }

  /**
    An acknowledgement is accepted exactly of an active intent of the generation, unless it was delivered under
    another receipt. It stores a deliverable one, or one left for dead, as delivered with this receipt and time;
    any other stays as it is and is returned.
  */
  lemma AcknowledgedIff(slot: Slot, control: nat, generation: nat, receipt: Receipt, now: int, a: Attempt)
    requires Booked(slot, a)
    ensures var (slot', r) := AcknowledgeTxn(slot, control, generation, receipt, now);
            && (r.Ok? <==>
                  && control == generation && slot.active.Some? && slot.active.value.id.generation == generation
                  && (slot.active.value.state == Delivered ==> FitsReceipt(slot.active.value, receipt)))
            && (r.Refused? ==> slot' == slot)
            && (r.Ok? ==> slot'.active == Some(r.value))
            && (r.Ok? && !Deliverable(slot, generation) && !LeftForDead(slot, a) ==> slot' == slot)
            && (r.Ok? && (Deliverable(slot, generation) || LeftForDead(slot, a)) ==>
                  && r.value == slot.active.value.(state := Delivered, deliveredAt := Some(now),
                                                  receipt := Some(receipt))
                  && slot' == slot.(active := Some(r.value),
                                    attempt := if LeftForDead(slot, a) then Some(a.(requeues := 1)) else slot.attempt))
  {
  }

  /**
    A dead letter is requeued exactly if it failed transiently, has not been requeued, and its last rejection,
    or else its last fetch, is at least six hours old. It is then ready again with fresh counts.
  */
  lemma RequeuedIff(slot: Slot, generation: nat, now: int)
    ensures var (slot', r) := RequeueTxn(slot, generation, now);
            && (r.Some? <==>
                  && slot.dead.Some? && slot.dead.value.intent.id.generation == generation
                  && slot.dead.value.intent.state == DeadLettered
                  && slot.dead.value.intent.reason in {Some(Unacknowledged), Some(PermanentRejection(KernelFailed))}
                  && var a := if slot.attempt.Some? then slot.attempt.value else slot.dead.value.attempt;
                     var last := if a.lastRejection.Some? then a.lastRejection else a.lastFetched;
                     a.requeues == 0 && last.Some? && last.value + 6 * 3600 <= now)
            && (r.None? ==> slot' == slot)
            && (r.Some? ==>
                  && slot'.active == r && slot'.dead.None? && slot'.deferral == slot.deferral
                  && r.value == slot.dead.value.intent.(state := Ready, reason := None)
                  && slot'.attempt.Some? && slot'.attempt.value.fetches == 0 && slot'.attempt.value.requeues == 1
                  && slot'.attempt.value.rejections == 0 && slot'.attempt.value.lastCode.None?
                  && slot'.attempt.value.lastRejection.None?
                  && (slot.attempt.Some? ==>
                        && slot'.attempt.value.firstDeferred == slot.attempt.value.firstDeferred
                        && slot'.attempt.value.lastDeferral == slot.attempt.value.lastDeferral
                        && slot'.attempt.value.lastFetched == slot.attempt.value.lastFetched))
  {
  }

  // ----- after a delivery -----

  /** Stored as delivered, with no dead letter that a repair could bring back. */
  predicate Settled(slot: Slot) {
    slot.active.Some? && slot.active.value.state == Delivered && slot.dead.None?
  }

  lemma StepKeepsSettled(slot: Slot, id: IntentId, control: nat, op: Op, now: int)
    requires Settled(slot)
    ensures var slot' := Apply(slot, id, control, op, now);
            Settled(slot') && slot'.active == slot.active && HandOutOf(slot, op, now) == 0
  {
  }

  /** A delivered intent is never handed out again, and keeps its receipt, in every later run; cold starts included. */
  lemma {:induction false} NothingAfterDelivery(tr: seq<State>, es: seq<Event>, id: IntentId, i: nat, j: nat)
    requires IsRun(tr, es) && i <= j <= |es| && Settled(SlotAt(tr[i], id))
    ensures HandOuts(tr, es, id, j) == HandOuts(tr, es, id, i)
    ensures Settled(SlotAt(tr[j], id)) && SlotAt(tr[j], id).active == SlotAt(tr[i], id).active
  {
    hide Apply, SlotAt, Next, Settled, HandOutOf, HandOuts, RequeueCount;
    if i < j {
      NothingAfterDelivery(tr, es, id, i, j - 1);
      OneStep(tr, es, id, j - 1);
      var st, e := tr[j - 1], es[j - 1];
      if e.On? && e.id == id {
        StepKeepsSettled(SlotAt(st, id), id, st.control, e.op, st.clock + e.elapsed);
      }
    }
  }

  /** This event is accepted as a delivery: a kernel's receipt, or a row found in the chat. */
  predicate Delivers(st: State, e: Event, id: IntentId) {
    && e.On? && e.id == id
    && (|| (e.op.Acknowledge?
            && AcknowledgeTxn(SlotAt(st, id), st.control, e.op.generation, e.op.receipt, st.clock + e.elapsed).1.Ok?)
        || (e.op.Advance?
            && AdvanceTxn(SlotAt(st, id), e.op.generation, e.op.reconcile, st.clock + e.elapsed).1.Reconciled?))
  }

  /** An accepted delivery is the end: outside the cold-start lane no later event of the run hands the intent out. */
  lemma DeliveryEndsHandOuts(tr: seq<State>, es: seq<Event>, id: IntentId, i: nat, j: nat)
    requires IsRun(tr, es) && i < j <= |es| && id.sourceKey != ColdStart && Delivers(tr[i], es[i], id)
    ensures HandOuts(tr, es, id, j) == HandOuts(tr, es, id, i)
    ensures SlotAt(tr[j], id).active.Some? && SlotAt(tr[j], id).active.value.state == Delivered
    ensures SlotAt(tr[j], id).active.value.receipt.Some?
    ensures SlotAt(tr[j], id).active == SlotAt(tr[i + 1], id).active
  {
    hide Apply, SlotAt, Next, HandOutOf, HandOuts, RequeueCount, Accounted, Exclusive;
    RunIsAccounted(tr, es, id, i);
    OneStep(tr, es, id, i);
    DeliveryIsStored(SlotAt(tr[i], id), id, tr[i].control, es[i].op, tr[i].clock + es[i].elapsed,
                     HandOuts(tr, es, id, i), RequeueCount(tr, es, id, i));
    NothingAfterDelivery(tr, es, id, i + 1, j);
    ReceiptIsStored(tr, es, id, i);
  }

  lemma DeliveryIsStored(slot: Slot, id: IntentId, control: nat, op: Op, now: int, handouts: nat, requeues: nat)
    requires Accounted(slot, handouts, requeues) && Exclusive(id, slot, handouts)
    requires || (op.Acknowledge? && AcknowledgeTxn(slot, control, op.generation, op.receipt, now).1.Ok?)
             || (op.Advance? && AdvanceTxn(slot, op.generation, op.reconcile, now).1.Reconciled?)
    ensures Settled(Apply(slot, id, control, op, now)) && HandOutOf(slot, op, now) == 0
  {
  }

  /** Delivered intents always carry the receipt of their delivery. */
  predicate Receipted(slot: Slot) {
    slot.active.Some? && slot.active.value.state == Delivered ==> slot.active.value.receipt.Some?
  }

  lemma {:induction false} RunIsReceipted(tr: seq<State>, es: seq<Event>, id: IntentId, n: nat)
    requires IsRun(tr, es) && n <= |es|
    ensures Receipted(SlotAt(tr[n], id))
  {
    hide Apply, SlotAt, Next, Receipted, HandOutOf, RequeueOf, HandOuts, RequeueCount;
    if n == 0 {
      StartIsReceipted(tr, es, id);
    } else {
      RunIsReceipted(tr, es, id, n - 1);
      OneStep(tr, es, id, n - 1);
      var st, e := tr[n - 1], es[n - 1];
      if e.On? && e.id == id {
        StepKeepsReceipts(SlotAt(st, id), id, st.control, e.op, st.clock + e.elapsed);
      }
    }
  }

  lemma StartIsReceipted(tr: seq<State>, es: seq<Event>, id: IntentId)
    requires IsRun(tr, es)
    ensures Receipted(SlotAt(tr[0], id))
  {
  }

  lemma StepKeepsReceipts(slot: Slot, id: IntentId, control: nat, op: Op, now: int)
    requires Receipted(slot)
    ensures Receipted(Apply(slot, id, control, op, now))
  {
  }

  lemma ReceiptIsStored(tr: seq<State>, es: seq<Event>, id: IntentId, i: nat)
    requires IsRun(tr, es) && i < |es| && Settled(SlotAt(tr[i + 1], id))
    ensures SlotAt(tr[i + 1], id).active.value.receipt.Some?
  {
    RunIsReceipted(tr, es, id, i + 1);
  }
}
