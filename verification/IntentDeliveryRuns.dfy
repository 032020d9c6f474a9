/** Bounds on delivery over every run of the intent store. */
module IntentDeliveryRuns {
  import opened Prelude
  import opened IntentDelivery

  const MAX_HANDOUTS: nat := UNACKNOWLEDGED_FETCH_BUDGET - 1

  /** One if this step hands the intent to a kernel and counts it. */
  function HandOutOf(slot: Slot, op: Op, now: int): (k: nat) {
    if op.Advance? && AdvanceTxn(slot, op.generation, op.reconcile, now).1.HandedOut? then 1 else 0
  }

  function RequeueOf(slot: Slot, op: Op, now: int): (k: nat) {
    if op.Requeue? && RequeueTxn(slot, op.generation, now).1.Some? then 1 else 0
  }

  /** How often the first `n` steps of the run handed out intent `id`. */
  function HandOuts(tr: seq<State>, es: seq<Event>, id: IntentId, n: nat): (k: nat)
    requires |tr| == |es| + 1 && n <= |es|
  {
    if n == 0 then 0
    else
      var st, e := tr[n - 1], es[n - 1];
      HandOuts(tr, es, id, n - 1)
      + if e.On? && e.id == id then HandOutOf(SlotAt(st, id), e.op, st.clock + e.elapsed) else 0
  }

  function RequeueCount(tr: seq<State>, es: seq<Event>, id: IntentId, n: nat): (k: nat)
    requires |tr| == |es| + 1 && n <= |es|
  {
    if n == 0 then 0
    else
      var st, e := tr[n - 1], es[n - 1];
      RequeueCount(tr, es, id, n - 1)
      + if e.On? && e.id == id then RequeueOf(SlotAt(st, id), e.op, st.clock + e.elapsed) else 0
  }

  // ----- the account of one slot -----

  /** What the bookkeeping of one slot says about the deliveries that really happened. */
  predicate Accounted(slot: Slot, handouts: nat, requeues: nat) {
    var a := AttemptOf(slot);
    && a.requeues == requeues <= 1
    && handouts <= MAX_HANDOUTS * a.requeues + (if a.fetches < MAX_HANDOUTS then a.fetches else MAX_HANDOUTS)
    && (slot.active.Some? ==> !slot.active.value.state.DeadLettered? && slot.active.value.reason.None?)
    && (slot.dead.Some? && slot.attempt.None? ==> slot.dead.value.attempt.requeues == 0)
    && (slot.dead.Some? && Transient(slot.dead.value.intent.reason) ==>
          slot.dead.value.intent.reason == Some(Unacknowledged) && slot.attempt.Some?)
  }

  /** Fewer permanent rejections than the budget, and less than the deferral budget between first and last deferral. */
  predicate WithinBudgets(a: Attempt) {
    && a.rejections < MATERIALIZATION_REJECTION_BUDGET
    && (a.lastDeferral.Some? ==>
            a.firstDeferred.Some? && a.lastDeferral.value - a.firstDeferred.value < CONTINUOUS_DEFERRAL_BUDGET)
  }

  /** Ids outside the cold-start lane live in one collection at a time, and open ones are accounted exactly. */
  predicate Exclusive(id: IntentId, slot: Slot, handouts: nat) {
    var a := AttemptOf(slot);
    && !(slot.active.Some? && slot.dead.Some?)
    && (slot.active.None? && slot.dead.None? ==> slot.attempt.None? && handouts == 0)
    && (slot.active.Some? && Open(slot.active.value) ==>
          a.fetches <= MAX_HANDOUTS && handouts == MAX_HANDOUTS * a.requeues + a.fetches && WithinBudgets(a))
    && (slot.dead.Some? && Transient(slot.dead.value.intent.reason) && a.requeues == 0 ==>
          a.fetches == UNACKNOWLEDGED_FETCH_BUDGET && handouts == MAX_HANDOUTS && WithinBudgets(a))
    && (id.sourceKey == Of(DeferralReraise) && (slot.active.Some? || slot.dead.Some?) ==>
          slot.deferral.Some? && !slot.deferral.value.pending)
  }

  lemma StepKeepsAccount(slot: Slot, id: IntentId, control: nat, op: Op, now: int, handouts: nat, requeues: nat)
    requires Accounted(slot, handouts, requeues) && Addresses(op, id)
    ensures Accounted(Apply(slot, id, control, op, now), handouts + HandOutOf(slot, op, now),
                      requeues + RequeueOf(slot, op, now))
  {
  }

  lemma StepKeepsExclusive(slot: Slot, id: IntentId, control: nat, op: Op, now: int, handouts: nat, requeues: nat)
    requires Accounted(slot, handouts, requeues) && Exclusive(id, slot, handouts) && Addresses(op, id)
             && id.sourceKey != ColdStart
    ensures Exclusive(id, Apply(slot, id, control, op, now), handouts + HandOutOf(slot, op, now))
  {
  }

  lemma {:induction false} RunIsAccounted(tr: seq<State>, es: seq<Event>, id: IntentId, n: nat)
    requires IsRun(tr, es) && n <= |es|
    ensures Accounted(SlotAt(tr[n], id), HandOuts(tr, es, id, n), RequeueCount(tr, es, id, n))
    ensures id.sourceKey != ColdStart ==> Exclusive(id, SlotAt(tr[n], id), HandOuts(tr, es, id, n))
  {
    hide Accounted, Exclusive, Apply, HandOutOf, RequeueOf, HandOuts, RequeueCount, SlotAt, Next;
    if n == 0 {
      StartsAccounted(tr, es, id);
    } else {
      RunIsAccounted(tr, es, id, n - 1);
      OneStep(tr, es, id, n - 1);
      var st, e := tr[n - 1], es[n - 1];
      if e.On? && e.id == id {
        var slot, handouts, requeues := SlotAt(st, id), HandOuts(tr, es, id, n - 1), RequeueCount(tr, es, id, n - 1);
        StepKeepsAccount(slot, id, st.control, e.op, st.clock + e.elapsed, handouts, requeues);
        if id.sourceKey != ColdStart {
          StepKeepsExclusive(slot, id, st.control, e.op, st.clock + e.elapsed, handouts, requeues);
        }
      }
    }
  }

  lemma StartsAccounted(tr: seq<State>, es: seq<Event>, id: IntentId)
    requires IsRun(tr, es)
    ensures Accounted(SlotAt(tr[0], id), HandOuts(tr, es, id, 0), RequeueCount(tr, es, id, 0))
    ensures Exclusive(id, SlotAt(tr[0], id), HandOuts(tr, es, id, 0))
  {
  }

  // ----- the bounds -----

  /** At most nineteen hand-outs before the first dead letter, at most one requeue, at most nineteen more. */
  lemma DeliveryIsBounded(tr: seq<State>, es: seq<Event>, id: IntentId, n: nat)
    requires IsRun(tr, es) && n <= |es|
    ensures RequeueCount(tr, es, id, n) <= 1
    ensures HandOuts(tr, es, id, n) <= MAX_HANDOUTS * (1 + RequeueCount(tr, es, id, n)) <= 38
  {
    RunIsAccounted(tr, es, id, n);
  }

  /**
    While an intent is open, its bookkeeping counts exactly the deliveries that happened, and every budget
    still has room.
  */
  lemma OpenIntentsAreCountedExactly(tr: seq<State>, es: seq<Event>, id: IntentId, n: nat)
    requires IsRun(tr, es) && n <= |es| && id.sourceKey != ColdStart
    requires SlotAt(tr[n], id).active.Some? && Open(SlotAt(tr[n], id).active.value)
    ensures var a := AttemptOf(SlotAt(tr[n], id));
            && HandOuts(tr, es, id, n) == MAX_HANDOUTS * a.requeues + a.fetches
            && RequeueCount(tr, es, id, n) == a.requeues
            && a.fetches < UNACKNOWLEDGED_FETCH_BUDGET
            && WithinBudgets(a)
  {
    RunIsAccounted(tr, es, id, n);
  }

  /** Outside the cold-start lane an id is never active and dead together. */
  lemma NeverActiveAndDead(tr: seq<State>, es: seq<Event>, id: IntentId, n: nat)
    requires IsRun(tr, es) && n <= |es| && id.sourceKey != ColdStart
    ensures !(SlotAt(tr[n], id).active.Some? && SlotAt(tr[n], id).dead.Some?)
  {
    RunIsAccounted(tr, es, id, n);
  }

  /** In the cold-start lane it fails exactly when creation finds only a dead letter. */
  lemma ColdStartRevivesTheDead(slot: Slot, id: IntentId, control: nat, source: Source, subject: Option<string>,
                                blocks: seq<Block>, now: int)
    requires !(slot.active.Some? && slot.dead.Some?)
    ensures var slot' := ColdStartTxn(slot, id, control, source, subject, blocks, now).0;
            (slot'.active.Some? && slot'.dead.Some?) <==> (control == id.generation && slot.dead.Some?)
  {
  }

  /** A run that reaches it: create, let twenty fetches go unacknowledged, create again. */
  lemma ColdStartCollision(id: IntentId, subject: Option<string>, blocks: seq<Block>)
    requires id.sourceKey == ColdStart
    ensures exists tr: seq<State>, es: seq<Event> :: IsRun(tr, es) && |es| == 22
              && SlotAt(tr[22], id).active.Some? && SlotAt(tr[22], id).dead.Some?
  {
    var create := On(0, id, CreateColdStart(ColdStartRich, subject, blocks));
    var fetch := On(0, id, Advance(id.generation, false));
    var es := [create] + seq(20, _ => fetch) + [create];
    var tr := Unrolled(State(id.generation, map[], 0), es);
    UnrolledIsRun(State(id.generation, map[], 0), es);
    FetchesCount(tr, es, id, subject, blocks, 20);
    assert Follows(tr, es, 21);
  }

  function Unrolled(st: State, es: seq<Event>): (tr: seq<State>)
    ensures |tr| == |es| + 1
  {
    if es == [] then [st]
    else
      var before := Unrolled(st, es[..|es| - 1]);
      before + [Next(before[|es| - 1], es[|es| - 1])]
  }

  lemma {:induction false} UnrolledIsRun(st: State, es: seq<Event>)
    requires st.slots == map[] && forall e :: e in es && e.On? ==> Addresses(e.op, e.id)
    ensures IsRun(Unrolled(st, es), es) && Unrolled(st, es)[0] == st
  {
    if es != [] {
      var init := es[..|es| - 1];
      UnrolledIsRun(st, init);
      var tr := Unrolled(st, es);
      forall i | 0 <= i < |es| ensures Follows(tr, es, i) {
        if i < |init| {
          assert Follows(Unrolled(st, init), init, i);
        }
      }
    }
  }

  lemma {:induction false} FetchesCount(tr: seq<State>, es: seq<Event>, id: IntentId, subject: Option<string>,
                                        blocks: seq<Block>, k: nat)
    requires IsRun(tr, es) && |es| == 22 && tr[0] == State(id.generation, map[], 0)
    requires es[0] == On(0, id, CreateColdStart(ColdStartRich, subject, blocks))
    requires forall i :: 1 <= i <= 20 ==> es[i] == On(0, id, Advance(id.generation, false))
    requires k <= 20
    ensures var st := tr[k + 1];
            var slot := SlotAt(st, id);
            && st.control == id.generation
            && AttemptOf(slot).fetches == k
            && (k < 20 ==>
                  && slot.active.Some? && slot.active.value.id == id
                  && slot.active.value.state.PendingReceipt? && slot.dead.None?)
            && (k == 20 ==> slot.active.None? && slot.dead.Some?)
  {
    assert Follows(tr, es, k);
    if k > 0 {
      FetchesCount(tr, es, id, subject, blocks, k - 1);
    }
  }

  // ----- the measure -----

  /** Requeues left, then hand-outs left before the intent is parked. */
  function Measure(slot: Slot): (m: (int, int)) {
    (1 - AttemptOf(slot).requeues, UNACKNOWLEDGED_FETCH_BUDGET - AttemptOf(slot).fetches)
  }

  predicate Below(m: (int, int), k: (int, int)) {
    m.0 < k.0 || (m.0 == k.0 && m.1 < k.1)
  }

  /**
    Every hand-out and every requeue decreases the measure, no step increases it, and it is bounded below
    while open.
  */
  lemma MeasureDecreases(tr: seq<State>, es: seq<Event>, id: IntentId, n: nat)
    requires IsRun(tr, es) && n < |es|
    ensures var before, after := Measure(SlotAt(tr[n], id)), Measure(SlotAt(tr[n + 1], id));
            && (after == before || Below(after, before))
            && (HandOuts(tr, es, id, n + 1) > HandOuts(tr, es, id, n) ==>
                    Below(after, before) && after.0 >= 0 && after.1 > 0)
            && (RequeueCount(tr, es, id, n + 1) > RequeueCount(tr, es, id, n) ==> Below(after, before) && after.0 == 0)
  {
    hide Apply, Accounted, Exclusive, HandOutOf, RequeueOf, HandOuts, RequeueCount, SlotAt, Next, Measure;
    RunIsAccounted(tr, es, id, n);
    OneStep(tr, es, id, n);
    var st, e := tr[n], es[n];
    if e.On? && e.id == id {
      StepMeasure(SlotAt(st, id), id, st.control, e.op, st.clock + e.elapsed, HandOuts(tr, es, id, n),
                  RequeueCount(tr, es, id, n));
    }
  }

  /** What one step of a run does to the slot of `id` and to its counts. */
  lemma OneStep(tr: seq<State>, es: seq<Event>, id: IntentId, n: nat)
    requires IsRun(tr, es) && n < |es|
    ensures var slot, now, e := SlotAt(tr[n], id), tr[n].clock + es[n].elapsed, es[n];
            if e.On? && e.id == id then
              && Addresses(e.op, id)
              && SlotAt(tr[n + 1], id) == Apply(slot, id, tr[n].control, e.op, now)
              && HandOuts(tr, es, id, n + 1) == HandOuts(tr, es, id, n) + HandOutOf(slot, e.op, now)
              && RequeueCount(tr, es, id, n + 1) == RequeueCount(tr, es, id, n) + RequeueOf(slot, e.op, now)
            else
              && SlotAt(tr[n + 1], id) == slot
              && HandOuts(tr, es, id, n + 1) == HandOuts(tr, es, id, n)
              && RequeueCount(tr, es, id, n + 1) == RequeueCount(tr, es, id, n)
  {
    hide Apply, HandOutOf, RequeueOf;
    assert Follows(tr, es, n);
  }

  lemma StepMeasure(slot: Slot, id: IntentId, control: nat, op: Op, now: int, handouts: nat, requeues: nat)
    requires Accounted(slot, handouts, requeues)
    ensures var before, after := Measure(slot), Measure(Apply(slot, id, control, op, now));
            && (after == before || Below(after, before))
            && (HandOutOf(slot, op, now) > 0 ==> Below(after, before) && after.0 >= 0 && after.1 > 0)
            && (RequeueOf(slot, op, now) > 0 ==> Below(after, before) && after.0 == 0)
  {
  }

  // ----- terminal outcomes -----

  /** Delivered under a receipt, or parked where no repair applies. */
  predicate Finished(slot: Slot) {
    || (slot.active.Some? && slot.active.value.state.Delivered? && slot.dead.None?)
    || (slot.active.None? && slot.dead.Some?
        && (!Transient(slot.dead.value.intent.reason) || DeadAttempt(slot).requeues > 0))
  }

  lemma StepKeepsFinished(slot: Slot, id: IntentId, control: nat, op: Op, now: int)
    requires Finished(slot) && Addresses(op, id) && id.sourceKey != ColdStart
    requires id.sourceKey == Of(DeferralReraise) ==> slot.deferral.Some? && !slot.deferral.value.pending
    ensures var slot' := Apply(slot, id, control, op, now);
            slot'.active == slot.active && slot'.dead == slot.dead && slot'.attempt == slot.attempt && Finished(slot')
  {
  }

  /** A finished intent keeps its documents, its receipt and its bookkeeping through every later run. */
  lemma {:induction false} FinishedIntentsStay(tr: seq<State>, es: seq<Event>, id: IntentId, i: nat, j: nat)
    requires IsRun(tr, es) && i <= j <= |es| && id.sourceKey != ColdStart && Finished(SlotAt(tr[i], id))
    ensures var was, now := SlotAt(tr[i], id), SlotAt(tr[j], id);
            now.active == was.active && now.dead == was.dead && now.attempt == was.attempt && Finished(now)
  {
    hide Apply, SlotAt, Next, Finished, Accounted;
    if i < j {
      FinishedIntentsStay(tr, es, id, i, j - 1);
      RunIsAccounted(tr, es, id, j - 1);
      OneStep(tr, es, id, j - 1);
      var st, e := tr[j - 1], es[j - 1];
      if e.On? && e.id == id {
        FinishedReraise(id, SlotAt(st, id), HandOuts(tr, es, id, j - 1));
        StepKeepsFinished(SlotAt(st, id), id, st.control, e.op, st.clock + e.elapsed);
      }
    }
  }

  lemma FinishedReraise(id: IntentId, slot: Slot, handouts: nat)
    requires Finished(slot) && Exclusive(id, slot, handouts)
    ensures id.sourceKey == Of(DeferralReraise) ==> slot.deferral.Some? && !slot.deferral.value.pending
  {
  }
}
