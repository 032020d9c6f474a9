/** The intent, attempt, dead-letter and deferral documents of one user. */
module IntentStore {
  import opened Prelude
  import opened IntentDelivery

  class Intents {
    var control: nat
    var active: map<IntentId, Intent>
    var attempts: map<IntentId, Attempt>
    var dead: map<IntentId, DeadLetter>
    var deferrals: map<IntentId, Deferral>

    constructor (generation: nat)
      ensures control == generation && forall id :: SlotOf(id) == EmptySlot
    {
      control := generation;
      active, attempts, dead, deferrals := map[], map[], map[], map[];
    }

    /** The documents that share one id. */
    function SlotOf(id: IntentId): (slot: Slot)
      reads this
    {
      Slot(if id in active then Some(active[id]) else None,
           if id in attempts then Some(attempts[id]) else None,
           if id in dead then Some(dead[id]) else None,
           if id in deferrals then Some(deferrals[id]) else None)
    }

    /** Only the documents of `id` differ. */
    twostate predicate OnlySlot(id: IntentId)
      reads this
    {
      control == old(control) && forall other :: other != id ==> SlotOf(other) == old(SlotOf(other))
    }

    function AttemptFor(id: IntentId): (a: Attempt)
      reads this
    {
      if id in attempts then attempts[id] else NoAttempt
    }

    method MoveToDeadLetters(id: IntentId, intent: Intent, reason: Reason, attempt: Attempt, now: int)
      modifies this
      ensures SlotOf(id) == Bury(old(SlotOf(id)), intent, reason, attempt, now) && OnlySlot(id)
    {
      var stamped := attempt;
      if stamped.lastFetched.None? {
        stamped := stamped.(lastFetched := Some(now));
      }
      dead := dead[id := DeadLetter(intent.(state := DeadLettered, reason := Some(reason)), stamped)];
      active := active - {id};
    }

    /** Persists an intent once per id. */
    method CreateIntent(id: IntentId, source: Source, subject: Option<string>, blocks: seq<Block>, admitted: bool,
                        now: int)
      returns (r: Result<(Intent, bool)>)
      modifies this
      ensures (SlotOf(id), r) == CreateTxn(old(SlotOf(id)), id, control, source, subject, blocks, admitted, now)
              && OnlySlot(id)
    {
      if control != id.generation {
        return Refused(GenerationMismatch);
      }
      if id in active {
        if !SameContent(active[id], source, subject, blocks) {
          return Refused(Conflict);
        }
        return Ok((active[id], false));
      }
      if id in dead {
        if !SameContent(dead[id].intent, source, subject, blocks) {
          return Refused(Conflict);
        }
        return Ok((dead[id].intent, false));
      }
      if source.AgentJudgment? && !admitted {
        return Refused(BudgetExhausted);
      }
      var intent := NewIntent(id, source, subject, blocks, Ready, now);
      active := active[id := intent];
      return Ok((intent, true));
    }

    method CreateColdStartIntent(id: IntentId, source: Source, subject: Option<string>, blocks: seq<Block>, now: int)
      returns (r: Result<(Intent, bool)>)
      modifies this
      ensures (SlotOf(id), r) == ColdStartTxn(old(SlotOf(id)), id, control, source, subject, blocks, now)
              && OnlySlot(id)
    {
      if control != id.generation {
        return Refused(GenerationMismatch);
      }
      if id in active {
        if active[id].source.ColdStartRich? || active[id].source.ColdStartSparse? {
          return Ok((active[id], false));
        }
        return Refused(Conflict);
      }
      var intent := NewIntent(id, source, subject, blocks, PendingReceipt, now);
      active := active[id := intent];
      return Ok((intent, true));
    }

    method RecordQuestionDeferral(id: IntentId, subject: Option<string>, question: Block) returns (r: Result<bool>)
      modifies this
      ensures (SlotOf(id), r) == RecordDeferralTxn(old(SlotOf(id)), id, control, subject, question) && OnlySlot(id)
    {
      if control != id.generation {
        return Refused(GenerationMismatch);
      }
      if id in deferrals {
        if deferrals[id].subject != subject || deferrals[id].question != question {
          return Refused(Conflict);
        }
        return Ok(false);
      }
      deferrals := deferrals[id := Deferral(true, subject, question)];
      return Ok(true);
    }

    method ReleaseQuestion(id: IntentId, now: int) returns (r: Result<Option<Intent>>)
      modifies this
      ensures (SlotOf(id), r) == ReleaseDeferralTxn(old(SlotOf(id)), id, control, now) && OnlySlot(id)
    {
      if control != id.generation {
        return Refused(GenerationMismatch);
      }
      if id !in deferrals || !deferrals[id].pending {
        return Ok(None);
      }
      if id in active {
        if !active[id].source.DeferralReraise? {
          return Refused(Conflict);
        }
        deferrals := deferrals[id := deferrals[id].(pending := false)];
        return Ok(Some(active[id]));
      }
      var intent := NewIntent(id, DeferralReraise, deferrals[id].subject, [deferrals[id].question], Ready, now);
      active := active[id := intent];
      deferrals := deferrals[id := deferrals[id].(pending := false)];
      return Ok(Some(intent));
    }

    method AdvanceFetched(id: IntentId, generation: nat, reconcile: bool, now: int) returns (r: Fetch)
      modifies this
      ensures (SlotOf(id), r) == AdvanceTxn(old(SlotOf(id)), generation, reconcile, now) && OnlySlot(id)
    {
      if id !in active {
        return Missed;
      }
      var intent := active[id];
      if intent.id.generation != generation || !(intent.state.Ready? || intent.state.PendingReceipt?) {
        return Missed;
      }
      var attempt := AttemptFor(id);
      attempt := attempt.(fetches := attempt.fetches + 1, lastFetched := Some(now));
      attempts := attempts[id := attempt];
      if reconcile {
        var delivered := intent.(state := Delivered, deliveredAt := Some(now), receipt := Some(ReconciledReceipt));
        active := active[id := delivered];
        return Reconciled;
      }
      if attempt.fetches >= UNACKNOWLEDGED_FETCH_BUDGET {
        var reason := if attempt.requeues > 0 then TransientAfterRequeue else Unacknowledged;
        MoveToDeadLetters(id, intent, reason, attempt, now);
        return Parked(reason);
      }
      return HandedOut(Hydrated(intent, attempt));
    }

    method RetireCaptureReceipt(id: IntentId, generation: nat, reason: Reason, now: int) returns (retired: bool)
      modifies this
      ensures (SlotOf(id), retired) == RetireTxn(old(SlotOf(id)), generation, reason, now) && OnlySlot(id)
    {
      if id !in active {
        return false;
      }
      var intent := active[id];
      var attempt := AttemptFor(id);
      if || intent.id.generation != generation || !intent.state.Ready?
         || !IsCaptureReceipt(intent) || attempt.fetches > 0
      {
        return false;
      }
      MoveToDeadLetters(id, intent, reason, attempt, now);
      return true;
    }

    method RecordRejection(id: IntentId, generation: nat, code: Code, now: int)
      returns (r: Result<(Option<Hydrated>, Option<Reason>)>)
      modifies this
      ensures (SlotOf(id), r) == RejectTxn(old(SlotOf(id)), control, generation, code, now) && OnlySlot(id)
    {
      if control != generation {
        return Refused(GenerationMismatch);
      }
      if id !in active {
        return Ok((None, None));
      }
      var intent := active[id];
      if intent.id.generation != generation {
        return Refused(DocumentGenerationMismatch);
      }
      var attempt := AttemptFor(id);
      if !Open(intent) || !Permanent(code) {
        return Ok((Some(Hydrated(intent, attempt)), None));
      }
      attempt := attempt.(rejections := attempt.rejections + 1, lastCode := Some(code), lastRejection := Some(now));
      attempts := attempts[id := attempt];
      if attempt.rejections >= MATERIALIZATION_REJECTION_BUDGET {
        MoveToDeadLetters(id, intent, PermanentRejection(code), attempt, now);
        var parked := intent.(state := DeadLettered, reason := Some(PermanentRejection(code)));
        return Ok((Some(Hydrated(parked, attempt)), Some(PermanentRejection(code))));
      }
      return Ok((Some(Hydrated(intent, attempt)), None));
    }

    method RecordSuppression(id: IntentId, generation: nat, now: int) returns (r: Result<Option<Hydrated>>)
      modifies this
      ensures (SlotOf(id), r) == DeferTxn(old(SlotOf(id)), control, generation, now) && OnlySlot(id)
    {
      if control != generation {
        return Refused(GenerationMismatch);
      }
      if id !in active {
        return Ok(None);
      }
      var intent := active[id];
      if intent.id.generation != generation {
        return Refused(DocumentGenerationMismatch);
      }
      var attempt := AttemptFor(id);
      if !Open(intent) {
        return Ok(Some(Hydrated(intent, attempt)));
      }
      var first := if attempt.firstDeferred.Some? then attempt.firstDeferred.value else now;
      attempt := attempt.(firstDeferred := Some(first), lastDeferral := Some(now));
      attempts := attempts[id := attempt];
      if now - first >= CONTINUOUS_DEFERRAL_BUDGET {
        MoveToDeadLetters(id, intent, DeferredBeyondBudget, attempt, now);
        return Ok(Some(Hydrated(intent.(state := DeadLettered, reason := Some(DeferredBeyondBudget)), attempt)));
      }
      return Ok(Some(Hydrated(intent, attempt)));
    }

    method AcknowledgeMaterialization(id: IntentId, generation: nat, receipt: Receipt, now: int)
      returns (r: Result<Intent>)
      modifies this
      ensures (SlotOf(id), r) == AcknowledgeTxn(old(SlotOf(id)), control, generation, receipt, now) && OnlySlot(id)
    {
      if control != generation {
        return Refused(GenerationMismatch);
      }
      if id !in active {
        return Refused(NotReady);
      }
      var intent := active[id];
      if intent.id.generation != generation {
        return Refused(DocumentGenerationMismatch);
      }
      if intent.state.Delivered? {
        if intent.receipt != Some(receipt) && intent.receipt != Some(ReconciledReceipt) {
          return Refused(Conflict);
        }
        return Ok(intent);
      }
      var attempt := AttemptFor(id);
      var repair := intent.state.DeadLettered? && Transient(intent.reason) && attempt.requeues == 0;
      if intent.state.DeadLettered? && !repair {
        return Ok(intent);
      }
      var delivered := intent.(state := Delivered, deliveredAt := Some(now), receipt := Some(receipt));
      active := active[id := delivered];
      if repair {
        attempts := attempts[id := attempt.(requeues := 1)];
      }
      return Ok(delivered);
    }

    method RequeueTransientDeadLetter(id: IntentId, generation: nat, now: int) returns (r: Option<Intent>)
      modifies this
      ensures (SlotOf(id), r) == RequeueTxn(old(SlotOf(id)), generation, now) && OnlySlot(id)
    {
      if id !in dead {
        return None;
      }
      var intent := dead[id].intent;
      var attempt := if id in attempts then attempts[id] else dead[id].attempt;
      if || intent.id.generation != generation || !intent.state.DeadLettered?
         || !Transient(intent.reason) || attempt.requeues != 0
      {
        return None;
      }
      var terminalAt := if attempt.lastRejection.Some? then attempt.lastRejection else attempt.lastFetched;
      if terminalAt.None? || now - terminalAt.value < TRANSIENT_DEAD_LETTER_REPAIR_AGE {
        return None;
      }
      var requeued := intent.(state := Ready, reason := None);
      active := active[id := requeued];
      attempt := AttemptFor(id);
      attempt := attempt.(fetches := 0, requeues := 1, rejections := 0, lastCode := None, lastRejection := None);
      attempts := attempts[id := attempt];
      dead := dead - {id};
      return Some(requeued);
    }
  }
}
