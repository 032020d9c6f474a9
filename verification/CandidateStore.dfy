/**
  The Candidate store as it runs: each operation reads its documents, checks them in order and writes
  them one by one. Every method is proved to be the step that the runs are made of.
*/
module CandidateStore {
  import opened Prelude
  import opened CandidateAnnotations
  import opened IntegrationOutbox
  import opened CandidateRecords

  class Candidates {
    var generation: nat
    var candidates: map<CandidateKey, Candidate>
    var aliases: map<CandidateKey, Alias>
    var pending: map<SemanticKey, CandidateKey>
    var claims: map<CandidateKey, PromotionClaim>
    var tasks: map<TaskKey, Task>
    var outbox: map<CandidateKey, Row>

    constructor ()
      ensures Documents() == Store(0, map[], map[], map[], map[], map[], map[])
    {
      generation := 0;
      candidates, aliases, pending := map[], map[], map[];
      claims, tasks, outbox := map[], map[], map[];
    }

    ghost function Documents(): (s: Store)
      reads this
    {
      Store(generation, candidates, aliases, pending, claims, tasks, outbox)
    }

    /** The Candidate that a proposal's identity claim names, if it still exists in this generation. */
    method ReadHolder(accountGeneration: nat, proposal: Proposal) returns (holder: Option<Candidate>)
      ensures holder == Holder(Documents(), accountGeneration, proposal)
    {
      if proposal.subject != TaskSubject || proposal.action != CreateTask {
        return None;
      }
      var k := SemanticKey(accountGeneration, proposal.identity);
      if k !in pending || pending[k] !in candidates {
        return None;
      }
      var c := candidates[pending[k]];
      if c.key.generation != accountGeneration {
        return None;
      }
      return Some(c);
    }

    method MergeAnnotations(c: Candidate, proposal: Proposal) returns (merged: Candidate)
      ensures merged == Merged(c, proposal)
    {
      var evidence := MergeEvidence(c.proposal.evidence, proposal.evidence);
      var p := c.proposal.(evidence := evidence);
      p := p.(capture := Max(c.proposal.capture, proposal.capture));
      p := p.(ownership := Max(c.proposal.ownership, proposal.ownership));
      if c.proposal.action == CreateTask && proposal.action == CreateTask {
        p := p.(dueConfidence := MaxOption(c.proposal.dueConfidence, proposal.dueConfidence));
        p := p.(priority := MaxOption(c.proposal.priority, proposal.priority));
      }
      return c.(proposal := p);
    }

    method AnnotateTask(t: Task, c: Candidate) returns (annotated: Task)
      ensures annotated == AnnotatedTask(t, c)
    {
      var provenance := MergeProvenance(t.provenance, c.proposal.evidence);
      return t.(capture := Max(t.capture, c.proposal.capture), ownership := Max(t.ownership, c.proposal.ownership),
                provenance := provenance, dueConfidence := MaxOption(t.dueConfidence, c.proposal.dueConfidence),
                priority := MaxOption(t.priority, c.proposal.priority));
    }

    /**
      The create step: writes the alias of this key, and with it either a new document or the annotations of
      its holder.
    */
    method CreateCandidate(accountGeneration: nat, key: string, proposal: Proposal, now: int)
      returns (r: Result<Candidate>)
      modifies this
      ensures (Documents(), r) == CreateTxn(old(Documents()), accountGeneration, key, proposal, now)
    {
      hide Merged, AnnotatedTask, Lapsed;
      if Blank(key) {
        return Refused(Invalid);
      }
      if generation != accountGeneration {
        return Refused(GenerationMismatch);
      }
      var id := CandidateKey(accountGeneration, key);
      if id in aliases {
        var alias := aliases[id];
        if alias.generation != accountGeneration || alias.request != proposal {
          return Refused(Conflict);
        }
        if alias.target !in candidates || candidates[alias.target].key.generation != accountGeneration {
          return Refused(Conflict);
        }
        return Ok(candidates[alias.target]);
      }
      if id in candidates {
        if candidates[id].proposal != proposal {
          return Refused(Conflict);
        }
        aliases := aliases[id := Alias(id, proposal, accountGeneration)];
        return Ok(candidates[id]);
      }
      var holder := ReadHolder(accountGeneration, proposal);
      if holder.Some? {
        r := Coalesce(id, proposal, holder.value, now);
        if r.Ok? {
          MergeKeepsKey(holder.value, proposal);
          return;
        }
      }
      var record := NewCandidate(id, proposal, now);
      candidates := candidates[id := record];
      aliases := aliases[id := Alias(id, proposal, accountGeneration)];
      if proposal.subject == TaskSubject && proposal.action == CreateTask {
        pending := pending[SemanticKey(accountGeneration, proposal.identity) := id];
      }
      return Ok(record);
    }

    /**
      The branch of the create step that rewrites the holder instead of adding a document; refused when the
      holder has lapsed.
    */
    method Coalesce(id: CandidateKey, proposal: Proposal, holder: Candidate, now: int) returns (r: Result<Candidate>)
      requires Holder(Documents(), id.generation, proposal) == Some(holder)
      modifies this
      ensures var s := old(Documents());
              if ReusablePending(holder, now) || ReusableAccept(s, holder, id.generation)
              then
                && r == Ok(Merged(holder, proposal))
                && Documents() == s.(
                     candidates := s.candidates[s.pending[SemanticKey(id.generation, proposal.identity)]
                                                := Merged(holder, proposal)],
                     tasks := if ReusableAccept(s, holder, id.generation)
                              then s.tasks[holder.resultTask.value
                                           := AnnotatedTask(s.tasks[holder.resultTask.value], Merged(holder, proposal))]
                              else s.tasks,
                     aliases := s.aliases[id := Alias(holder.key, proposal, id.generation)],
                     pending := s.pending[SemanticKey(id.generation, proposal.identity) := holder.key])
              else r.Refused? && Documents() == s
    {
      hide AnnotatedTask, Lapsed;
      var active := holder.status == Accepted && holder.resultTask.Some? && holder.resultTask.value in tasks;
      if active {
        var task := tasks[holder.resultTask.value];
        active := (task.generation == 0 || task.generation == id.generation) && task.active
            && task.identity == holder.proposal.identity;
      }
      var live := holder.status == Pending && !Lapsed(holder, now);
      if !active && !live {
        return Refused(Conflict);
      }
      var k := SemanticKey(id.generation, proposal.identity);
      var merged := MergeAnnotations(holder, proposal);
      candidates := candidates[pending[k] := merged];
      if active {
        var annotated := AnnotateTask(tasks[holder.resultTask.value], merged);
        tasks := tasks[holder.resultTask.value := annotated];
      }
      aliases := aliases[id := Alias(merged.key, proposal, id.generation)];
      pending := pending[k := merged.key];
      return Ok(merged);
    }

    /** The accept step: Candidate, task and outbox row change together, or none of them does. */
    method ResolveTaskCandidate(accountGeneration: nat, id: CandidateKey, linksValid: bool, changed: Task, now: int)
      returns (r: Result<Receipt>)
      modifies this
      ensures (Documents(), r) == ResolveTxn(old(Documents()), accountGeneration, id, linksValid, changed, now)
    {
      if generation != accountGeneration {
        return Refused(GenerationMismatch);
      }
      if id !in candidates {
        return Refused(NotFound);
      }
      var c := candidates[id];
      if c.key.generation != accountGeneration {
        return Refused(GenerationMismatch);
      }
      if c.status == Accepted {
        return Ok(Receipt(id, Accepted, c.resultTask, false, c.resolvedAt));
      }
      if c.status != Pending {
        return Refused(Conflict);
      }
      if id in claims && BlocksResolution(claims[id], now) {
        return Refused(Conflict);
      }
      if c.proposal.subject == WorkstreamSubject {
        return Refused(ResolverUnavailable);
      }
      var task := CandidateTask(accountGeneration, id);
      if c.proposal.action == CreateTask {
        if !linksValid || (task in tasks && tasks[task].candidate != Some(id)) {
          return Refused(Conflict);
        }
        if task !in tasks {
          tasks := tasks[task := CreatedTask(c)];
        }
        outbox := outbox[id := NewRow(accountGeneration)];
      } else {
        if c.proposal.target.None? || c.proposal.target.value !in tasks {
          return Refused(NotFound);
        }
        task := c.proposal.target.value;
        if tasks[task].generation != 0 && tasks[task].generation != accountGeneration {
          return Refused(GenerationMismatch);
        }
        if !linksValid {
          return Refused(Conflict);
        }
        tasks := tasks[task := changed.(generation := accountGeneration)];
      }
      c := c.(status := Accepted, resultTask := Some(task), resolvedAt := Some(now), expiresAt := None);
      candidates := candidates[id := c];
      return Ok(Receipt(id, Accepted, Some(task), true, Some(now)));
    }

    method ResolveWithoutMutation(accountGeneration: nat, id: CandidateKey, status: Status, now: int)
      returns (r: Result<Receipt>)
      modifies this
      ensures (Documents(), r) == CloseTxn(old(Documents()), accountGeneration, id, status, now)
    {
      if status != Rejected && status != Expired {
        return Refused(Invalid);
      }
      if generation != accountGeneration {
        return Refused(GenerationMismatch);
      }
      if id !in candidates {
        return Refused(NotFound);
      }
      var c := candidates[id];
      if c.key.generation != accountGeneration {
        return Refused(GenerationMismatch);
      }
      if c.status == status {
        return Ok(Receipt(id, status, None, false, c.resolvedAt));
      }
      if c.status != Pending {
        return Refused(Conflict);
      }
      if id in claims && BlocksResolution(claims[id], now) {
        return Refused(Conflict);
      }
      candidates := candidates[id := c.(status := status, resolvedAt := Some(now), expiresAt := None)];
      return Ok(Receipt(id, status, None, true, Some(now)));
    }

    /**
      The reconcile step: writes the Candidate and, when a token is presented, ends its claim; tasks and
      outbox stay as they are.
    */
    method ReconcileMigratedCandidate(accountGeneration: nat, id: CandidateKey, status: Status, task: Option<TaskKey>,
                                      token: Option<Token>, at: int) returns (r: Result<Candidate>)
      modifies this
      ensures (Documents(), r) == ReconcileTxn(old(Documents()), accountGeneration, id, status, task, token, at)
    {
      if status == Pending || (status == Accepted && task.None?) {
        return Refused(Invalid);
      }
      if generation != accountGeneration {
        return Refused(GenerationMismatch);
      }
      if id !in candidates {
        return Refused(NotFound);
      }
      var c := candidates[id];
      if c.key.generation != accountGeneration {
        return Refused(GenerationMismatch);
      }
      if c.status == status {
        return Ok(c);
      }
      if c.status != Pending {
        return Refused(Conflict);
      }
      if id in claims && BlocksResolution(claims[id], at) {
        var claim := claims[id];
        if token.None? || claim.token != token.value {
          return Refused(Conflict);
        }
        if !OwnerActive(claim, at) || claim.phase != MutationStarted {
          return Refused(Conflict);
        }
        if status != Accepted || claim.task != task {
          return Refused(Conflict);
        }
      } else if token.Some? {
        return Refused(Conflict);
      }
      var resolved := c.(status := status, resolvedAt := Some(at), expiresAt := None);
      if task.Some? {
        resolved := resolved.(resultTask := task);
      }
      candidates := candidates[id := resolved];
      if token.Some? {
        claims := claims[id := claims[id].(active := false)];
      }
      return Ok(resolved);
    }

    method ClaimForLegacyPromotion(accountGeneration: nat, id: CandidateKey, minted: Token, leaseSeconds: nat,
                                   resume: bool, now: int)
      returns (r: Result<Token>)
      modifies this
      ensures (Documents(), r) ==
                ClaimPromotionTxn(old(Documents()), accountGeneration, id, minted, leaseSeconds, resume, now)
    {
      if generation != accountGeneration {
        return Refused(GenerationMismatch);
      }
      if id !in candidates {
        return Refused(NotFound);
      }
      if candidates[id].key.generation != accountGeneration {
        return Refused(GenerationMismatch);
      }
      if candidates[id].status != Pending {
        return Refused(Conflict);
      }
      var expires := now + leaseSeconds;
      if id in claims {
        var claim := claims[id];
        if OwnerActive(claim, now) {
          if resume {
            return Ok(claim.token);
          }
          return Refused(Conflict);
        }
        if claim.active && claim.phase == MutationStarted {
          if claim.task.None? {
            return Refused(Conflict);
          }
          claims := claims[id := claim.(token := minted, leaseExpiresAt := expires)];
          return Ok(minted);
        }
      }
      claims := claims[id := PromotionClaim(true, minted, PreMutation, expires, None, None)];
      return Ok(minted);
    }

    method BeginLegacyPromotion(accountGeneration: nat, id: CandidateKey, token: Token, task: TaskKey,
                                preferred: Option<TaskKey>, committed: bool, leaseSeconds: nat, now: int)
      returns (r: Result<Reservation>)
      modifies this
      ensures (Documents(), r) ==
                BeginPromotionTxn(old(Documents()), accountGeneration, id, token, task, preferred, committed,
                                  leaseSeconds, now)
    {
      if generation != accountGeneration {
        return Refused(GenerationMismatch);
      }
      if id !in candidates {
        return Refused(NotFound);
      }
      if candidates[id].key.generation != accountGeneration {
        return Refused(GenerationMismatch);
      }
      if candidates[id].status != Pending || id !in claims {
        return Refused(Conflict);
      }
      var claim := claims[id];
      if !claim.active || claim.token != token || !OwnerActive(claim, now) {
        return Refused(Conflict);
      }
      if claim.phase == MutationStarted {
        if claim.task.None? || claim.kind.None? {
          return Refused(Conflict);
        }
        return Ok(Reservation(claim.task.value, claim.kind.value));
      }
      var reserved := task;
      var kind := if committed then ReservedCommitted else ReservedCreate;
      if preferred.Some? && !committed {
        if preferred.value in tasks && tasks[preferred.value].active {
          reserved := preferred.value;
          kind := ReservedExisting;
        }
      }
      claims := claims[id := claim.(phase := MutationStarted, task := Some(reserved), kind := Some(kind),
                                    leaseExpiresAt := now + leaseSeconds)];
      return Ok(Reservation(reserved, kind));
    }
  }
}
