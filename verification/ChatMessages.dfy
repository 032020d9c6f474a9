/**
  Saving a chat message under a client message id: the first save creates the row, later saves are
  retries or journal revisions, and they may arrive in any order, repeatedly and concurrently.
*/
module ChatMessages {
  import opened Prelude

  type Block = string

  /** One save request; `acquired` is the session taken when the request names none. */
  datatype Request = Request(
    sender: string,
    app: Option<string>,
    source: string,
    session: Option<string>,
    acquired: string,
    text: string,
    metadata: Option<string>,
    blocks: Option<seq<Block>>,
    revision: Option<int>)

  /** The caller-controlled payload whose digest is stored; the digest is taken to be injective. */
  datatype Payload = Payload(
    sender: string, app: Option<string>, source: string, session: Option<string>,
    text: string, metadata: Option<string>, blocks: Option<seq<Block>>)

  datatype Row = Row(
    sender: string,
    app: Option<string>,
    source: string,
    session: string,
    text: string,
    metadata: Option<string>,
    blocks: Option<seq<Block>>,
    digest: Option<Payload>,
    revision: Option<int>)

  datatype Outcome = Created | Updated | Unchanged | Conflicted

  function PayloadOf(q: Request): (p: Payload) {
    Payload(q.sender, q.app, q.source, q.session, q.text, q.metadata, q.blocks)
  }

  function NewRow(q: Request): (row: Row) {
    Row(q.sender, q.app, q.source, if q.session.Some? then q.session.value else q.acquired,
        q.text, q.metadata, q.blocks, Some(PayloadOf(q)), q.revision)
  }

  predicate SameIdentity(row: Row, q: Request) {
    && row.sender == q.sender && row.source == q.source && row.app == q.app
    && (q.session.Some? ==> row.session == q.session.value)
  }

  /** Rows older than the payload digest are compared field by field. */
  predicate SamePayload(row: Row, q: Request) {
    if row.digest.Some? then row.digest.value == PayloadOf(q)
    else
      && row.text == q.text && row.metadata == q.metadata && (q.blocks.Some? ==> row.blocks == q.blocks)
      && SameIdentity(row, q)
  }

  function StoredRevision(row: Row): (n: int) {
    if row.revision.Some? && row.revision.value != 0 then row.revision.value else 1
  }

  /** Arbitrates a retry or a monotonic enrichment against the stored row, in one transaction. */
  function Arbitrate(row: Row, q: Request): (r: (Row, Outcome)) {
    if !SameIdentity(row, q) then (row, Conflicted)
    else if q.revision.None? || q.revision.value == StoredRevision(row) then
      (row, if SamePayload(row, q) then Unchanged else Conflicted)
    else if q.revision.value < StoredRevision(row) then (row, Unchanged)
    else
      (row.(text := q.text, metadata := q.metadata, digest := Some(PayloadOf(q)), revision := q.revision,
            blocks := if q.blocks.Some? then q.blocks else row.blocks),
       Updated)
  }

  /** A save that meets no other: what it does to the row, and what it reports. */
  function Deliver(row: Option<Row>, q: Request): (r: (Option<Row>, Outcome)) {
    if row.None? then (Some(NewRow(q)), Created)
    else (Some(Arbitrate(row.value, q).0), Arbitrate(row.value, q).1)
  }

  /** The row after a sequence of saves, one at a time. */
  function DeliverAll(qs: seq<Request>): (row: Option<Row>) {
    if qs == [] then None else Deliver(DeliverAll(qs[..|qs| - 1]), qs[|qs| - 1]).0
  }

  /** The save is one of the stored message: same sender, app and source, and the session if it names one. */
  predicate OfThisMessage(row: Row, q: Request) {
    && row.sender == q.sender && row.app == q.app && row.source == q.source
    && (q.session == None || q.session == Some(row.session))
  }

  predicate SameRequest(a: Request, b: Request) {
    && a.sender == b.sender && a.app == b.app && a.source == b.source && a.session == b.session
    && a.text == b.text && a.metadata == b.metadata && a.blocks == b.blocks
  }

  /** The stored digest tells two saves apart exactly if they differ in something the caller controls. */
  lemma DigestTellsRequestsApart(a: Request, b: Request)
    ensures NewRow(a).digest == NewRow(b).digest <==> SameRequest(a, b)
  {
  }

  /** The revision the row counts as having; rows without one, or with zero, are at their first. */
  predicate AtRevision(row: Row, n: int) {
    if row.revision.None? || row.revision == Some(0) then n == 1 else row.revision == Some(n)
  }

  /**
    How an arbitration ends. It conflicts exactly with a save of another message, or with another payload for the
    revision that is stored; it updates exactly for a later revision; and it then replaces text, metadata,
    revision and digest, the blocks if there are any, and nothing else.
  */
  lemma ArbitrationEnds(row: Row, q: Request, stored: Request, n: int)
    requires row.digest == NewRow(stored).digest && AtRevision(row, n)
    ensures var (row', outcome) := Arbitrate(row, q);
            && (outcome == Conflicted <==>
                  !OfThisMessage(row, q) || ((q.revision.None? || q.revision.value == n) && !SameRequest(q, stored)))
            && (outcome == Updated <==> OfThisMessage(row, q) && q.revision.Some? && q.revision.value > n)
            && outcome != Created
            && (outcome != Updated ==> row' == row)
            && (outcome == Updated ==>
                  && row'.text == q.text && row'.metadata == q.metadata && row'.revision == q.revision
                  && row'.digest == NewRow(q).digest && row'.blocks == (if q.blocks.Some? then q.blocks else row.blocks)
                  && row' == row.(text := q.text, metadata := q.metadata, revision := q.revision, digest := row'.digest,
                                  blocks := row'.blocks))
  {
  }

  /** A row older than the digests conflicts if a field differs that it can still be compared by. */
  lemma OldRowConflictsIff(row: Row, q: Request, n: int)
    requires row.digest.None? && AtRevision(row, n)
    ensures Arbitrate(row, q).1 == Conflicted <==>
              || !OfThisMessage(row, q)
              || (&& (q.revision.None? || q.revision.value == n)
                  && !(row.text == q.text && row.metadata == q.metadata && (q.blocks.Some? ==> row.blocks == q.blocks)))
  {
  }

  /** A created row holds the save as it came, in the session it named or the one acquired for it. */
  lemma CreatedRowHoldsTheSave(q: Request)
    ensures var (row, outcome) := Deliver(None, q);
            && outcome == Created && row.Some? && OfThisMessage(row.value, q)
            && row.value.text == q.text && row.value.metadata == q.metadata && row.value.blocks == q.blocks
            && row.value.revision == q.revision && row.value.digest.Some?
            && (q.session.None? ==> row.value.session == q.acquired)
  {
  }

  // ----- order of delivery -----

  /** Saves of one message: one identity, numbered revisions, one payload per revision. */
  ghost predicate Compatible(qs: seq<Request>) {
    && (forall q :: q in qs ==> q.revision.Some? && q.revision.value >= 1)
    && (forall a, b :: a in qs && b in qs ==> Siblings(a, b))
  }

  predicate Siblings(a: Request, b: Request) {
    && a.sender == b.sender && a.app == b.app && a.source == b.source && a.session == b.session
    && (a.revision == b.revision ==> PayloadOf(a) == PayloadOf(b))
  }

  ghost predicate Highest(qs: seq<Request>, m: Request) {
    m in qs && m.revision.Some? && forall q :: q in qs ==> q.revision.Some? && q.revision.value <= m.revision.value
  }

  predicate Carries(row: Row, m: Request) {
    row.text == m.text && row.metadata == m.metadata && row.revision == m.revision && row.digest == Some(PayloadOf(m))
  }

  ghost predicate SomeoneSuppliesBlocks(qs: seq<Request>) {
    exists q :: q in qs && q.blocks.Some?
  }

  /** Whatever the order, the row carries the highest revision delivered. */
  lemma {:induction false} HighestRevisionWins(qs: seq<Request>, m: Request)
    requires Compatible(qs) && Highest(qs, m)
    ensures var row := DeliverAll(qs);
            && row.Some? && SameIdentity(row.value, m) && Carries(row.value, m)
            && (m.blocks.Some? ==> row.value.blocks == m.blocks)
            && (!SomeoneSuppliesBlocks(qs) ==> row.value.blocks.None?)
  {
    hide DeliverAll, Deliver, Arbitrate, SameIdentity, Carries;
    var init, last := qs[..|qs| - 1], qs[|qs| - 1];
    assert qs == init + [last];
    DeliverCases(init, last);
    if init == [] {
      NewRowCarries(last);
    } else {
      HighestExists(init);
      var k :| Highest(init, k);
      HighestRevisionWins(init, k);
      assert Siblings(k, last) && Siblings(m, last) && Siblings(m, k);
      var row := DeliverAll(init).value;
      var winner := if last.revision.value > k.revision.value then last else k;
      ArbitrationKeepsHighest(row, k, last);
      SamePayloadCarries(Arbitrate(row, last).0, k, winner, m);
      assert !SomeoneSuppliesBlocks(qs) ==> !SomeoneSuppliesBlocks(init) && last.blocks.None?;
    }
  }

  lemma NewRowCarries(q: Request)
    ensures SameIdentity(NewRow(q), q) && Carries(NewRow(q), q) && NewRow(q).blocks == q.blocks
  {
  }

  lemma SamePayloadCarries(row: Row, k: Request, winner: Request, m: Request)
    requires Carries(row, winner) && PayloadOf(winner) == PayloadOf(m) && winner.revision == m.revision
    requires Siblings(k, m) && SameIdentity(row, k)
    ensures Carries(row, m) && SameIdentity(row, m)
  {
  }

  /** One arbitration: the later revision wins, and nothing conflicts. */
  lemma ArbitrationKeepsHighest(row: Row, k: Request, q: Request)
    requires Siblings(k, q) && SameIdentity(row, k) && Carries(row, k)
    requires k.revision.Some? && q.revision.Some? && k.revision.value >= 1
    ensures var (row', outcome) := Arbitrate(row, q);
            && SameIdentity(row', k) && !outcome.Conflicted? && !outcome.Created?
            && Carries(row', if q.revision.value > k.revision.value then q else k)
            && row'.blocks == if q.revision.value > k.revision.value && q.blocks.Some? then q.blocks else row.blocks
  {
  }

  lemma {:induction false} HighestExists(qs: seq<Request>)
    requires qs != [] && forall q :: q in qs ==> q.revision.Some?
    ensures exists m :: Highest(qs, m)
  {
    var init, last := qs[..|qs| - 1], qs[|qs| - 1];
    assert qs == init + [last];
    if init == [] {
      assert Highest(qs, last);
    } else {
      HighestExists(init);
      var k :| Highest(init, k);
      assert Highest(qs, if k.revision.value < last.revision.value then last else k);
    }
  }

  /** Once the highest revision is in, the remaining saves change nothing. */
  lemma {:induction false} LateDeliveriesChangeNothing(before: seq<Request>, late: seq<Request>, m: Request)
    requires before != [] && Compatible(before + late) && Highest(before + late, m) && m in before
    ensures DeliverAll(before + late) == DeliverAll(before)
  {
    hide DeliverAll, Deliver, Arbitrate, SameIdentity, Carries;
    if late == [] {
      assert before + late == before;
    } else {
      var init, last := late[..|late| - 1], late[|late| - 1];
      var all := before + init;
      assert before + late == all + [last];
      LateDeliveriesChangeNothing(before, init, m);
      HighestRevisionWins(all, m);
      DeliverCases(all, last);
      StaleArbitration(DeliverAll(all).value, m, last);
    }
  }

  lemma StaleArbitration(row: Row, m: Request, q: Request)
    requires Siblings(m, q) && SameIdentity(row, m) && Carries(row, m)
    requires m.revision.Some? && q.revision.Some? && 1 <= q.revision.value <= m.revision.value
    ensures Arbitrate(row, q).0 == row
  {
  }

  /**
    Final rows agree for every order of delivery exactly when the highest revision supplies its content
    blocks, or no save supplies any: blocks are patched only when supplied.
  */
  lemma OrderIndependentIff(qs: seq<Request>, m: Request)
    requires Compatible(qs) && Highest(qs, m)
    ensures (m.blocks.Some? || !SomeoneSuppliesBlocks(qs)) <==>
              forall p, p' :: multiset(p) == multiset(qs) && multiset(p') == multiset(qs) ==> SameFinalContent(p, p')
  {
    if m.blocks.Some? || !SomeoneSuppliesBlocks(qs) {
      forall p, p' | multiset(p) == multiset(qs) && multiset(p') == multiset(qs) ensures SameFinalContent(p, p') {
        Reordered(qs, p, m);
        Reordered(qs, p', m);
        HighestRevisionWins(p, m);
        HighestRevisionWins(p', m);
      }
    } else {
      var q :| q in qs && q.blocks.Some?;
      var p, p' := OrderMatters(qs, m, q);
    }
  }

  predicate SameFinalContent(p: seq<Request>, p': seq<Request>) {
    var a, b := DeliverAll(p), DeliverAll(p');
    a.Some? && b.Some? && a.value.text == b.value.text && a.value.metadata == b.value.metadata
    && a.value.blocks == b.value.blocks && a.value.revision == b.value.revision
  }

  lemma Reordered(qs: seq<Request>, p: seq<Request>, m: Request)
    requires multiset(p) == multiset(qs) && Compatible(qs) && Highest(qs, m)
    ensures Compatible(p) && Highest(p, m) && (SomeoneSuppliesBlocks(p) ==> SomeoneSuppliesBlocks(qs))
  {
    assert forall q :: q in p <==> q in multiset(p);
    assert forall q :: q in qs <==> q in multiset(qs);
    assert forall q :: q in p <==> q in qs;
  }

  /** If the highest revision omits its blocks and another save has some, who comes first decides. */
  lemma OrderMatters(qs: seq<Request>, m: Request, q: Request) returns (p: seq<Request>, p': seq<Request>)
    requires Compatible(qs) && Highest(qs, m) && m.blocks.None? && q in qs && q.blocks.Some?
    ensures multiset(p) == multiset(qs) && multiset(p') == multiset(qs) && !SameFinalContent(p, p')
  {
    hide DeliverAll, Compatible, SameFinalContent;
    var rest := BroughtForward(qs, m);
    var others := OthersAfter(qs, m, q, rest);
    p, p' := [m] + rest, [q, m] + others;
    FirstWins(qs, p, rest, m);
    SecondKeepsBlocks(qs, p', others, q, m);
    BlocksTell(p, p');
  }

  lemma BlocksTell(p: seq<Request>, p': seq<Request>)
    requires DeliverAll(p).Some? && DeliverAll(p').Some? && DeliverAll(p).value.blocks != DeliverAll(p').value.blocks
    ensures !SameFinalContent(p, p')
  {
  }

  ghost function OthersAfter(qs: seq<Request>, m: Request, q: Request, rest: seq<Request>): (others: seq<Request>)
    requires multiset([m] + rest) == multiset(qs) && q in qs && q != m
    ensures multiset([q, m] + others) == multiset(qs)
  {
    assert q in multiset(qs);
    assert multiset([m] + rest) == multiset{m} + multiset(rest);
    assert q in multiset(rest);
    var others := BroughtForward(rest, q);
    assert multiset([q] + others) == multiset{q} + multiset(others);
    assert multiset([q, m] + others) == multiset{q, m} + multiset(others);
    others
  }

  /** Moves one occurrence to the front. */
  ghost function BroughtForward(qs: seq<Request>, m: Request): (rest: seq<Request>)
    requires m in qs
    ensures multiset([m] + rest) == multiset(qs)
  {
    var i :| 0 <= i < |qs| && qs[i] == m;
    assert qs == qs[..i] + [m] + qs[i + 1..];
    qs[..i] + qs[i + 1..]
  }

  lemma FirstWins(qs: seq<Request>, p: seq<Request>, rest: seq<Request>, m: Request)
    requires Compatible(qs) && Highest(qs, m) && m.blocks.None? && p == [m] + rest && multiset(p) == multiset(qs)
    ensures DeliverAll(p).Some? && DeliverAll(p).value.blocks.None?
  {
    Reordered(qs, p, m);
    LateDeliveriesChangeNothing([m], rest, m);
    assert [m][..0] == [];
  }

  lemma SecondKeepsBlocks(qs: seq<Request>, p: seq<Request>, rest: seq<Request>, q: Request, m: Request)
    requires Compatible(qs) && Highest(qs, m) && m.blocks.None? && q.blocks.Some?
    requires p == [q, m] + rest && multiset(p) == multiset(qs)
    ensures DeliverAll(p).Some? && DeliverAll(p).value.blocks == q.blocks
  {
    Reordered(qs, p, m);
    LateDeliveriesChangeNothing([q, m], rest, m);
    assert q in p;
    TwoDeliveries(q, m);
  }

  lemma TwoDeliveries(q: Request, m: Request)
    requires Siblings(q, m) && q.revision.Some? && m.revision.Some? && 1 <= q.revision.value <= m.revision.value
    requires m.blocks.None? && q.blocks.Some?
    ensures DeliverAll([q, m]).Some? && DeliverAll([q, m]).value.blocks == q.blocks
  {
    assert [q, m][..1] == [q] && [q][..0] == [];
    assert DeliverAll([q]) == Some(NewRow(q));
  }

  // ----- concurrent saves -----

  /**
    Where one save is: its point read, its create, its arbitration (after a lost create or not), its answer
    with its place in the log, or the error for a row that vanished under it.
  */
  datatype Phase = Reading | Creating | Arbitrating(lostCreate: bool) | Done(outcome: Outcome, place: nat) | Vanished

  /** `log` lists the saves that have taken effect, in that order. */
  datatype State = State(row: Option<Row>, phases: seq<Phase>, log: seq<Request>)

  function Step(s: State, qs: seq<Request>, p: nat): (s': State)
    requires p < |s.phases| == |qs|
  {
    match s.phases[p]
    case Reading => s.(phases := s.phases[p := if s.row.Some? then Arbitrating(false) else Creating])
    case Creating =>
      if s.row.Some? then s.(phases := s.phases[p := Arbitrating(true)])
      else State(Some(NewRow(qs[p])), s.phases[p := Done(Created, |s.log|)], s.log + [qs[p]])
    case Arbitrating(lostCreate) =>
      if s.row.Some? then
        var (row, outcome) := Arbitrate(s.row.value, qs[p]);
        State(Some(row), s.phases[p := Done(outcome, |s.log|)], s.log + [qs[p]])
      else s.(phases := s.phases[p := if lostCreate then Vanished else Creating])
    case Done(_, _) => s
    case Vanished => s
  }

  ghost predicate IsRun(tr: seq<State>, qs: seq<Request>, steps: seq<nat>) {
    && |tr| == |steps| + 1
    && tr[0] == State(None, seq(|qs|, _ => Reading), [])
    && forall i :: 0 <= i < |steps| ==> Follows(tr, qs, steps, i)
  }

  ghost predicate Follows(tr: seq<State>, qs: seq<Request>, steps: seq<nat>, i: nat)
    requires i < |steps| && i + 1 < |tr|
  {
    steps[i] < |tr[i].phases| == |qs| && tr[i + 1] == Step(tr[i], qs, steps[i])
  }

  /** The answer of this save is the one it would get in its place among saves made one at a time. */
  ghost predicate AnsweredInPlace(log: seq<Request>, phase: Phase, q: Request) {
    && !phase.Vanished?
    && (phase.Arbitrating? ==> log != [])
    && (phase.Done? ==>
          phase.place < |log| && log[phase.place] == q && phase.outcome == Deliver(DeliverAll(log[..phase.place]), q).1)
  }

  ghost predicate PlacesDiffer(a: Phase, b: Phase) {
    a.Done? && b.Done? ==> a.place != b.place
  }

  /** The row and every answer are those of the same saves made one at a time, in log order. */
  ghost predicate Linearized(s: State, qs: seq<Request>) {
    && |s.phases| == |qs|
    && s.row == DeliverAll(s.log)
    && (forall q :: q in s.log ==> q in qs)
    && (forall p :: 0 <= p < |qs| ==> AnsweredInPlace(s.log, s.phases[p], qs[p]))
    && (forall p, p' :: 0 <= p < p' < |qs| ==> PlacesDiffer(s.phases[p], s.phases[p']))
    && (s.log != [] ==> exists p :: 0 <= p < |qs| && s.phases[p].Done? && s.phases[p].place == 0)
  }

  lemma StepLinearizes(s: State, qs: seq<Request>, p: nat)
    requires Linearized(s, qs) && p < |qs|
    ensures Linearized(Step(s, qs, p), qs)
  {
    hide Arbitrate, Deliver, DeliverAll, NewRow;
    var s' := Step(s, qs, p);
    assert AnsweredInPlace(s.log, s.phases[p], qs[p]);
    DeliverCases(s.log, qs[p]);
    assert s'.log == s.log || s'.log == s.log + [qs[p]];
    forall k | 0 <= k < |qs| ensures AnsweredInPlace(s'.log, s'.phases[k], qs[k]) {
      assert AnsweredInPlace(s.log, s.phases[k], qs[k]);
      if k != p && s.phases[k].Done? {
        assert s'.log[..s.phases[k].place] == s.log[..s.phases[k].place];
      }
    }
    forall k, k' | 0 <= k < k' < |qs| ensures PlacesDiffer(s'.phases[k], s'.phases[k']) {
      assert PlacesDiffer(s.phases[k], s.phases[k']);
      assert AnsweredInPlace(s.log, s.phases[k], qs[k]) && AnsweredInPlace(s.log, s.phases[k'], qs[k']);
    }
    if s.log != [] {
      var k :| 0 <= k < |qs| && s.phases[k].Done? && s.phases[k].place == 0;
      assert s'.phases[k] == s.phases[k];
    } else if s'.log != [] {
      assert s'.phases[p].Done? && s'.phases[p].place == 0;
    }
  }

  /** Appending a save to the log delivers it to the row that the log built. */
  lemma DeliverCases(log: seq<Request>, q: Request)
    ensures DeliverAll(log).Some? <==> log != []
    ensures (log + [q])[..|log|] == log
    ensures DeliverAll(log + [q]) == Deliver(DeliverAll(log), q).0
    ensures log == [] ==> Deliver(DeliverAll(log), q) == (Some(NewRow(q)), Created)
    ensures log != [] ==> var row := DeliverAll(log).value;
                          Deliver(DeliverAll(log), q) == (Some(Arbitrate(row, q).0), Arbitrate(row, q).1)
  {
    assert (log + [q])[..|log|] == log;
  }

  lemma {:induction false} RunLinearizes(tr: seq<State>, qs: seq<Request>, steps: seq<nat>, n: nat)
    requires IsRun(tr, qs, steps) && n < |tr|
    ensures Linearized(tr[n], qs)
  {
    if n > 0 {
      RunLinearizes(tr, qs, steps, n - 1);
      assert Follows(tr, qs, steps, n - 1);
      StepLinearizes(tr[n - 1], qs, steps[n - 1]);
    }
  }

  function StepsLeft(phase: Phase): (n: nat) {
    match phase
    case Reading => 3
    case Creating => 2
    case Arbitrating(_) => 1
    case _ => 0
  }

  /** Every save answers within three steps of its own, whatever the others do. */
  lemma EveryStepNearsTheAnswer(tr: seq<State>, qs: seq<Request>, steps: seq<nat>, n: nat, p: nat)
    requires IsRun(tr, qs, steps) && n < |steps| && p < |qs|
    ensures |tr[n].phases| == |tr[n + 1].phases| == |qs|
    ensures steps[n] == p && !tr[n].phases[p].Done? ==> StepsLeft(tr[n + 1].phases[p]) < StepsLeft(tr[n].phases[p])
    ensures steps[n] != p || tr[n].phases[p].Done? ==> tr[n + 1].phases[p] == tr[n].phases[p]
  {
    hide Arbitrate, DeliverAll;
    RunLinearizes(tr, qs, steps, n);
    assert Follows(tr, qs, steps, n);
    assert AnsweredInPlace(tr[n].log, tr[n].phases[p], qs[p]);
    DeliverCases(tr[n].log, qs[p]);
  }

  ghost predicate Finished(s: State) {
    forall p :: 0 <= p < |s.phases| ==> s.phases[p].Done? || s.phases[p].Vanished?
  }

  predicate Reports(phase: Phase, outcome: Outcome) {
    phase.Done? && phase.outcome == outcome
  }

  /**
    When every concurrent save has answered, exactly one reports that it created the row, none conflicts,
    and the row carries the highest revision among them.
  */
  lemma ConcurrentSavesConverge(tr: seq<State>, qs: seq<Request>, steps: seq<nat>, m: Request)
    requires IsRun(tr, qs, steps) && Finished(tr[|steps|])
    requires Compatible(qs) && Highest(qs, m) && (m.blocks.Some? || !SomeoneSuppliesBlocks(qs))
    ensures var s := tr[|steps|];
            && s.row.Some? && Carries(s.row.value, m) && s.row.value.blocks == m.blocks
            && |s.phases| == |qs|
            && (exists p :: 0 <= p < |qs| && Reports(s.phases[p], Created))
            && (forall p, p' :: 0 <= p < p' < |qs| ==>
                    !(Reports(s.phases[p], Created) && Reports(s.phases[p'], Created)))
            && (forall p :: 0 <= p < |qs| ==> s.phases[p].Done? && !s.phases[p].outcome.Conflicted?)
  {
    hide DeliverAll, Deliver;
    var s := tr[|steps|];
    RunLinearizes(tr, qs, steps, |steps|);
    LogCoversAll(s, qs, m);
    HighestRevisionWins(s.log, m);
    forall p | 0 <= p < |qs|
      ensures s.phases[p].Done? && !s.phases[p].outcome.Conflicted?
      ensures Reports(s.phases[p], Created) <==> s.phases[p].place == 0
    {
      assert AnsweredInPlace(s.log, s.phases[p], qs[p]);
      OutcomeAt(s.log, s.phases[p].place);
    }
    forall p, p' | 0 <= p < p' < |qs| ensures !(Reports(s.phases[p], Created) && Reports(s.phases[p'], Created)) {
      assert PlacesDiffer(s.phases[p], s.phases[p']);
    }
  }

  lemma LogCoversAll(s: State, qs: seq<Request>, m: Request)
    requires Linearized(s, qs) && Finished(s) && Compatible(qs) && Highest(qs, m)
    ensures s.log != [] && Compatible(s.log) && Highest(s.log, m)
    ensures SomeoneSuppliesBlocks(s.log) ==> SomeoneSuppliesBlocks(qs)
  {
    hide DeliverAll, Deliver;
    var p :| 0 <= p < |qs| && qs[p] == m;
    assert AnsweredInPlace(s.log, s.phases[p], qs[p]);
    assert s.log[s.phases[p].place] == m;
  }

  /** Among compatible saves the first creates the row and no later one conflicts. */
  lemma OutcomeAt(log: seq<Request>, k: nat)
    requires Compatible(log) && k < |log|
    ensures var outcome := Deliver(DeliverAll(log[..k]), log[k]).1;
            !outcome.Conflicted? && (outcome.Created? <==> k == 0)
  {
    if k > 0 {
      var before := log[..k];
      HighestExists(before);
      var m :| Highest(before, m);
      HighestRevisionWins(before, m);
      assert Siblings(m, log[k]);
    }
  }

  // ----- the stored row -----

  /** The row under one client message id, and the message counter of its session. */
  class MessageDocument {
    var row: Option<Row>
    var messageCount: nat

    constructor ()
      ensures row.None? && messageCount == 0
    {
      row := None;
      messageCount := 0;
    }

    method ApplyExistingRevision(q: Request) returns (outcome: Outcome)
      requires row.Some?
      modifies this`row
      ensures row.Some? && (row.value, outcome) == Arbitrate(old(row.value), q)
    {
      var existing := row.value;
      if !SameIdentity(existing, q) {
        return Conflicted;
      }
      if q.revision.None? || q.revision.value == StoredRevision(existing) {
        if SamePayload(existing, q) {
          return Unchanged;
        }
        return Conflicted;
      }
      if q.revision.value < StoredRevision(existing) {
        return Unchanged;
      }
      var patched := existing.(text := q.text, metadata := q.metadata, digest := Some(PayloadOf(q)),
                                revision := q.revision);
      if q.blocks.Some? {
        patched := patched.(blocks := q.blocks);
      }
      row := Some(patched);
      return Updated;
    }

    /** Saves one message; only the save that creates the row bumps the session counter. */
    method SaveMessage(q: Request) returns (outcome: Outcome)
      modifies this
      ensures (row, outcome) == Deliver(old(row), q)
      ensures messageCount == old(messageCount) + Bit(outcome.Created?)
    {
      if row.Some? {
        outcome := ApplyExistingRevision(q);
        assert outcome != Created;
        return;
      }
      row := Some(NewRow(q));
      messageCount := messageCount + 1;
      return Created;
    }
  }
}
