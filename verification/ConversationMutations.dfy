/**
  Idempotent user edits of one conversation: the edit and its receipt share one commit, and the
  receipt answers every retry.
*/
module ConversationMutations {
  import opened Prelude

  type MutationId = string
  type Revision = nat    // commit times; every commit has a later one than the commit before it

  datatype Structured = Structured(title: Option<string>, rest: string)
  datatype Document = Document(
    structured: Option<Structured>,
    userTitle: Option<string>,
    starred: Option<bool>,
    folder: Option<string>,
    visibility: Option<string>,
    locked: bool,
    rest: string)

  datatype Stored = Stored(doc: Document, updateTime: Revision)

  datatype SyncState = SyncState(title: Option<string>, starred: bool, folder: Option<string>, visibility: string)
  datatype Projection = Projection(revision: Revision, state: SyncState)

  datatype Operation = SetTitle(title: Option<string>) | SetStarred(starred: Option<bool>) | Unsupported(kind: string)

  /** Digest of what the client asked for; the digest is taken to be injective. */
  datatype Fingerprint = Fingerprint(base: Revision, operation: Operation)

  datatype ConflictCode = RevisionUnavailable | BaseRevisionMismatch | MutationIdReused
  datatype Response =
    | OkStored(projection: Projection)          // the revision is written in the receipt
    | OkAtReceipt(state: SyncState)             // the revision is the receipt's own update time
    | ConflictResponse(code: ConflictCode, current: Option<Projection>)

  datatype Receipt = Receipt(fingerprint: Fingerprint, response: Response, updateTime: Revision)

  datatype Store = Store(conversation: Option<Stored>, receipts: map<MutationId, Receipt>)

  datatype Failure = NotFound | Locked | Invalid | Reused
  datatype Verdict = Committed(replayed: bool) | Failed(failure: Failure)

  datatype Answer =
    | Applied(projection: Projection)
    | Conflict(code: ConflictCode, current: Option<Projection>)
    | ReceiptUnavailable

  function StateOf(d: Document): (s: SyncState) {
    var generated := if d.structured.Some? then d.structured.value.title else None;
    SyncState(
      if d.userTitle.Some? then d.userTitle else generated,
      d.starred.Some? && d.starred.value,
      d.folder,
      if d.visibility.Some? && d.visibility.value != "" then d.visibility.value else "private")
  }

  function Project(c: Stored): (p: Projection) {
    Projection(c.updateTime, StateOf(c.doc))
  }

  function TitleOf(d: Document): (t: Option<string>) {
    if d.structured.Some? then d.structured.value.title else None
  }

  function Titled(d: Document, title: string): (d': Document) {
    d.(userTitle := Some(title),
       structured := Some(if d.structured.Some? then d.structured.value.(title := Some(title))
                          else Structured(Some(title), "")))
  }

  predicate ValidOperation(op: Operation) {
    match op
    case SetTitle(title) => title.Some?
    case SetStarred(starred) => starred.Some?
    case Unsupported(_) => false
  }

  /** The edited copy, and whether the stored document has to be written. */
  function ApplyOperation(d: Document, op: Operation): (r: (Document, bool))
    requires ValidOperation(op)
  {
    match op
    case SetTitle(title) =>
      (Titled(d, title.value), d.userTitle != title || TitleOf(d) != title)
    case SetStarred(starred) =>
      (d.(starred := starred), (d.starred.Some? && d.starred.value) != starred.value)
  }

  /** The document after the patch; unpatched fields keep their stored values. */
  function Patched(d: Document, op: Operation): (d': Document)
    requires ValidOperation(op)
  {
    if ApplyOperation(d, op).1 then ApplyOperation(d, op).0 else d
  }

  /** One transaction, committing at time `at`. `readable` says whether the snapshot carried its revision. */
  function MutateTxn(s: Store, id: MutationId, base: Revision, op: Operation, readable: bool, at: Revision)
    : (r: (Store, Verdict))
  {
    var fingerprint := Fingerprint(base, op);
    if id in s.receipts then
      (s, if s.receipts[id].fingerprint != fingerprint then Failed(Reused) else Committed(true))
    else if s.conversation.None? then (s, Failed(NotFound))
    else
      var current := s.conversation.value;
      if current.doc.locked then (s, Failed(Locked))
      else if !readable then
        (s.(receipts := s.receipts[id := Receipt(fingerprint, ConflictResponse(RevisionUnavailable, None), at)]),
         Committed(false))
      else if base != current.updateTime then
        (s.(receipts := s.receipts[id := Receipt(fingerprint,
                                                 ConflictResponse(BaseRevisionMismatch, Some(Project(current))), at)]),
         Committed(false))
      else if !ValidOperation(op) then (s, Failed(Invalid))
      else
        var (edited, write) := ApplyOperation(current.doc, op);
        var response := if write then OkAtReceipt(StateOf(edited))
                        else OkStored(Projection(current.updateTime, StateOf(edited)));
        (Store(if write then Some(Stored(Patched(current.doc, op), at)) else s.conversation,
               s.receipts[id := Receipt(fingerprint, response, at)]),
         Committed(false))
  }

  /** What a caller reads back from the receipt after its transaction. */
  function AnswerOf(s: Store, id: MutationId, base: Revision, op: Operation): (a: Answer) {
    if id !in s.receipts then ReceiptUnavailable
    else
      var receipt := s.receipts[id];
      if receipt.fingerprint != Fingerprint(base, op) then Conflict(MutationIdReused, None)
      else
        match receipt.response
        case OkStored(projection) => Applied(projection)
        case OkAtReceipt(state) => Applied(Projection(receipt.updateTime, state))
        case ConflictResponse(code, current) => Conflict(code, current)
  }

  /** How a stored document reads: the user's own title first, unstarred and private unless it says otherwise. */
  lemma ProjectionReads(c: Stored)
    ensures var p := Project(c);
            && p.revision == c.updateTime && p.state.folder == c.doc.folder
            && (c.doc.userTitle.Some? ==> p.state.title == c.doc.userTitle)
            && (c.doc.userTitle.None? && c.doc.structured.Some? ==> p.state.title == c.doc.structured.value.title)
            && (c.doc.userTitle.None? && c.doc.structured.None? ==> p.state.title.None?)
            && (p.state.starred <==> c.doc.starred == Some(true))
            && p.state.visibility ==
                    (if c.doc.visibility in {None, Some("")} then "private" else c.doc.visibility.value)
  {
  }

  /**
    The edit does what it says and nothing else: a new title replaces both titles and leaves the rest of the
    structured summary, a star leaves the titles, and no other field of the document moves.
  */
  lemma EditIsWhatWasAsked(d: Document, op: Operation)
    requires ValidOperation(op)
    ensures var d' := Patched(d, op);
            && StateOf(d') == StateOf(ApplyOperation(d, op).0)
            && (op.SetTitle? ==> StateOf(d') == StateOf(d).(title := op.title))
            && (op.SetStarred? ==> StateOf(d') == StateOf(d).(starred := op.starred.value))
            && d'.locked == d.locked && d'.rest == d.rest && d'.folder == d.folder && d'.visibility == d.visibility
            && (ApplyOperation(d, op).1 <==> d' != d)
            && (d.structured.Some? ==> d'.structured.Some? && d'.structured.value.rest == d.structured.value.rest)
            && (op.SetTitle? ==>
                  && d'.userTitle == op.title && d'.structured.Some? && d'.structured.value.title == op.title
                  && d' == d.(userTitle := d'.userTitle, structured := d'.structured))
            && (op.SetStarred? ==> d' == d.(starred := d'.starred))
  {
  }

  predicate Answered(s: Store, id: MutationId) {
    id in s.receipts
  }

  /** The request can be judged: it is new, and its conversation is there and open. */
  predicate Judged(s: Store, id: MutationId) {
    id !in s.receipts && s.conversation.Some? && !s.conversation.value.doc.locked
  }

  predicate OnBase(s: Store, base: Revision, readable: bool)
    requires s.conversation.Some?
  {
    readable && base == s.conversation.value.updateTime
  }

  /**
    The verdict of a request, and what it stores. A known id is a replay of the same request or a reuse; a new
    one fails without a trace for a missing or locked conversation or a bad operation on the right base; any
    other leaves a receipt of that commit, and the conversation is written exactly if the edit changes it.
  */
  lemma MutationJudgedIff(s: Store, id: MutationId, base: Revision, op: Operation, readable: bool, at: Revision)
    ensures var (s', v) := MutateTxn(s, id, base, op, readable, at);
            && (v == Committed(true) <==> Answered(s, id) && s.receipts[id].fingerprint == Fingerprint(base, op))
            && (v == Failed(Reused) <==> Answered(s, id) && s.receipts[id].fingerprint != Fingerprint(base, op))
            && (v == Failed(NotFound) <==> !Answered(s, id) && s.conversation.None?)
            && (v == Failed(Locked) <==> !Answered(s, id) && s.conversation.Some? && s.conversation.value.doc.locked)
            && (v == Failed(Invalid) <==> Judged(s, id) && OnBase(s, base, readable) && !ValidOperation(op))
            && (v == Committed(false) <==> Judged(s, id) && (OnBase(s, base, readable) ==> ValidOperation(op)))
            && (v != Committed(false) ==> s' == s)
            && (v == Committed(false) ==>
                  && id in s'.receipts && s'.receipts == s.receipts[id := s'.receipts[id]]
                  && s'.receipts[id].fingerprint == Fingerprint(base, op) && s'.receipts[id].updateTime == at
                  && s'.conversation.Some?
                  && (s'.conversation != s.conversation <==>
                        OnBase(s, base, readable) && Patched(s.conversation.value.doc, op) != s.conversation.value.doc)
                  && (s'.conversation != s.conversation ==>
                        s'.conversation.value == Stored(Patched(s.conversation.value.doc, op), at)))
  {
    hide StateOf, Patched;
    if ValidOperation(op) && s.conversation.Some? {
      EditIsWhatWasAsked(s.conversation.value.doc, op);
    }
  }

  // ----- runs -----

  datatype Event =
    | Mutate(elapsed: nat, id: MutationId, base: Revision, op: Operation, readable: bool)
    | WriteDocument(elapsed: nat, doc: Document)     // any other writer; an unchanged document keeps its update time
    | Remove(elapsed: nat)

  datatype State = State(store: Store, clock: Revision)

  function Next(st: State, e: Event): (st': State) {
    var at := st.clock + 1 + e.elapsed;
    match e
    case Mutate(_, id, base, op, readable) => State(MutateTxn(st.store, id, base, op, readable, at).0, at)
    case WriteDocument(_, doc) =>
      var same := st.store.conversation.Some? && st.store.conversation.value.doc == doc;
      State(if same then st.store else st.store.(conversation := Some(Stored(doc, at))), at)
    case Remove(_) => State(st.store.(conversation := None), at)
  }

  /** A run of the documents; the stored conversation is no newer than the clock. */
  ghost predicate IsRun(tr: seq<State>, es: seq<Event>) {
    && |tr| == |es| + 1
    && (tr[0].store.conversation.Some? ==> tr[0].store.conversation.value.updateTime <= tr[0].clock)
    && forall i :: 0 <= i < |es| ==> Follows(tr, es, i)
  }

  predicate Follows(tr: seq<State>, es: seq<Event>, i: nat)
    requires i < |es| && i + 1 < |tr|
  {
    tr[i + 1] == Next(tr[i], es[i])
  }

  /** This step patches the conversation on behalf of mutation `id`. */
  predicate PatchesFor(tr: seq<State>, es: seq<Event>, i: nat, id: MutationId)
    requires i < |es| && i + 1 < |tr|
  {
    es[i].Mutate? && es[i].id == id && tr[i + 1].store.conversation != tr[i].store.conversation
  }

  function Patches(tr: seq<State>, es: seq<Event>, id: MutationId, n: nat): (k: nat)
    requires |tr| == |es| + 1 && n <= |es|
  {
    if n == 0 then 0 else Patches(tr, es, id, n - 1) + if PatchesFor(tr, es, n - 1, id) then 1 else 0
  }

  lemma {:induction false} ReceiptsAreForever(tr: seq<State>, es: seq<Event>, id: MutationId, i: nat, j: nat)
    requires IsRun(tr, es) && i <= j <= |es| && id in tr[i].store.receipts
    ensures id in tr[j].store.receipts && tr[j].store.receipts[id] == tr[i].store.receipts[id]
  {
    if i < j {
      ReceiptsAreForever(tr, es, id, i, j - 1);
      assert Follows(tr, es, j - 1);
    }
  }

  /**
    After the first recorded outcome, every retry of the same request reads the identical answer, and any
    other request under that id conflicts.
  */
  lemma RetriesAgree(tr: seq<State>, es: seq<Event>, id: MutationId, i: nat, j: nat, base: Revision, op: Operation)
    requires IsRun(tr, es) && i <= j <= |es| && id in tr[i].store.receipts
    ensures AnswerOf(tr[j].store, id, base, op) == AnswerOf(tr[i].store, id, base, op)
    ensures tr[i].store.receipts[id].fingerprint != Fingerprint(base, op)
            ==> AnswerOf(tr[j].store, id, base, op) == Conflict(MutationIdReused, None)
  {
    ReceiptsAreForever(tr, es, id, i, j);
  }

  /** A conversation is patched at most once per mutation id, and never after the receipt exists. */
  lemma {:induction false} PatchedAtMostOnce(tr: seq<State>, es: seq<Event>, id: MutationId, n: nat)
    requires IsRun(tr, es) && n <= |es|
    ensures Patches(tr, es, id, n) <= if id in tr[n].store.receipts then 1 else 0
  {
    if n > 0 {
      PatchedAtMostOnce(tr, es, id, n - 1);
      assert Follows(tr, es, n - 1);
      if id in tr[n - 1].store.receipts {
        ReceiptsAreForever(tr, es, id, n - 1, n);
      }
    }
  }

  /** No two steps of a run patch the conversation for the same mutation. */
  lemma OnePatchPerMutation(tr: seq<State>, es: seq<Event>, id: MutationId, i: nat, k: nat)
    requires IsRun(tr, es) && i < |es| && k < |es| && PatchesFor(tr, es, i, id) && PatchesFor(tr, es, k, id)
    ensures i == k
  {
    if i < k {
      NoSecondPatch(tr, es, id, i, k);
    } else if k < i {
      NoSecondPatch(tr, es, id, k, i);
    }
  }

  lemma NoSecondPatch(tr: seq<State>, es: seq<Event>, id: MutationId, i: nat, k: nat)
    requires IsRun(tr, es) && i < k < |es| && PatchesFor(tr, es, i, id)
    ensures !PatchesFor(tr, es, k, id)
  {
    assert Follows(tr, es, k);
    PatchLeavesReceipt(tr, es, id, i);
    ReceiptsAreForever(tr, es, id, i + 1, k);
  }

  lemma PatchLeavesReceipt(tr: seq<State>, es: seq<Event>, id: MutationId, i: nat)
    requires IsRun(tr, es) && i < |es| && PatchesFor(tr, es, i, id)
    ensures id !in tr[i].store.receipts && id in tr[i + 1].store.receipts
  {
    assert Follows(tr, es, i);
  }

  lemma {:induction false} ClockGrows(tr: seq<State>, es: seq<Event>, i: nat, j: nat)
    requires IsRun(tr, es) && i <= j <= |es|
    ensures tr[i].clock + (j - i) <= tr[j].clock
    ensures tr[j].store.conversation.Some? ==> tr[j].store.conversation.value.updateTime <= tr[j].clock
  {
    if j > 0 {
      assert Follows(tr, es, j - 1);
      if i < j {
        ClockGrows(tr, es, i, j - 1);
      } else {
        ClockGrows(tr, es, j - 1, j - 1);
      }
    }
  }

  /** A revision names one content of the document: the same revision later means nothing was written in between. */
  lemma {:induction false} RevisionNamesContent(tr: seq<State>, es: seq<Event>, i: nat, j: nat)
    requires IsRun(tr, es) && i <= j <= |es|
    requires tr[i].store.conversation.Some? && tr[j].store.conversation.Some?
    requires tr[i].store.conversation.value.updateTime == tr[j].store.conversation.value.updateTime
    ensures tr[i].store.conversation == tr[j].store.conversation
  {
    if i < j {
      assert Follows(tr, es, j - 1);
      ClockGrows(tr, es, i, j - 1);
      ClockGrows(tr, es, i, i);
      if tr[j].store.conversation == tr[j - 1].store.conversation {
        RevisionNamesContent(tr, es, i, j - 1);
      }
    }
  }

  /**
    A patch is applied only on top of the document its client named: if the client read that revision at
    an earlier point of the run, the patched document is the one it read, edited as asked.
  */
  lemma PatchOnlyOnTopOfBase(tr: seq<State>, es: seq<Event>, seen: nat, i: nat, id: MutationId)
    requires IsRun(tr, es) && seen <= i < |es| && PatchesFor(tr, es, i, id)
    requires tr[seen].store.conversation.Some? && tr[seen].store.conversation.value.updateTime == es[i].base
    ensures tr[i].store.conversation == tr[seen].store.conversation
    ensures ValidOperation(es[i].op) && tr[i + 1].store.conversation.Some?
            && tr[i + 1].store.conversation.value.doc == Patched(tr[seen].store.conversation.value.doc, es[i].op)
  {
    assert Follows(tr, es, i);
    RevisionNamesContent(tr, es, seen, i);
  }

  /** The first commit of a mutation answers with the conversation as that commit left it, now and on every retry. */
  lemma OkAnswersMatchTheCommit(tr: seq<State>, es: seq<Event>, i: nat, j: nat)
    requires IsRun(tr, es) && i < j <= |es| && es[i].Mutate?
    requires es[i].id !in tr[i].store.receipts && es[i].id in tr[i + 1].store.receipts
    ensures tr[i].store.conversation.Some? && tr[i + 1].store.conversation.Some?
    ensures var answer := AnswerOf(tr[j].store, es[i].id, es[i].base, es[i].op);
            && !answer.ReceiptUnavailable?
            && (answer.Applied? <==> es[i].readable && es[i].base == tr[i].store.conversation.value.updateTime)
            && (answer.Applied? ==> answer.projection == Project(tr[i + 1].store.conversation.value))
            && (answer.Conflict? ==> tr[i + 1].store.conversation == tr[i].store.conversation)
            && (answer == Conflict(BaseRevisionMismatch, Some(Project(tr[i].store.conversation.value)))
                <==> es[i].readable && es[i].base != tr[i].store.conversation.value.updateTime)
  {
    hide StateOf, ApplyOperation, Patched;
    assert Follows(tr, es, i);
    ReceiptsAreForever(tr, es, es[i].id, i + 1, j);
    if ValidOperation(es[i].op) {
      EditIsWhatWasAsked(tr[i].store.conversation.value.doc, es[i].op);
      NoWriteNoChange(tr[i].store.conversation.value.doc, es[i].op);
    }
  }

  lemma NoWriteNoChange(d: Document, op: Operation)
    requires ValidOperation(op)
    ensures !ApplyOperation(d, op).1 ==> StateOf(ApplyOperation(d, op).0) == StateOf(d)
  {
  }

  // ----- the documents -----

  class ConversationDocuments {
    var conversation: Option<Stored>
    var receipts: map<MutationId, Receipt>

    constructor (stored: Option<Stored>)
      ensures Documents() == Store(stored, map[])
    {
      conversation, receipts := stored, map[];
    }

    ghost function Documents(): (s: Store)
      reads this
    {
      Store(conversation, receipts)
    }

    method RecordConflict(id: MutationId, fingerprint: Fingerprint, code: ConflictCode, current: Option<Projection>,
                          at: Revision)
      modifies this`receipts
      ensures receipts == old(receipts)[id := Receipt(fingerprint, ConflictResponse(code, current), at)]
    {
      receipts := receipts[id := Receipt(fingerprint, ConflictResponse(code, current), at)];
    }

    /** The transaction: conversation and receipt change in one commit or not at all. */
    method Commit(id: MutationId, base: Revision, op: Operation, readable: bool, at: Revision) returns (v: Verdict)
      modifies this
      ensures (Documents(), v) == MutateTxn(old(Documents()), id, base, op, readable, at)
    {
      var fingerprint := Fingerprint(base, op);
      if id in receipts {
        if receipts[id].fingerprint != fingerprint {
          return Failed(Reused);
        }
        return Committed(true);
      }
      if conversation.None? {
        return Failed(NotFound);
      }
      var current := conversation.value;
      if current.doc.locked {
        return Failed(Locked);
      }
      if !readable {
        RecordConflict(id, fingerprint, RevisionUnavailable, None, at);
        return Committed(false);
      }
      if base != current.updateTime {
        RecordConflict(id, fingerprint, BaseRevisionMismatch, Some(Project(current)), at);
        return Committed(false);
      }
      if !ValidOperation(op) {
        return Failed(Invalid);
      }
      var (edited, write) := ApplyOperation(current.doc, op);
      var response := OkStored(Projection(current.updateTime, StateOf(edited)));
      if write {
        response := OkAtReceipt(StateOf(edited));
        conversation := Some(Stored(Patched(current.doc, op), at));
      }
      receipts := receipts[id := Receipt(fingerprint, response, at)];
      return Committed(false);
    }

    /** A whole call that meets no other: the transaction, then the answer read back from the receipt. */
    method ApplyMutation(id: MutationId, base: Revision, op: Operation, readable: bool, at: Revision)
      returns (v: Verdict, a: Option<Answer>)
      modifies this
      ensures (Documents(), v) == MutateTxn(old(Documents()), id, base, op, readable, at)
      ensures v.Failed? ==> a.None? && Documents() == old(Documents())
      ensures v.Committed? ==> a == Some(AnswerOf(Documents(), id, base, op)) && !a.value.ReceiptUnavailable?
    {
      v := Commit(id, base, op, readable, at);
      if v.Failed? {
        return v, None;
      }
      var receipt := receipts[id];
      match receipt.response
      case OkStored(projection) => a := Some(Applied(projection));
      case OkAtReceipt(state) => a := Some(Applied(Projection(receipt.updateTime, state)));
      case ConflictResponse(code, current) => a := Some(Conflict(code, current));
    }
  }
}
