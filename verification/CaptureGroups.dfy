/**
  Capture groups: conversations that are recordings of the same event on different devices. Each member
  stores a full copy of the group's record; joining and leaving rewrite the copies.
*/
module CaptureGroups {
  import opened Prelude

  const MAX_GROUP_MEMBERS: nat := 12

  type Id = string
  type GroupId = nat       // random; says nothing about the members
  type Instant = nat       // counted from the least representable instant
  type Digest = nat        // the digest of a stored transcript

  datatype Evidence = Evidence(shared: nat, partner: Id)
  datatype Member = Member(id: Id, source: string, start: Option<Instant>, finish: Option<Instant>,
                           evidence: Option<Evidence>)
  datatype Record = Record(id: GroupId, primary: Id, revision: int, members: seq<Member>)

  datatype Row = Row(
    deleted: bool,
    closed: bool,
    discarded: bool,
    completed: bool,
    source: string,
    start: Option<Instant>,
    finish: Option<Instant>,
    transcript: Digest,
    group: Option<Record>,
    exclusions: set<Id>)

  type Rows = map<Id, Row>
  datatype Window = Window(start: Option<Instant>, finish: Option<Instant>)

  // ----- the record -----

  /** Lexicographic order of conversation ids. */
  predicate NotAfter(a: Id, b: Id) {
    |a| == 0 || (|b| > 0 && (a[0] < b[0] || (a[0] == b[0] && NotAfter(a[1..], b[1..]))))
  }

  function StartKey(m: Member): (t: Instant) {
    if m.start.Some? then m.start.value else 0
  }

  function Duration(m: Member): (d: int) {
    if m.start.Some? && m.finish.Some? then m.finish.value - m.start.value else 0
  }

  predicate Ordered(a: Member, b: Member) {
    StartKey(a) < StartKey(b) || (StartKey(a) == StartKey(b) && NotAfter(a.id, b.id))
  }

  /** `a` ranks no worse than `b` as primary: a longer window, ties broken by id. */
  predicate Outranks(a: Member, b: Member) {
    Duration(a) > Duration(b) || (Duration(a) == Duration(b) && NotAfter(a.id, b.id))
  }

  function Place(m: Member, ms: seq<Member>): (r: seq<Member>) {
    if ms == [] || Ordered(m, ms[0]) then [m] + ms else [ms[0]] + Place(m, ms[1..])
  }

  function Sorted(ms: seq<Member>): (r: seq<Member>) {
    if ms == [] then [] else Place(ms[0], Sorted(ms[1..]))
  }

  function Primary(ms: seq<Member>): (m: Member)
    requires ms != []
  {
    if |ms| == 1 then ms[0]
    else
      var best := Primary(ms[..|ms| - 1]);
      if Outranks(best, ms[|ms| - 1]) then best else ms[|ms| - 1]
  }

  function MemberIds(ms: seq<Member>): (ids: set<Id>) {
    set m | m in ms :: m.id
  }

  predicate DistinctIds(ms: seq<Member>) {
    forall i, j :: 0 <= i < j < |ms| ==> ms[i].id != ms[j].id
  }

  function NewRecord(g: GroupId, ms: seq<Member>, revision: int): (r: Record)
    requires |Sorted(ms)| > 0
  {
    Record(g, Primary(Sorted(ms)).id, revision, Sorted(ms))
  }

  lemma NotAfterIsTotal(a: Id, b: Id)
    ensures NotAfter(a, b) || NotAfter(b, a)
    ensures NotAfter(a, b) && NotAfter(b, a) ==> a == b
    decreases |a|
  {
    if |a| > 0 && |b| > 0 && a[0] == b[0] {
      NotAfterIsTotal(a[1..], b[1..]);
      assert a == [a[0]] + a[1..] && b == [b[0]] + b[1..];
    }
  }

  lemma NotAfterIsTransitive(a: Id, b: Id, c: Id)
    requires NotAfter(a, b) && NotAfter(b, c)
    ensures NotAfter(a, c)
  {
  }

  lemma {:induction false} SortedKeepsMembers(ms: seq<Member>)
    ensures multiset(Sorted(ms)) == multiset(ms) && |Sorted(ms)| == |ms|
    ensures MemberIds(Sorted(ms)) == MemberIds(ms)
    ensures DistinctIds(ms) ==> DistinctIds(Sorted(ms))
  {
    if ms != [] {
      SortedKeepsMembers(ms[1..]);
      var rest := Sorted(ms[1..]);
      PlaceKeepsMembers(ms[0], rest);
      assert ms == [ms[0]] + ms[1..];
      SameMembers(Sorted(ms), ms);
      if DistinctIds(ms) {
        assert DistinctIds(rest);
        assert forall m :: m in ms[1..] ==> m in rest by {
          assert forall m :: m in ms[1..] <==> m in multiset(ms[1..]);
        }
        forall m | m in rest ensures m.id != ms[0].id {
          assert m in multiset(rest);
          assert m in ms[1..];
        }
        PlaceKeepsDistinct(ms[0], rest);
      }
    }
  }

  lemma SameMembers(a: seq<Member>, b: seq<Member>)
    requires multiset(a) == multiset(b)
    ensures MemberIds(a) == MemberIds(b)
  {
    assert forall m :: m in a <==> m in multiset(a);
    assert forall m :: m in b <==> m in multiset(b);
    assert forall m :: m in a <==> m in b;
  }

  lemma {:induction false} PlaceKeepsMembers(m: Member, ms: seq<Member>)
    ensures multiset(Place(m, ms)) == multiset(ms) + multiset{m} && |Place(m, ms)| == |ms| + 1
  {
    if ms != [] && !Ordered(m, ms[0]) {
      PlaceKeepsMembers(m, ms[1..]);
      assert ms == [ms[0]] + ms[1..];
    }
  }

  lemma {:induction false} PlaceKeepsDistinct(m: Member, ms: seq<Member>)
    requires DistinctIds(ms) && forall x :: x in ms ==> x.id != m.id
    ensures DistinctIds(Place(m, ms))
  {
    if ms != [] && !Ordered(m, ms[0]) {
      PlaceKeepsDistinct(m, ms[1..]);
      var rest := Place(m, ms[1..]);
      PlaceKeepsMembers(m, ms[1..]);
      forall x | x in rest ensures x.id != ms[0].id {
        assert x in multiset(rest);
        assert x in multiset(ms[1..]) || x == m;
        assert x in ms[1..] || x == m;
      }
    }
  }

  ghost predicate InOrder(ms: seq<Member>) {
    forall i, j :: 0 <= i < j < |ms| ==> Ordered(ms[i], ms[j])
  }

  lemma OrderedIsTotal(a: Member, b: Member)
    ensures Ordered(a, b) || Ordered(b, a)
  {
    NotAfterIsTotal(a.id, b.id);
  }

  lemma OrderedIsTransitive(a: Member, b: Member, c: Member)
    requires Ordered(a, b) && Ordered(b, c)
    ensures Ordered(a, c)
  {
    if NotAfter(a.id, b.id) && NotAfter(b.id, c.id) {
      NotAfterIsTransitive(a.id, b.id, c.id);
    }
  }

  lemma {:induction false} PlaceKeepsOrder(m: Member, ms: seq<Member>)
    requires InOrder(ms)
    ensures InOrder(Place(m, ms))
  {
    if ms != [] {
      if Ordered(m, ms[0]) {
        forall j | 0 <= j < |ms| ensures Ordered(m, ms[j]) {
          if j > 0 {
            OrderedIsTransitive(m, ms[0], ms[j]);
          }
        }
      } else {
        var rest := Place(m, ms[1..]);
        PlaceKeepsOrder(m, ms[1..]);
        PlaceKeepsMembers(m, ms[1..]);
        OrderedIsTotal(m, ms[0]);
        forall j | 0 <= j < |rest| ensures Ordered(ms[0], rest[j]) {
          assert rest[j] in multiset(rest);
          assert rest[j] in multiset(ms[1..]) || rest[j] == m;
          assert rest[j] in ms[1..] || rest[j] == m;
        }
      }
    }
  }

  lemma {:induction false} SortedIsInOrder(ms: seq<Member>)
    ensures InOrder(Sorted(ms))
  {
    if ms != [] {
      SortedIsInOrder(ms[1..]);
      PlaceKeepsOrder(ms[0], Sorted(ms[1..]));
    }
  }

  lemma {:induction false} PrimaryOutranksAll(ms: seq<Member>)
    requires ms != []
    ensures Primary(ms) in ms
    ensures forall m :: m in ms ==> Outranks(Primary(ms), m)
  {
    var last := ms[|ms| - 1];
    NotAfterIsTotal(last.id, last.id);
    if |ms| > 1 {
      var init := ms[..|ms| - 1];
      PrimaryOutranksAll(init);
      var best := Primary(init);
      NotAfterIsTotal(best.id, last.id);
      forall m | m in ms ensures Outranks(Primary(ms), m) {
        if m in init && !Outranks(best, last) {
          if NotAfter(last.id, best.id) && NotAfter(best.id, m.id) {
            NotAfterIsTransitive(last.id, best.id, m.id);
          }
        }
      }
    }
  }

  /** A record as this module writes it. */
  ghost predicate WellFormed(r: Record) {
    && 2 <= |r.members| <= MAX_GROUP_MEMBERS
    && DistinctIds(r.members)
    && InOrder(r.members)
    && exists m :: m in r.members && m.id == r.primary && forall other :: other in r.members ==> Outranks(m, other)
  }

  /** A new record lists exactly the given members, in capture order, and names the longest one primary. */
  lemma NewRecordIsWellFormed(g: GroupId, ms: seq<Member>, revision: int)
    requires 2 <= |ms| <= MAX_GROUP_MEMBERS && DistinctIds(ms)
    ensures |Sorted(ms)| > 0
    ensures WellFormed(NewRecord(g, ms, revision))
    ensures MemberIds(NewRecord(g, ms, revision).members) == MemberIds(ms)
  {
    SortedKeepsMembers(ms);
    SortedIsInOrder(ms);
    PrimaryOutranksAll(Sorted(ms));
  }

  // ----- joining -----

  predicate Live(row: Row) {
    !row.deleted && !row.closed
  }

  predicate Joinable(row: Row) {
    Live(row) && !row.discarded && row.completed
  }

  function GroupOf(row: Row): (g: Option<GroupId>) {
    if row.group.Some? then Some(row.group.value.id) else None
  }

  function Listed(group: Option<Record>): (ms: seq<Member>) {
    if group.Some? then group.value.members else []
  }

  predicate Excludes(row: Row, others: set<Id>) {
    row.exclusions * others != {}
  }

  function WindowOf(rows: Rows, pair: set<Id>, id: Id): (w: Window) {
    if id in pair && id in rows then Window(rows[id].start, rows[id].finish) else Window(None, None)
  }

  /** The captures are still the ones the evidence was gathered from. */
  predicate StillAsExpected(rows: Rows, pair: set<Id>, windows: map<Id, Window>, digests: map<Id, Option<Digest>>) {
    && (forall id :: id in windows ==> windows[id] == WindowOf(rows, pair, id))
    && (forall id :: id in digests ==>
            digests[id].Some? && id in pair && id in rows && rows[id].transcript == digests[id].value)
  }

  /** The ids of listed members outside `skip`, in record order. */
  function IdsBesides(ms: seq<Member>, skip: set<Id>): (ids: seq<Id>) {
    if ms == [] then []
    else
      var before := IdsBesides(ms[..|ms| - 1], skip);
      var m := ms[|ms| - 1];
      if m.id in skip then before else before + [m.id]
  }

  predicate Counts(rows: Rows, pair: set<Id>, g: Option<GroupId>, id: Id) {
    id in rows && Live(rows[id]) && (id in pair || GroupOf(rows[id]) == g)
  }

  /** The rows that the rewritten record will list: live, and either joining now or still in this group. */
  function LiveIds(rows: Rows, pair: set<Id>, g: Option<GroupId>, ids: seq<Id>): (live: seq<Id>) {
    if ids == [] then []
    else
      var before := LiveIds(rows, pair, g, ids[..|ids| - 1]);
      var id := ids[|ids| - 1];
      if Counts(rows, pair, g, id) then before + [id] else before
  }

  function PriorEvidence(ms: seq<Member>, id: Id): (e: Option<Evidence>) {
    if ms == [] then None
    else if ms[|ms| - 1].id == id then ms[|ms| - 1].evidence
    else PriorEvidence(ms[..|ms| - 1], id)
  }

  function MemberFor(id: Id, row: Row, evidence: Option<Evidence>): (m: Member) {
    Member(id, row.source, row.start, row.finish, evidence)
  }

  /** Members listed before keep their evidence; a newcomer is matched with the other capture of the pair. */
  function JoinedMember(rows: Rows, id: Id, first: Id, second: Id, prior: seq<Member>, shared: nat): (m: Member)
    requires id in rows
  {
    var evidence := if id in MemberIds(prior) then PriorEvidence(prior, id)
                    else Some(Evidence(shared, if id == first then second else first));
    MemberFor(id, rows[id], evidence)
  }

  function JoinedMembers(rows: Rows, ids: seq<Id>, first: Id, second: Id, prior: seq<Member>, shared: nat)
    : (ms: seq<Member>)
    requires forall id :: id in ids ==> id in rows
  {
    seq(|ids|, i requires 0 <= i < |ids| => JoinedMember(rows, ids[i], first, second, prior, shared))
  }

  function KeptMembers(rows: Rows, ids: seq<Id>, prior: seq<Member>): (ms: seq<Member>)
    requires forall id :: id in ids ==> id in rows
  {
    seq(|ids|, i requires 0 <= i < |ids| => MemberFor(ids[i], rows[ids[i]], PriorEvidence(prior, ids[i])))
  }

  function IdSet(ids: seq<Id>): (s: set<Id>) {
    set id | id in ids
  }

  /** Writes one value of the group field on every listed row. */
  function WriteGroup(rows: Rows, ids: seq<Id>, group: Option<Record>): (rows': Rows) {
    map id | id in rows :: if id in ids then rows[id].(group := group) else rows[id]
  }

  lemma {:induction false} LiveIdsAreInRows(rows: Rows, pair: set<Id>, g: Option<GroupId>, ids: seq<Id>)
    ensures forall id :: id in LiveIds(rows, pair, g, ids) <==> id in ids && Counts(rows, pair, g, id)
  {
    if ids != [] {
      LiveIdsAreInRows(rows, pair, g, ids[..|ids| - 1]);
      assert ids == ids[..|ids| - 1] + [ids[|ids| - 1]];
    }
  }

  function ReadOrder(first: Id, second: Id, listed: seq<Member>): (ids: seq<Id>) {
    (if first == second then [first] else [first, second]) + IdsBesides(listed, {first, second})
  }

  function JoinLive(rows: Rows, first: Id, second: Id, existing: Option<Record>): (ids: seq<Id>)
    ensures forall id :: id in ids ==> id in rows
    ensures first in rows && Live(rows[first]) ==> first in ids
  {
    var g := if existing.Some? then Some(existing.value.id) else None;
    LiveIdsAreInRows(rows, {first, second}, g, ReadOrder(first, second, Listed(existing)));
    LiveIds(rows, {first, second}, g, ReadOrder(first, second, Listed(existing)))
  }

  datatype JoinRequest = JoinRequest(
    first: Id, second: Id, shared: nat, windows: map<Id, Window>, digests: map<Id, Option<Digest>>, minted: GroupId)

  predicate AnyExcluded(rows: Rows, ids: seq<Id>)
    requires forall id :: id in ids ==> id in rows
  {
    exists id :: id in ids && Excludes(rows[id], IdSet(ids) - {id})
  }

  function Existing(rows: Rows, q: JoinRequest): (r: Option<Record>)
    requires q.first in rows && q.second in rows
  {
    if rows[q.first].group.Some? then rows[q.first].group else rows[q.second].group
  }

  predicate MayJoin(rows: Rows, q: JoinRequest) {
    && q.first in rows && q.second in rows
    && Joinable(rows[q.first]) && Joinable(rows[q.second])
    && StillAsExpected(rows, {q.first, q.second}, q.windows, q.digests)
    && (rows[q.first].group.Some? && rows[q.second].group.Some? ==> GroupOf(rows[q.first]) == GroupOf(rows[q.second]))
  }

  function JoinedRecord(rows: Rows, q: JoinRequest, existing: Option<Record>, live: seq<Id>): (r: Record)
    requires forall id :: id in live ==> id in rows
    requires live != []
  {
    var ms := JoinedMembers(rows, live, q.first, q.second, Listed(existing), q.shared);
    SortedKeepsMembers(ms);
    var g := if existing.Some? then existing.value.id else q.minted;
    NewRecord(g, ms, (if existing.Some? then existing.value.revision else 0) + 1)
  }

  function JoinTxn(rows: Rows, q: JoinRequest): (r: (Rows, Option<GroupId>)) {
    if !MayJoin(rows, q) then (rows, None)
    else
      var existing := Existing(rows, q);
      var live := JoinLive(rows, q.first, q.second, existing);
      if existing.Some? && IdSet(live) == MemberIds(existing.value.members) then (rows, Some(existing.value.id))
      else if AnyExcluded(rows, live) then (rows, None)
      else if |live| > MAX_GROUP_MEMBERS then (rows, None)
      else
        var record := JoinedRecord(rows, q, existing, live);
        (WriteGroup(rows, live, Some(record)), Some(record.id))
  }

  // ----- leaving -----

  /** The members that stay: listed in the leaver's own copy, not deleted, still in the group. */
  function Remaining(rows: Rows, g: GroupId, ids: seq<Id>): (r: seq<Id>)
    ensures forall id :: id in r <==> id in ids && Stays(rows, g, id)
  {
    if ids == [] then []
    else
      var before := Remaining(rows, g, ids[..|ids| - 1]);
      var id := ids[|ids| - 1];
      assert ids == ids[..|ids| - 1] + [id];
      if Stays(rows, g, id) then before + [id] else before
  }

  predicate Stays(rows: Rows, g: GroupId, id: Id) {
    id in rows && !rows[id].deleted && GroupOf(rows[id]) == Some(g)
  }

  function Departed(row: Row, others: set<Id>, sticky: bool, close: bool): (row': Row) {
    row.(group := None,
         closed := row.closed || close,
         exclusions := if sticky then row.exclusions + others else row.exclusions)
  }

  function ShrunkRecord(rows: Rows, group: Record, remaining: seq<Id>): (r: Option<Record>)
    requires forall id :: id in remaining ==> id in rows
  {
    if |remaining| < 2 then None
    else
      var ms := KeptMembers(rows, remaining, group.members);
      SortedKeepsMembers(ms);
      Some(NewRecord(group.id, ms, group.revision + 1))
  }

  function LeaveTxn(rows: Rows, id: Id, sticky: bool, close: bool): (r: (Rows, bool)) {
    if id !in rows then (rows, false)
    else if rows[id].group.None? then
      (if close && !rows[id].closed then rows[id := rows[id].(closed := true)] else rows, false)
    else
      var group := rows[id].group.value;
      var others := IdsBesides(group.members, {id});
      var remaining := Remaining(rows, group.id, others);
      var departed := Departed(rows[id], IdSet(others), sticky, close);
      (WriteGroup(rows[id := departed], remaining, ShrunkRecord(rows, group, remaining)), true)
  }

  // ----- runs -----

  datatype Op =
    | Join(request: JoinRequest)
    | Leave(id: Id, sticky: bool, close: bool)
    | Insert(id: Id, row: Row)                 // a conversation is stored
    | Edit(id: Id, row: Row)                   // other writers; the group fields are not theirs to write
    | Purge(id: Id)                            // the document is removed

  /** `used` remembers every conversation id ever drawn. */
  datatype State = State(rows: Rows, used: set<Id>)

  function Edited(row: Row, written: Row): (row': Row) {
    written.(deleted := row.deleted || written.deleted,
             closed := row.closed,
             group := row.group,
             exclusions := row.exclusions)
  }

  function Next(s: State, op: Op): (s': State) {
    match op
    case Join(q) => s.(rows := JoinTxn(s.rows, q).0)
    case Leave(id, sticky, close) => s.(rows := LeaveTxn(s.rows, id, sticky, close).0)
    case Insert(id, row) => State(s.rows[id := row], s.used + {id})
    case Edit(id, row) => if id in s.rows then s.(rows := s.rows[id := Edited(s.rows[id], row)]) else s
    case Purge(id) => s.(rows := s.rows - {id})
  }

  /** What callers and the id generators guarantee of a step. */
  ghost predicate Legal(s: State, op: Op) {
    match op
    case Join(q) => q.first != q.second && forall id :: id in s.rows ==> GroupOf(s.rows[id]) != Some(q.minted)
    case Leave(id, _, _) => id in s.rows ==> !s.rows[id].deleted
    case Insert(id, row) => id !in s.used && row.group.None? && row.exclusions == {}
    case Edit(_, _) => true
    case Purge(_) => true
  }

  ghost predicate IsRun(tr: seq<State>, ops: seq<Op>) {
    && |tr| == |ops| + 1
    && forall i :: 0 <= i < |ops| ==> Follows(tr, ops, i)
  }

  ghost predicate Follows(tr: seq<State>, ops: seq<Op>, i: nat)
    requires i < |ops| && i + 1 < |tr|
  {
    Legal(tr[i], ops[i]) && tr[i + 1] == Next(tr[i], ops[i])
  }
}
