/**
  What holds of capture groups after every run: the copies of one record agree, and a person's
  separation of two captures is never undone.
*/
module CaptureGroupRuns {
  import opened Prelude
  import opened CaptureGroups

  predicate Grouped(rows: Rows, id: Id) {
    id in rows && Live(rows[id]) && rows[id].group.Some?
  }

  ghost predicate RowOk(rows: Rows, a: Id)
    requires a in rows
  {
    rows[a].group.Some? ==>
      && WellFormed(rows[a].group.value)
      && !rows[a].closed
      && (Live(rows[a]) ==>
            var ids := MemberIds(rows[a].group.value.members);
            a in ids && rows[a].exclusions * (ids - {a}) == {})
  }

  /** A live row of the same group, or one that the record lists, holds the identical record. */
  ghost predicate Agree(rows: Rows, a: Id, b: Id)
    requires a in rows && b in rows
  {
    && Grouped(rows, a) && Live(rows[b])
    && (GroupOf(rows[b]) == GroupOf(rows[a]) || b in MemberIds(rows[a].group.value.members))
    ==> rows[b].group == rows[a].group
  }

  ghost predicate Consistent(rows: Rows) {
    && (forall a :: a in rows ==> RowOk(rows, a))
    && (forall a, b :: a in rows && b in rows ==> Agree(rows, a, b))
  }

  /** Every id that a record lists has been drawn. */
  ghost predicate ListsUsed(s: State) {
    forall a :: a in s.rows && s.rows[a].group.Some? ==> MemberIds(s.rows[a].group.value.members) <= s.used
  }

  ghost predicate Inv(s: State) {
    Consistent(s.rows) && s.rows.Keys <= s.used && ListsUsed(s)
  }

  // ----- rewriting the copies of one record -----

  /** Listed rows receive the new record, other live copies of group `g` are dropped, the rest is kept. */
  ghost predicate Treated(id: Id, row: Row, row': Row, g: GroupId, listed: set<Id>, record: Option<Record>) {
    if id in listed then
      && Live(row) && (row.group.Some? ==> GroupOf(row) == Some(g))
      && row' == row.(group := record) && SharesWith(row, id, listed)
    else if Live(row) && GroupOf(row) == Some(g) then row'.group.None?
    else row' == row || LostDeadCopy(row, row')
  }

  ghost predicate Rewritten(rows: Rows, rows': Rows, g: GroupId, listed: set<Id>, record: Option<Record>) {
    && rows'.Keys == rows.Keys
    && listed <= rows.Keys
    && (forall id :: id in rows ==> Treated(id, rows[id], rows'[id], g, listed, record))
    && (listed != {} ==>
            record.Some? && record.value.id == g && WellFormed(record.value)
                && MemberIds(record.value.members) == listed)
  }

  /** The row excludes none of the others. */
  predicate SharesWith(row: Row, id: Id, listed: set<Id>) {
    row.exclusions * (listed - {id}) == {}
  }

  /** Copies on rows that are not live agree with nothing and may go. */
  predicate LostDeadCopy(row: Row, row': Row) {
    !Live(row) && !Live(row') && row'.group.None?
  }

  lemma RewritingKeepsConsistency(rows: Rows, rows': Rows, g: GroupId, listed: set<Id>, record: Option<Record>)
    requires Consistent(rows) && Rewritten(rows, rows', g, listed, record)
    ensures Consistent(rows')
  {
    hide WellFormed;
    forall a | a in rows' ensures RowOk(rows', a) {
      assert RowOk(rows, a) && Treated(a, rows[a], rows'[a], g, listed, record);
    }
    forall a, b | a in rows' && b in rows' ensures Agree(rows', a, b) {
      assert Agree(rows, a, b) && RowOk(rows, a) && RowOk(rows, b);
      assert Treated(a, rows[a], rows'[a], g, listed, record) && Treated(b, rows[b], rows'[b], g, listed, record);
    }
  }

  // ----- the row lists of a join and a leave -----

  predicate NoRepeats(ids: seq<Id>) {
    forall i, j :: 0 <= i < j < |ids| ==> ids[i] != ids[j]
  }

  lemma {:induction false} IdsBesidesListsTheRest(ms: seq<Member>, skip: set<Id>)
    requires DistinctIds(ms)
    ensures forall id :: id in IdsBesides(ms, skip) <==> id in MemberIds(ms) && id !in skip
    ensures NoRepeats(IdsBesides(ms, skip))
  {
    if ms != [] {
      var init, m := ms[..|ms| - 1], ms[|ms| - 1];
      IdsBesidesListsTheRest(init, skip);
      assert ms == init + [m];
      assert MemberIds(ms) == MemberIds(init) + {m.id};
      assert m.id !in MemberIds(init);
    }
  }

  lemma {:induction false} LiveIdsDoNotRepeat(rows: Rows, pair: set<Id>, g: Option<GroupId>, ids: seq<Id>)
    requires NoRepeats(ids)
    ensures NoRepeats(LiveIds(rows, pair, g, ids))
  {
    if ids != [] {
      var init := ids[..|ids| - 1];
      LiveIdsDoNotRepeat(rows, pair, g, init);
      LiveIdsAreInRows(rows, pair, g, init);
      assert forall id :: id in init ==> id != ids[|ids| - 1];
    }
  }

  lemma {:induction false} RemainingDoNotRepeat(rows: Rows, g: GroupId, ids: seq<Id>)
    requires NoRepeats(ids)
    ensures NoRepeats(Remaining(rows, g, ids))
  {
    if ids != [] {
      var init := ids[..|ids| - 1];
      RemainingDoNotRepeat(rows, g, init);
      assert forall id :: id in init ==> id != ids[|ids| - 1];
    }
  }

  lemma MembersOfIds(ms: seq<Member>, ids: seq<Id>)
    requires |ms| == |ids| && NoRepeats(ids)
    requires forall i :: 0 <= i < |ids| ==> ms[i].id == ids[i]
    ensures DistinctIds(ms) && MemberIds(ms) == IdSet(ids)
  {
    assert forall id :: id in ids ==> exists i :: 0 <= i < |ids| && ids[i] == id && ms[i] in ms;
  }

  // ----- joining -----

  lemma RecordIsDistinct(rows: Rows, id: Id)
    requires Consistent(rows) && id in rows
    ensures DistinctIds(Listed(rows[id].group))
  {
    assert RowOk(rows, id);
  }

  /** Exactly the live copies of the group and the two captures are rewritten. */
  lemma JoinLiveIsTheGroup(rows: Rows, q: JoinRequest)
    requires Consistent(rows) && MayJoin(rows, q)
    ensures var existing := Existing(rows, q);
            var live := JoinLive(rows, q.first, q.second, existing);
            && NoRepeats(live) && q.first in live && q.second in live
            && (forall id :: id in live ==>
                    Live(rows[id]) && (id in {q.first, q.second} || GroupOf(rows[id]) == GroupOfRecord(existing)))
            && (existing.Some? ==>
                  forall id :: id in rows && Live(rows[id]) && GroupOf(rows[id]) == GroupOfRecord(existing) ==>
                    id in live)
  {
    hide WellFormed;
    var existing := Existing(rows, q);
    var pair := {q.first, q.second};
    var holder := if rows[q.first].group.Some? then q.first else q.second;
    var order := ReadOrder(q.first, q.second, Listed(existing));
    assert RowOk(rows, holder);
    RecordIsDistinct(rows, holder);
    IdsBesidesListsTheRest(Listed(existing), pair);
    assert NoRepeats(order);
    LiveIdsDoNotRepeat(rows, pair, GroupOfRecord(existing), order);
    LiveIdsAreInRows(rows, pair, GroupOfRecord(existing), order);
    var live := JoinLive(rows, q.first, q.second, existing);
    JoinReaches(rows, q);
    forall id | id in rows && Live(rows[id]) && existing.Some? && GroupOf(rows[id]) == GroupOfRecord(existing)
      ensures id in live
    {
      assert Agree(rows, holder, id) && RowOk(rows, id);
      assert id in MemberIds(Listed(existing));
      if id !in pair {
        assert id in IdsBesides(Listed(existing), pair);
      }
      assert id in order;
    }
  }

  function GroupOfRecord(r: Option<Record>): (g: Option<GroupId>) {
    if r.Some? then Some(r.value.id) else None
  }

  lemma JoinedRecordIsWellFormed(rows: Rows, q: JoinRequest, existing: Option<Record>, live: seq<Id>)
    requires forall id :: id in live ==> id in rows
    requires NoRepeats(live) && 2 <= |live| <= MAX_GROUP_MEMBERS
    ensures var record := JoinedRecord(rows, q, existing, live);
            WellFormed(record) && MemberIds(record.members) == IdSet(live)
            && record.id == if existing.Some? then existing.value.id else q.minted
  {
    var ms := JoinedMembers(rows, live, q.first, q.second, Listed(existing), q.shared);
    MembersOfIds(ms, live);
    var g := if existing.Some? then existing.value.id else q.minted;
    NewRecordIsWellFormed(g, ms, (if existing.Some? then existing.value.revision else 0) + 1);
  }

  /** The captures of a join have company: they are two, or the one has another live member in its group. */
  predicate HasCompany(rows: Rows, q: JoinRequest)
    requires q.first in rows
  {
    q.first != q.second || (rows[q.first].group.Some? && Holders(rows, rows[q.first].group.value.id, q.first) != {})
  }

  lemma CompanyCounts(rows: Rows, q: JoinRequest)
    requires Consistent(rows) && MayJoin(rows, q)
    ensures var live := JoinLive(rows, q.first, q.second, Existing(rows, q));
            if HasCompany(rows, q) then |live| >= 2 else live == [q.first]
  {
    hide WellFormed, RowOk, Agree, Consistent, JoinLive, StillAsExpected;
    JoinLiveIsTheGroup(rows, q);
    var live := JoinLive(rows, q.first, q.second, Existing(rows, q));
    if q.first == q.second {
      if HasCompany(rows, q) {
        var other :| other in Holders(rows, rows[q.first].group.value.id, q.first);
        assert other in live;
      } else {
        LoneLive(rows, q);
      }
    }
  }

  lemma LoneLive(rows: Rows, q: JoinRequest)
    requires Consistent(rows) && MayJoin(rows, q) && !HasCompany(rows, q)
    ensures JoinLive(rows, q.first, q.second, Existing(rows, q)) == [q.first]
  {
    hide WellFormed, RowOk, Agree, Consistent, StillAsExpected, LiveIds;
    var existing := Existing(rows, q);
    var order := ReadOrder(q.first, q.second, Listed(existing));
    LiveIdsAreInRows(rows, {q.first, q.second}, GroupOfRecord(existing), order);
    JoinLiveIsTheGroup(rows, q);
    var live := JoinLive(rows, q.first, q.second, existing);
    assert forall id :: id in live ==> id == q.first by {
      forall id | id in live ensures id == q.first {
        assert id in order && Counts(rows, {q.first, q.second}, GroupOfRecord(existing), id);
        if existing.None? {
          assert order == [q.first];
        } else {
          assert id !in Holders(rows, existing.value.id, q.first);
        }
      }
    }
    OnlyOne(live, q.first);
  }

  lemma OnlyOne(ids: seq<Id>, x: Id)
    requires NoRepeats(ids) && x in ids && forall id :: id in ids ==> id == x
    ensures ids == [x]
  {
    if |ids| > 1 {
      FirstTwoDiffer(ids);
    }
  }

  lemma FirstTwoDiffer(ids: seq<Id>)
    requires NoRepeats(ids) && |ids| > 1
    ensures ids[0] in ids && ids[1] in ids && ids[0] != ids[1]
  {
  }

  lemma JoinKeepsConsistency(rows: Rows, q: JoinRequest)
    requires Consistent(rows) && (MayJoin(rows, q) ==> HasCompany(rows, q))
    requires forall id :: id in rows ==> GroupOf(rows[id]) != Some(q.minted)
    ensures Consistent(JoinTxn(rows, q).0)
  {
    hide WellFormed, RowOk, Agree, JoinLive, StillAsExpected, JoinedRecord;
    var rows' := JoinTxn(rows, q).0;
    if rows' != rows {
      var existing := Existing(rows, q);
      var live := JoinLive(rows, q.first, q.second, existing);
      var record := JoinedRecord(rows, q, existing, live);
      JoinLiveIsTheGroup(rows, q);
      CompanyCounts(rows, q);
      JoinedRecordIsWellFormed(rows, q, existing, live);
      assert forall id :: id in live <==> id in IdSet(live);
      forall id | id in rows ensures Treated(id, rows[id], rows'[id], record.id, IdSet(live), Some(record)) {
        if id in live {
          assert !Excludes(rows[id], IdSet(live) - {id});
        }
      }
      assert Rewritten(rows, rows', record.id, IdSet(live), Some(record));
      RewritingKeepsConsistency(rows, rows', record.id, IdSet(live), Some(record));
    }
  }

  /** A member of a joined record: the row as it is now, with its earlier evidence or the match that brings it in. */
  predicate Describes(m: Member, id: Id, row: Row, q: JoinRequest, prior: seq<Member>) {
    && m.id == id && m.source == row.source && m.start == row.start && m.finish == row.finish
    && if id in MemberIds(prior) then m.evidence == PriorEvidence(prior, id)
       else
         && id in {q.first, q.second} && m.evidence.Some? && m.evidence.value.shared == q.shared
         && m.evidence.value.partner in {q.first, q.second} - {id}
  }

  /** Every live copy that a join writes is the next revision and describes each live member. */
  lemma JoinedMembersAreDescribed(rows: Rows, q: JoinRequest, id: Id)
    requires Consistent(rows) && q.first != q.second && MayJoin(rows, q)
    requires id in JoinLive(rows, q.first, q.second, Existing(rows, q))
    ensures var existing := Existing(rows, q);
            var live := JoinLive(rows, q.first, q.second, existing);
            var record := JoinedRecord(rows, q, existing, live);
            && record.revision == 1 + (if existing.Some? then existing.value.revision else 0)
            && exists m :: m in record.members && Describes(m, id, rows[id], q, Listed(existing))
  {
    hide WellFormed, RowOk, Agree, Consistent, JoinLive, StillAsExpected, PriorEvidence, Sorted;
    var existing := Existing(rows, q);
    var live := JoinLive(rows, q.first, q.second, existing);
    var m := JoinedMember(rows, id, q.first, q.second, Listed(existing), q.shared);
    OnlyThePairIsNew(rows, q, id);
    JoinedMemberIsListed(rows, q, existing, live, id);
    assert m in JoinedRecord(rows, q, existing, live).members && Describes(m, id, rows[id], q, Listed(existing));
  }

  lemma JoinedMemberIsListed(rows: Rows, q: JoinRequest, existing: Option<Record>, live: seq<Id>, id: Id)
    requires (forall x :: x in live ==> x in rows) && id in live
    ensures JoinedMember(rows, id, q.first, q.second, Listed(existing), q.shared)
            in JoinedRecord(rows, q, existing, live).members
  {
    hide JoinedMember, Sorted;
    var ms := JoinedMembers(rows, live, q.first, q.second, Listed(existing), q.shared);
    SortedKeepsMembers(ms);
    var k :| 0 <= k < |live| && live[k] == id;
    assert ms[k] in multiset(ms);
    assert ms[k] in multiset(Sorted(ms));
  }

  lemma OnlyThePairIsNew(rows: Rows, q: JoinRequest, id: Id)
    requires Consistent(rows) && q.first != q.second && MayJoin(rows, q)
    requires id in JoinLive(rows, q.first, q.second, Existing(rows, q))
    ensures id in {q.first, q.second} || id in MemberIds(Listed(Existing(rows, q)))
  {
    var existing := Existing(rows, q);
    var order := ReadOrder(q.first, q.second, Listed(existing));
    LiveIdsAreInRows(rows, {q.first, q.second}, GroupOfRecord(existing), order);
    RecordIsDistinct(rows, if rows[q.first].group.Some? then q.first else q.second);
    IdsBesidesListsTheRest(Listed(existing), {q.first, q.second});
  }

  // ----- leaving -----

  /** The live rows that hold group `g`, other than the leaver. */
  function Holders(rows: Rows, g: GroupId, leaver: Id): (ids: set<Id>) {
    set id | id in rows && id != leaver && Live(rows[id]) && GroupOf(rows[id]) == Some(g)
  }

  /** The leaver's own copy lists every other live holder of its group, or none of them. */
  predicate CopyIsCurrent(rows: Rows, id: Id)
    requires id in rows && rows[id].group.Some?
  {
    var holders := Holders(rows, rows[id].group.value.id, id);
    var listed := MemberIds(rows[id].group.value.members);
    holders <= listed || holders !! listed
  }

  function Staying(rows: Rows, id: Id): (ids: seq<Id>)
    requires id in rows && rows[id].group.Some?
  {
    Remaining(rows, rows[id].group.value.id, IdsBesides(rows[id].group.value.members, {id}))
  }

  /** The rows that stay are exactly the live holders that the leaver's copy lists. */
  lemma StayingAreListedHolders(rows: Rows, id: Id)
    requires Consistent(rows) && id in rows && rows[id].group.Some?
    ensures IdSet(Staying(rows, id)) ==
                Holders(rows, rows[id].group.value.id, id) * MemberIds(rows[id].group.value.members)
    ensures NoRepeats(Staying(rows, id))
  {
    hide WellFormed;
    var group := rows[id].group.value;
    RecordIsDistinct(rows, id);
    IdsBesidesListsTheRest(group.members, {id});
    var others := IdsBesides(group.members, {id});
    RemainingDoNotRepeat(rows, group.id, others);
    forall other | other in rows ensures rows[other].group.Some? ==> !rows[other].closed {
      assert RowOk(rows, other);
    }
  }

  lemma ShrunkRecordIsWellFormed(rows: Rows, group: Record, remaining: seq<Id>)
    requires forall id :: id in remaining ==> id in rows
    requires NoRepeats(remaining) && 2 <= |remaining| <= MAX_GROUP_MEMBERS
    ensures var record := ShrunkRecord(rows, group, remaining);
            record.Some? && WellFormed(record.value) && MemberIds(record.value.members) == IdSet(remaining)
                && record.value.id == group.id
  {
    var ms := KeptMembers(rows, remaining, group.members);
    MembersOfIds(ms, remaining);
    NewRecordIsWellFormed(group.id, ms, group.revision + 1);
  }

  lemma IdsBesidesIsNoLonger(ms: seq<Member>, skip: set<Id>)
    ensures |IdsBesides(ms, skip)| <= |ms|
  {
  }

  lemma RemainingIsNoLonger(rows: Rows, g: GroupId, ids: seq<Id>)
    ensures |Remaining(rows, g, ids)| <= |ids|
  {
  }

  lemma HoldersListEachOther(rows: Rows, g: GroupId, leaver: Id, a: Id, b: Id)
    requires Consistent(rows) && a in Holders(rows, g, leaver) && b in Holders(rows, g, leaver)
    ensures rows[a].group == rows[b].group && b in MemberIds(rows[a].group.value.members)
    ensures b != a ==> b !in rows[a].exclusions
  {
    hide WellFormed;
    assert Agree(rows, a, b) && RowOk(rows, a) && RowOk(rows, b);
    var ids := MemberIds(rows[a].group.value.members);
    assert b in ids;
    assert rows[a].exclusions * (ids - {a}) == {};
    assert b != a ==> b in ids - {a};
  }

  lemma StayingFits(rows: Rows, id: Id)
    requires Consistent(rows) && id in rows && rows[id].group.Some?
    ensures |Staying(rows, id)| <= MAX_GROUP_MEMBERS
  {
    assert RowOk(rows, id);
    var group := rows[id].group.value;
    IdsBesidesIsNoLonger(group.members, {id});
    RemainingIsNoLonger(rows, group.id, IdsBesides(group.members, {id}));
  }

  lemma CurrentLeaveKeepsConsistency(rows: Rows, id: Id, sticky: bool, close: bool)
    requires Consistent(rows) && id in rows && rows[id].group.Some? && CopyIsCurrent(rows, id)
    ensures Consistent(LeaveTxn(rows, id, sticky, close).0)
  {
    hide WellFormed, RowOk, Agree, Consistent, ShrunkRecord, Remaining, IdsBesides;
    var group := rows[id].group.value;
    var staying := Staying(rows, id);
    var holders := Holders(rows, group.id, id);
    var record := ShrunkRecord(rows, group, staying);
    var departed := Departed(rows[id], IdSet(IdsBesides(group.members, {id})), sticky, close);
    var rows' := LeaveTxn(rows, id, sticky, close).0;
    StayingAreListedHolders(rows, id);
    StayingFits(rows, id);
    DepartureShape(rows, id, sticky, close);
    var holding := if holders !! MemberIds(group.members) then {} else holders;
    assert IdSet(staying) == holding;
    assert forall a :: a in rows ==> (a in staying <==> a in holding);
    if holding == {} && holders != {} {
      DeadLeaverAlone(rows, id, rows', departed);
    } else {
      if |staying| >= 2 {
        ShrunkRecordIsWellFormed(rows, group, staying);
      } else {
        ShrunkToNothing(rows, group, staying);
      }
      RewriteOfLeave(rows, id, rows', departed, if |staying| < 2 then {} else holders, record);
    }
  }

  lemma DeadLeaverAlone(rows: Rows, id: Id, rows': Rows, departed: Row)
    requires Consistent(rows) && id in rows && rows[id].group.Some? && rows' == rows[id := departed]
    requires departed.group.None? && (!Live(rows[id]) ==> !Live(departed))
    requires Holders(rows, rows[id].group.value.id, id) != {}
    requires Holders(rows, rows[id].group.value.id, id) !! MemberIds(rows[id].group.value.members)
    ensures Consistent(rows')
  {
    hide WellFormed, Consistent;
    if Live(rows[id]) {
      LiveLeaverIsListedWithHolders(rows, id);
    }
    DeadCopyGoes(rows, id, departed);
  }

  lemma DeadCopyGoes(rows: Rows, id: Id, departed: Row)
    requires Consistent(rows) && id in rows && LostDeadCopy(rows[id], departed)
    ensures Consistent(rows[id := departed])
  {
    hide WellFormed;
    var rows' := rows[id := departed];
    forall a | a in rows' ensures RowOk(rows', a) {
      assert RowOk(rows, a);
    }
    forall a, b | a in rows' && b in rows' ensures Agree(rows', a, b) {
      assert Agree(rows, a, b);
    }
  }

  /** What a leave writes, row by row. */
  lemma DepartureShape(rows: Rows, id: Id, sticky: bool, close: bool)
    requires id in rows && rows[id].group.Some?
    ensures var group := rows[id].group.value;
            var staying := Staying(rows, id);
            var departed := Departed(rows[id], IdSet(IdsBesides(group.members, {id})), sticky, close);
            && id !in staying
            && LeaveTxn(rows, id, sticky, close).0 ==
                    WriteGroup(rows[id := departed], staying, ShrunkRecord(rows, group, staying))
            && (staying == [] ==> LeaveTxn(rows, id, sticky, close).0 == rows[id := departed])
  {
    hide ShrunkRecord;
    IdsBesidesSkips(rows[id].group.value.members, {id});
  }

  lemma IdsBesidesSkips(ms: seq<Member>, skip: set<Id>)
    ensures forall id :: id in IdsBesides(ms, skip) ==> id !in skip
  {
  }

  lemma LiveLeaverIsListedWithHolders(rows: Rows, id: Id)
    requires Consistent(rows) && Grouped(rows, id)
    ensures Holders(rows, rows[id].group.value.id, id) <= MemberIds(rows[id].group.value.members)
  {
    hide WellFormed;
    forall other | other in Holders(rows, rows[id].group.value.id, id)
      ensures other in MemberIds(rows[id].group.value.members)
    {
      assert Agree(rows, id, other) && RowOk(rows, other);
    }
  }

  lemma RewriteOfLeave(rows: Rows, id: Id, rows': Rows, departed: Row, listed: set<Id>, record: Option<Record>)
    requires Consistent(rows) && id in rows && rows[id].group.Some? && rows'.Keys == rows.Keys
    requires departed.group.None? && (!Live(rows[id]) ==> !Live(departed))
    requires var holders := Holders(rows, rows[id].group.value.id, id);
             && (listed == holders || (listed == {} && record.None?))
             && rows'[id] == departed
             && (forall a :: a in rows && a != id ==>
                     rows'[a] == if a in holders then rows[a].(group := record) else rows[a])
    requires listed != {} ==> record.Some? && record.value.id == rows[id].group.value.id && WellFormed(record.value)
                              && MemberIds(record.value.members) == listed
    ensures Consistent(rows')
  {
    hide WellFormed, RowOk, Agree, Consistent;
    var g := rows[id].group.value.id;
    var holders := Holders(rows, g, id);
    if listed != {} {
      HoldersExcludeNoHolder(rows, g, id);
    }
    forall a | a in rows ensures Treated(a, rows[a], rows'[a], g, listed, record) {
      if a == id {
      } else if a in holders {
      }
    }
    RewritingKeepsConsistency(rows, rows', g, listed, record);
  }

  lemma HoldersExcludeNoHolder(rows: Rows, g: GroupId, leaver: Id)
    requires Consistent(rows)
    ensures forall a :: a in Holders(rows, g, leaver) ==> SharesWith(rows[a], a, Holders(rows, g, leaver))
  {
    hide Consistent;
    var holders := Holders(rows, g, leaver);
    forall a | a in holders ensures SharesWith(rows[a], a, holders) {
      forall b | b in holders - {a} ensures b !in rows[a].exclusions {
        HoldersListEachOther(rows, g, leaver, a, b);
      }
    }
  }

  lemma ShrunkToNothing(rows: Rows, group: Record, remaining: seq<Id>)
    requires forall id :: id in remaining ==> id in rows
    requires |remaining| < 2
    ensures ShrunkRecord(rows, group, remaining).None?
  {
  }

  /** A stale copy that lists some but not all of the live holders tears the group apart. */
  lemma StaleLeaveBreaksConsistency(rows: Rows, id: Id, sticky: bool, close: bool)
    requires Consistent(rows) && id in rows && rows[id].group.Some? && !CopyIsCurrent(rows, id)
    ensures !Consistent(LeaveTxn(rows, id, sticky, close).0)
  {
    hide WellFormed, ShrunkRecord, Remaining, IdsBesides;
    var group := rows[id].group.value;
    var staying := Staying(rows, id);
    var rows' := LeaveTxn(rows, id, sticky, close).0;
    var holders := Holders(rows, group.id, id);
    StayingAreListedHolders(rows, id);
    StayingFits(rows, id);
    DepartureShape(rows, id, sticky, close);
    var torn :| torn in holders && torn !in MemberIds(group.members);
    var kept :| kept in holders && kept in MemberIds(group.members);
    assert kept in staying by { assert kept in IdSet(staying); }
    assert torn !in staying by { assert torn !in IdSet(staying); }
    HoldersListEachOther(rows, group.id, id, torn, kept);
    assert rows'[torn] == rows[torn];
    if |staying| < 2 {
      ShrunkToNothing(rows, group, staying);
    } else {
      ShrunkRecordIsWellFormed(rows, group, staying);
    }
    assert rows'[kept].group != rows'[torn].group;
    assert !Agree(rows', torn, kept);
  }

  /** A leave keeps the copies consistent exactly when the leaver's own copy is current. */
  lemma LeaveKeepsConsistencyIffCurrent(rows: Rows, id: Id, sticky: bool, close: bool)
    requires Consistent(rows) && id in rows && rows[id].group.Some?
    ensures Consistent(LeaveTxn(rows, id, sticky, close).0) <==> CopyIsCurrent(rows, id)
  {
    if CopyIsCurrent(rows, id) {
      CurrentLeaveKeepsConsistency(rows, id, sticky, close);
    } else {
      StaleLeaveBreaksConsistency(rows, id, sticky, close);
    }
  }

  lemma UndeletedCopyIsCurrent(rows: Rows, id: Id)
    requires Consistent(rows) && id in rows && rows[id].group.Some? && !rows[id].deleted
    ensures CopyIsCurrent(rows, id)
  {
    hide WellFormed;
    assert RowOk(rows, id);
    LiveLeaverIsListedWithHolders(rows, id);
  }

  /**
    How a copy goes stale: a soft-deleted member keeps its copy, a later join adds a capture that this
    copy does not list, and from then on a leave by the deleted row tears the group apart.
  */
  lemma NewcomerMakesDeadCopyStale(rows: Rows, q: JoinRequest, dead: Id, sticky: bool, close: bool)
    requires Consistent(rows) && q.first != q.second && forall id :: id in rows ==> GroupOf(rows[id]) != Some(q.minted)
    requires dead in rows && rows[dead].deleted && rows[dead].group.Some?
    requires JoinTxn(rows, q).1 == GroupOf(rows[dead]) && JoinTxn(rows, q).0 != rows
    requires q.first in MemberIds(rows[dead].group.value.members)
             && q.second !in MemberIds(rows[dead].group.value.members)
    ensures !Consistent(LeaveTxn(JoinTxn(rows, q).0, dead, sticky, close).0)
  {
    hide WellFormed, RowOk, Agree, Consistent, JoinLive, StillAsExpected, JoinedRecord, LeaveTxn;
    var rows' := JoinTxn(rows, q).0;
    var live := JoinLive(rows, q.first, q.second, Existing(rows, q));
    JoinKeepsConsistency(rows, q);
    JoinLiveIsTheGroup(rows, q);
    JoinReaches(rows, q);
    var g := rows[dead].group.value.id;
    assert rows'[dead] == rows[dead];
    assert q.first in Holders(rows', g, dead) && q.second in Holders(rows', g, dead);
    StaleLeaveBreaksConsistency(rows', dead, sticky, close);
  }

  /** Both captures of a pair are among the rows a join rewrites. */
  lemma JoinReaches(rows: Rows, q: JoinRequest)
    requires MayJoin(rows, q)
    ensures q.first in JoinLive(rows, q.first, q.second, Existing(rows, q))
    ensures q.second in JoinLive(rows, q.first, q.second, Existing(rows, q))
  {
    var existing := Existing(rows, q);
    var order := ReadOrder(q.first, q.second, Listed(existing));
    LiveIdsAreInRows(rows, {q.first, q.second}, GroupOfRecord(existing), order);
    assert order[0] == q.first && (q.first != q.second ==> order[1] == q.second);
  }

  /**
    A join keeps the copies consistent exactly when its captures have company. Only a capture joined with
    itself can lack it, which callers never do: it would end up in a group of one.
  */
  lemma JoinKeepsConsistencyIffCompany(rows: Rows, q: JoinRequest)
    requires Consistent(rows) && MayJoin(rows, q)
    requires forall id :: id in rows ==> GroupOf(rows[id]) != Some(q.minted)
    ensures Consistent(JoinTxn(rows, q).0) <==> HasCompany(rows, q)
  {
    hide JoinTxn, Consistent;
    if HasCompany(rows, q) {
      JoinKeepsConsistency(rows, q);
    } else {
      LonelyJoinBreaksConsistency(rows, q);
    }
  }

  lemma LonelyJoinBreaksConsistency(rows: Rows, q: JoinRequest)
    requires Consistent(rows) && MayJoin(rows, q) && !HasCompany(rows, q)
    ensures !Consistent(JoinTxn(rows, q).0)
  {
    hide Agree, JoinLive, StillAsExpected, Sorted, Primary;
    var existing := Existing(rows, q);
    var live := [q.first];
    CompanyCounts(rows, q);
    assert RowOk(rows, q.first);
    assert IdSet(live) == {q.first};
    if existing.Some? {
      var ms := existing.value.members;
      assert ms[0].id in MemberIds(ms) && ms[1].id in MemberIds(ms) && ms[0].id != ms[1].id;
    }
    assert !AnyExcluded(rows, live);
    var members := JoinedMembers(rows, live, q.first, q.second, Listed(existing), q.shared);
    SortedKeepsMembers(members);
    assert JoinTxn(rows, q).0[q.first].group == Some(JoinedRecord(rows, q, existing, live));
    assert !RowOk(JoinTxn(rows, q).0, q.first);
  }

  // ----- every run -----

  lemma EditKeepsConsistency(rows: Rows, id: Id, row: Row)
    requires Consistent(rows) && id in rows
    ensures Consistent(rows[id := Edited(rows[id], row)])
  {
    hide WellFormed;
    var rows' := rows[id := Edited(rows[id], row)];
    forall a | a in rows' ensures RowOk(rows', a) {
      assert RowOk(rows, a);
    }
    forall a, b | a in rows' && b in rows' ensures Agree(rows', a, b) {
      assert Agree(rows, a, b);
    }
  }

  lemma InsertKeepsConsistency(s: State, id: Id, row: Row)
    requires Inv(s) && id !in s.used && row.group.None? && row.exclusions == {}
    ensures Consistent(s.rows[id := row])
  {
    hide WellFormed;
    var rows' := s.rows[id := row];
    forall a | a in rows' ensures RowOk(rows', a) {
      if a != id {
        assert RowOk(s.rows, a);
      }
    }
    forall a, b | a in rows' && b in rows' ensures Agree(rows', a, b) {
      if a != id && b != id {
        assert Agree(s.rows, a, b);
      }
    }
  }

  lemma PurgeKeepsConsistency(rows: Rows, id: Id)
    requires Consistent(rows)
    ensures Consistent(rows - {id})
  {
    hide WellFormed;
    var rows' := rows - {id};
    forall a | a in rows' ensures RowOk(rows', a) {
      assert RowOk(rows, a);
    }
    forall a, b | a in rows' && b in rows' ensures Agree(rows', a, b) {
      assert Agree(rows, a, b);
    }
  }

  lemma CloseKeepsConsistency(rows: Rows, id: Id)
    requires Consistent(rows) && id in rows && rows[id].group.None?
    ensures Consistent(rows[id := rows[id].(closed := true)])
  {
    hide WellFormed;
    var rows' := rows[id := rows[id].(closed := true)];
    forall a | a in rows' ensures RowOk(rows', a) {
      assert RowOk(rows, a);
    }
    forall a, b | a in rows' && b in rows' ensures Agree(rows', a, b) {
      assert Agree(rows, a, b);
    }
  }

  lemma LeaveKeepsConsistency(rows: Rows, id: Id, sticky: bool, close: bool)
    requires Consistent(rows) && (id in rows ==> !rows[id].deleted)
    ensures Consistent(LeaveTxn(rows, id, sticky, close).0)
  {
    hide WellFormed, RowOk, Agree, Consistent;
    if id in rows && rows[id].group.Some? {
      UndeletedCopyIsCurrent(rows, id);
      CurrentLeaveKeepsConsistency(rows, id, sticky, close);
    } else if id in rows && close {
      CloseKeepsConsistency(rows, id);
    }
  }

  lemma JoinListsUsed(s: State, q: JoinRequest)
    requires Inv(s) && q.first != q.second
    ensures ListsUsed(s.(rows := JoinTxn(s.rows, q).0)) && JoinTxn(s.rows, q).0.Keys == s.rows.Keys
  {
    hide WellFormed, RowOk, Agree, JoinLive, StillAsExpected, JoinedRecord;
    var rows' := JoinTxn(s.rows, q).0;
    if rows' != s.rows {
      var existing := Existing(s.rows, q);
      var live := JoinLive(s.rows, q.first, q.second, existing);
      JoinLiveIsTheGroup(s.rows, q);
      CompanyCounts(s.rows, q);
      JoinedRecordIsWellFormed(s.rows, q, existing, live);
    }
  }

  lemma LeaveListsUsed(s: State, id: Id, sticky: bool, close: bool)
    requires Inv(s)
    ensures ListsUsed(s.(rows := LeaveTxn(s.rows, id, sticky, close).0))
            && LeaveTxn(s.rows, id, sticky, close).0.Keys == s.rows.Keys
  {
    hide WellFormed, RowOk, Agree, ShrunkRecord, Remaining, IdsBesides;
    if id in s.rows && s.rows[id].group.Some? {
      var group := s.rows[id].group.value;
      var staying := Staying(s.rows, id);
      DepartureShape(s.rows, id, sticky, close);
      StayingAreListedHolders(s.rows, id);
      StayingFits(s.rows, id);
      if |staying| >= 2 {
        ShrunkRecordIsWellFormed(s.rows, group, staying);
        assert forall a :: a in staying ==> a in IdSet(staying);
        assert IdSet(staying) <= s.rows.Keys;
      } else {
        ShrunkToNothing(s.rows, group, staying);
      }
    }
  }

  lemma StepKeepsInv(s: State, op: Op)
    requires Inv(s) && Legal(s, op)
    ensures Inv(Next(s, op))
  {
    hide WellFormed, RowOk, Agree, Consistent, JoinTxn, LeaveTxn;
    match op
    case Join(q) =>
      JoinKeepsConsistency(s.rows, q);
      JoinListsUsed(s, q);
      assert ListsUsed(Next(s, op));
    case Leave(id, sticky, close) =>
      LeaveKeepsConsistency(s.rows, id, sticky, close);
      LeaveListsUsed(s, id, sticky, close);
      assert ListsUsed(Next(s, op));
    case Insert(id, row) =>
      InsertKeepsConsistency(s, id, row);
    case Edit(id, row) =>
      if id in s.rows {
        EditKeepsConsistency(s.rows, id, row);
      }
    case Purge(id) =>
      PurgeKeepsConsistency(s.rows, id);
  }

  lemma {:induction false} RunKeepsInv(tr: seq<State>, ops: seq<Op>, n: nat)
    requires IsRun(tr, ops) && n < |tr| && Inv(tr[0])
    ensures Inv(tr[n])
  {
    if n > 0 {
      RunKeepsInv(tr, ops, n - 1);
      assert Follows(tr, ops, n - 1);
      StepKeepsInv(tr[n - 1], ops[n - 1]);
    }
  }

  /**
    After any run from an empty account: live rows with the same group id hold the identical record, every
    live row with a group is listed in its record, a record lists two to twelve distinct conversations in
    capture order with the longest as primary, and closed rows are in no group.
  */
  lemma CopiesAgreeInEveryRun(tr: seq<State>, ops: seq<Op>, n: nat, a: Id, b: Id)
    requires IsRun(tr, ops) && n < |tr| && tr[0] == State(map[], {})
    requires a in tr[n].rows && b in tr[n].rows
    ensures var rows := tr[n].rows;
            && (Grouped(rows, a) ==> a in MemberIds(rows[a].group.value.members))
            && (rows[a].group.Some? ==> WellFormed(rows[a].group.value))
            && (rows[a].closed ==> rows[a].group.None?)
            && (Grouped(rows, a) && Grouped(rows, b) && GroupOf(rows[a]) == GroupOf(rows[b]) ==>
                    rows[a].group == rows[b].group)
            && (Grouped(rows, a) && Live(rows[b]) && b in MemberIds(rows[a].group.value.members) ==>
                    rows[b].group == rows[a].group)
  {
    hide WellFormed;
    RunKeepsInv(tr, ops, n);
    assert RowOk(tr[n].rows, a) && Agree(tr[n].rows, a, b);
  }

  /**
    The revision counts the rewrites: a live row that stays in its group keeps its record or gets the next
    revision.
  */
  lemma RevisionCountsRewrites(s: State, op: Op, a: Id)
    requires Inv(s) && Legal(s, op)
    requires Grouped(s.rows, a) && Grouped(Next(s, op).rows, a) && GroupOf(Next(s, op).rows[a]) == GroupOf(s.rows[a])
    ensures var was, now := s.rows[a].group.value, Next(s, op).rows[a].group.value;
            now == was || now.revision == was.revision + 1
  {
    hide WellFormed, RowOk, Agree, Consistent, JoinTxn, LeaveTxn;
    match op
    case Join(q) => JoinCountsRewrites(s.rows, q, a);
    case Leave(id, sticky, close) => LeaveCountsRewrites(s.rows, id, sticky, close, a);
    case _ =>
  }

  lemma JoinCountsRewrites(rows: Rows, q: JoinRequest, a: Id)
    requires Consistent(rows) && q.first != q.second && Grouped(rows, a) && GroupOf(rows[a]) != Some(q.minted)
    requires Grouped(JoinTxn(rows, q).0, a) && GroupOf(JoinTxn(rows, q).0[a]) == GroupOf(rows[a])
    ensures var was, now := rows[a].group.value, JoinTxn(rows, q).0[a].group.value;
            now == was || now.revision == was.revision + 1
  {
    hide WellFormed, RowOk, JoinLive, StillAsExpected, Sorted, Primary;
    var rows' := JoinTxn(rows, q).0;
    if rows'[a] != rows[a] {
      var existing := Existing(rows, q);
      var holder := if rows[q.first].group.Some? then q.first else q.second;
      if existing.Some? {
        assert Agree(rows, holder, a);
      }
    }
  }

  lemma LeaveCountsRewrites(rows: Rows, id: Id, sticky: bool, close: bool, a: Id)
    requires Consistent(rows) && Grouped(rows, a) && (id in rows ==> !rows[id].deleted)
    requires a in LeaveTxn(rows, id, sticky, close).0 && Grouped(LeaveTxn(rows, id, sticky, close).0, a)
    ensures var was, now := rows[a].group.value, LeaveTxn(rows, id, sticky, close).0[a].group.value;
            now == was || now.revision == was.revision + 1
  {
    hide WellFormed, Remaining, IdsBesides, Sorted, Primary;
    if id in rows && rows[id].group.Some? {
      DepartureShape(rows, id, sticky, close);
      StayingAreListedHolders(rows, id);
      assert RowOk(rows, id) && Agree(rows, id, a);
      assert a in Staying(rows, id) ==> a in IdSet(Staying(rows, id));
    }
  }

  // ----- separation -----

  /** The row is gone for good, or it still excludes all of `others`. */
  predicate StillSeparated(s: State, id: Id, others: set<Id>) {
    id in s.used && (id in s.rows ==> others <= s.rows[id].exclusions)
  }

  lemma StepKeepsSeparation(s: State, op: Op, id: Id, others: set<Id>)
    requires Legal(s, op) && StillSeparated(s, id, others)
    ensures StillSeparated(Next(s, op), id, others)
  {
    hide ShrunkRecord, Remaining, IdsBesides, JoinLive, JoinedRecord, StillAsExpected;
  }

  lemma {:induction false} RunKeepsSeparation(tr: seq<State>, ops: seq<Op>, i: nat, j: nat, id: Id, others: set<Id>)
    requires IsRun(tr, ops) && i <= j < |tr| && StillSeparated(tr[i], id, others)
    ensures StillSeparated(tr[j], id, others)
  {
    if i < j {
      RunKeepsSeparation(tr, ops, i, j - 1, id, others);
      assert Follows(tr, ops, j - 1);
      StepKeepsSeparation(tr[j - 1], ops[j - 1], id, others);
    }
  }

  /**
    After a sticky leave, a live leaver never lists any capture its group listed at that moment, alive or
    not, and while both are live they are in no common group and the other does not list the leaver,
    whatever joins through third captures follow.
  */
  lemma SeparationIsPermanent(tr: seq<State>, ops: seq<Op>, i: nat, j: nat, leaver: Id, other: Id, close: bool)
    requires IsRun(tr, ops) && Inv(tr[0]) && i < j < |tr| && ops[i] == Leave(leaver, true, close)
    requires leaver in tr[i].rows && other != leaver && other in MemberIds(Listed(tr[i].rows[leaver].group))
    requires leaver in tr[j].rows && Live(tr[j].rows[leaver])
    ensures var rows := tr[j].rows;
            && other !in MemberIds(Listed(rows[leaver].group))
            && (other in rows && Live(rows[other]) ==>
                  && !(Grouped(rows, leaver) && GroupOf(rows[leaver]) == GroupOf(rows[other]))
                  && leaver !in MemberIds(Listed(rows[other].group)))
  {
    hide WellFormed, LeaveTxn, Next;
    RunKeepsInv(tr, ops, i);
    RunKeepsInv(tr, ops, j);
    assert Follows(tr, ops, i);
    StickyLeaveSeparates(tr[i], leaver, other, close);
    RunKeepsSeparation(tr, ops, i + 1, j, leaver, {other});
    ExcludedIsNotListed(tr[j].rows, leaver, other);
    if other in tr[j].rows && Live(tr[j].rows[other]) {
      SeparatedNeverMeet(tr[j].rows, leaver, other);
    }
  }

  lemma ExcludedIsNotListed(rows: Rows, a: Id, b: Id)
    requires Consistent(rows) && a in rows && a != b && Live(rows[a]) && b in rows[a].exclusions
    ensures b !in MemberIds(Listed(rows[a].group))
  {
    hide WellFormed;
    assert RowOk(rows, a);
    if Grouped(rows, a) {
      assert b !in MemberIds(rows[a].group.value.members) - {a};
    }
  }

  lemma StickyLeaveSeparates(s: State, leaver: Id, other: Id, close: bool)
    requires Inv(s) && leaver in s.rows && other != leaver && other in MemberIds(Listed(s.rows[leaver].group))
    ensures StillSeparated(Next(s, Leave(leaver, true, close)), leaver, {other})
  {
    hide WellFormed, RowOk, Agree;
    var group := s.rows[leaver].group.value;
    RecordIsDistinct(s.rows, leaver);
    IdsBesidesListsTheRest(group.members, {leaver});
    DepartureShape(s.rows, leaver, true, close);
    assert other in IdsBesides(group.members, {leaver});
  }

  lemma SeparatedNeverMeet(rows: Rows, a: Id, b: Id)
    requires Consistent(rows) && a in rows && b in rows && a != b && Live(rows[a]) && Live(rows[b])
             && b in rows[a].exclusions
    ensures !(Grouped(rows, a) && GroupOf(rows[a]) == GroupOf(rows[b]))
    ensures b !in MemberIds(Listed(rows[a].group))
    ensures a !in MemberIds(Listed(rows[b].group))
  {
    hide WellFormed;
    assert RowOk(rows, a) && RowOk(rows, b) && Agree(rows, a, b) && Agree(rows, b, a);
    if Grouped(rows, a) {
      var ids := MemberIds(rows[a].group.value.members);
      assert b !in ids - {a};
    }
  }
}
