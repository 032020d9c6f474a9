/** When a join or a leave is granted and which rows it then changes, said of the stored rows and the request alone. */
module CaptureGroupGrants {
  import opened Prelude
  import opened CaptureGroups
  import opened CaptureGroupRuns

  // ----- joining -----

  /** A finished recording that is neither gone nor going. */
  predicate Fit(rows: Rows, id: Id) {
    id in rows && !rows[id].deleted && !rows[id].closed && !rows[id].discarded && rows[id].completed
  }

  /** Windows and transcripts are what the evidence was gathered from; ids outside the pair have no window. */
  predicate Unedited(rows: Rows, q: JoinRequest)
    requires q.first in rows && q.second in rows
  {
    && (forall id :: id in q.windows ==>
          if id == q.first || id == q.second
          then q.windows[id].start == rows[id].start && q.windows[id].finish == rows[id].finish
          else q.windows[id].start.None? && q.windows[id].finish.None?)
    && (forall id :: id in q.digests ==>
          (id == q.first || id == q.second) && q.digests[id] == Some(rows[id].transcript))
  }

  /** The record that the pair brings along, of whichever capture has one. */
  function Brought(rows: Rows, q: JoinRequest): (r: Option<Record>)
    requires q.first in rows && q.second in rows
  {
    if rows[q.first].group.Some? then rows[q.first].group else rows[q.second].group
  }

  /** The captures that will be members: the pair, and the live rows that the record lists and that are still in it. */
  function Joined(rows: Rows, q: JoinRequest): (ids: set<Id>)
    requires q.first in rows && q.second in rows
  {
    set id | id in rows && !rows[id].deleted && !rows[id].closed
             && (|| id == q.first || id == q.second
                 || (&& Brought(rows, q).Some? && id in MemberIds(Brought(rows, q).value.members)
                     && rows[id].group.Some? && rows[id].group.value.id == Brought(rows, q).value.id))
  }

  predicate NoneExcluded(rows: Rows, ids: set<Id>)
    requires ids <= rows.Keys
  {
    forall a, b :: a in ids && b in ids && a != b ==> b !in rows[a].exclusions
  }

  /**
    A join is granted exactly when both captures are fit and unedited since the evidence, not in two different
    groups, and either already make up their group as it is recorded, or are at most twelve with its live
    members and nobody separated any two of them.
  */
  predicate Grantable(rows: Rows, q: JoinRequest) {
    && Fit(rows, q.first) && Fit(rows, q.second) && Unedited(rows, q)
    && (rows[q.first].group.Some? && rows[q.second].group.Some? ==>
          rows[q.first].group.value.id == rows[q.second].group.value.id)
    && (|| (Brought(rows, q).Some? && Joined(rows, q) == MemberIds(Brought(rows, q).value.members))
        || (NoneExcluded(rows, Joined(rows, q)) && |Joined(rows, q)| <= 12))
  }

  lemma MayJoinIff(rows: Rows, q: JoinRequest)
    ensures MayJoin(rows, q) <==>
              && Fit(rows, q.first) && Fit(rows, q.second) && Unedited(rows, q)
              && (rows[q.first].group.Some? && rows[q.second].group.Some? ==>
                    rows[q.first].group.value.id == rows[q.second].group.value.id)
  {
  }

  lemma LiveAreJoined(rows: Rows, q: JoinRequest)
    requires Consistent(rows) && MayJoin(rows, q)
    ensures var live := JoinLive(rows, q.first, q.second, Existing(rows, q));
            && IdSet(live) == Joined(rows, q) && |live| == |Joined(rows, q)|
            && (AnyExcluded(rows, live) <==> !NoneExcluded(rows, Joined(rows, q)))
  {
    hide WellFormed, RowOk, Agree, Consistent, StillAsExpected, LiveIds;
    var existing := Existing(rows, q);
    var live := JoinLive(rows, q.first, q.second, existing);
    var order := ReadOrder(q.first, q.second, Listed(existing));
    RecordIsDistinct(rows, if rows[q.first].group.Some? then q.first else q.second);
    IdsBesidesListsTheRest(Listed(existing), {q.first, q.second});
    LiveIdsAreInRows(rows, {q.first, q.second}, GroupOfRecord(existing), order);
    JoinLiveIsTheGroup(rows, q);
    assert order[0] == q.first && (q.first != q.second ==> order[1] == q.second);
    forall id ensures id in live <==> id in Joined(rows, q) {
      assert id in order <==> id == q.first || id == q.second || id in MemberIds(Listed(existing));
    }
    SizeOfIds(live);
    ExclusionsAsPairs(rows, live);
  }

  lemma {:induction false} SizeOfIds(ids: seq<Id>)
    requires NoRepeats(ids)
    ensures |IdSet(ids)| == |ids|
  {
    if ids != [] {
      var init, last := ids[..|ids| - 1], ids[|ids| - 1];
      SizeOfIds(init);
      assert IdSet(ids) == IdSet(init) + {last};
      assert last !in init;
    }
  }

  lemma ExclusionsAsPairs(rows: Rows, ids: seq<Id>)
    requires forall id :: id in ids ==> id in rows
    ensures IdSet(ids) <= rows.Keys
    ensures AnyExcluded(rows, ids) <==> !NoneExcluded(rows, IdSet(ids))
  {
    if AnyExcluded(rows, ids) {
      var a :| a in ids && Excludes(rows[a], IdSet(ids) - {a});
      var b :| b in rows[a].exclusions * (IdSet(ids) - {a});
      assert a in IdSet(ids) && b in IdSet(ids) && b in rows[a].exclusions;
    }
    if !NoneExcluded(rows, IdSet(ids)) {
      var a, b :| a in IdSet(ids) && b in IdSet(ids) && a != b && b in rows[a].exclusions;
      assert b in rows[a].exclusions * (IdSet(ids) - {a});
      assert Excludes(rows[a], IdSet(ids) - {a});
    }
  }

  lemma JoinGrantedIff(rows: Rows, q: JoinRequest)
    requires Consistent(rows)
    ensures JoinTxn(rows, q).1.Some? <==> Grantable(rows, q)
    ensures JoinTxn(rows, q).1.None? ==> JoinTxn(rows, q).0 == rows
  {
    hide WellFormed, RowOk, Agree, Consistent, JoinLive, JoinedRecord, MayJoin, AnyExcluded, NoneExcluded;
    MayJoinIff(rows, q);
    if MayJoin(rows, q) {
      LiveAreJoined(rows, q);
    }
  }

  /**
    What a granted join leaves: every member holds the same record, under the group's id or the fresh one, that
    lists exactly the members; their other fields and all other rows stay as they were.
  */
  lemma JoinBringsTogether(rows: Rows, q: JoinRequest)
    requires Consistent(rows) && q.first != q.second && JoinTxn(rows, q).1.Some?
    ensures q.first in rows && q.second in rows
    ensures var (rows', g) := JoinTxn(rows, q);
            && rows'.Keys == rows.Keys
            && g.value == (if Brought(rows, q).Some? then Brought(rows, q).value.id else q.minted)
            && (forall id :: id in Joined(rows, q) ==>
                  && rows'[id].group == rows'[q.first].group && rows'[id].group.Some?
                  && rows'[id].group.value.id == g.value && rows'[id] == rows[id].(group := rows'[id].group))
            && MemberIds(Listed(rows'[q.first].group)) == Joined(rows, q)
            && (forall id :: id in rows && id !in Joined(rows, q) ==> rows'[id] == rows[id])
  {
    hide WellFormed, RowOk, Agree, Consistent, JoinLive, JoinedRecord, AnyExcluded, StillAsExpected;
    var existing := Existing(rows, q);
    var live := JoinLive(rows, q.first, q.second, existing);
    LiveAreJoined(rows, q);
    JoinLiveIsTheGroup(rows, q);
    CompanyCounts(rows, q);
    assert forall id :: id in live <==> id in Joined(rows, q) by {
      assert forall id :: id in live <==> id in IdSet(live);
    }
    if existing.Some? && IdSet(live) == MemberIds(existing.value.members) {
      forall id | id in live ensures rows[id].group == existing {
        ListedHoldTheRecord(rows, if rows[q.first].group.Some? then q.first else q.second, id);
      }
    } else {
      JoinedRecordIsWellFormed(rows, q, existing, live);
    }
  }

  lemma ListedHoldTheRecord(rows: Rows, holder: Id, id: Id)
    requires Consistent(rows) && Grouped(rows, holder) && id in rows && Live(rows[id])
    requires id in MemberIds(rows[holder].group.value.members)
    ensures rows[id].group == rows[holder].group
  {
    hide WellFormed;
    assert Agree(rows, holder, id);
  }

  // ----- leaving -----

  /** The members that a leave keeps together: listed with the leaver, not deleted, still in the group. */
  function Together(rows: Rows, id: Id): (ids: set<Id>)
    requires id in rows && rows[id].group.Some?
  {
    set x | x in rows && x != id && !rows[x].deleted && x in MemberIds(rows[id].group.value.members)
            && rows[x].group.Some? && rows[x].group.value.id == rows[id].group.value.id
  }

  /** What a leave does to the leaver: exactly the asked marks, and the separations only if it is to last. */
  lemma LeaverIsReleased(rows: Rows, id: Id, sticky: bool, close: bool)
    requires Consistent(rows)
    ensures var (rows', left) := LeaveTxn(rows, id, sticky, close);
            && rows'.Keys == rows.Keys
            && (left <==> id in rows && rows[id].group.Some?)
            && (id in rows ==>
                  && rows'[id].group.None? && rows'[id].closed == (rows[id].closed || close)
                  && rows'[id].exclusions == rows[id].exclusions
                                             + (if sticky then MemberIds(Listed(rows[id].group)) - {id} else {})
                  && rows'[id] == rows[id].(group := None, closed := rows'[id].closed,
                                            exclusions := rows'[id].exclusions))
  {
    hide WellFormed, RowOk, Agree, ShrunkRecord, Remaining;
    if id in rows && rows[id].group.Some? {
      RecordIsDistinct(rows, id);
      IdsBesidesListsTheRest(rows[id].group.value.members, {id});
      DepartureShape(rows, id, sticky, close);
    }
  }

  /** What it does to the rest: two or more that stay get the next record of just them, a single one is freed. */
  lemma OthersAreRegrouped(rows: Rows, id: Id, sticky: bool, close: bool, x: Id)
    requires Consistent(rows) && x in rows && x != id
    ensures var (rows', left) := LeaveTxn(rows, id, sticky, close);
            && x in rows' && rows'[x] == rows[x].(group := rows'[x].group)
            && (!(left && x in Together(rows, id)) ==> rows'[x] == rows[x])
            && (left && x in Together(rows, id) ==>
                  if |Together(rows, id)| < 2 then rows'[x].group.None?
                  else
                    && rows'[x].group.Some? && rows'[x].group.value.id == rows[id].group.value.id
                    && rows'[x].group.value.revision == rows[id].group.value.revision + 1
                    && MemberIds(rows'[x].group.value.members) == Together(rows, id))
  {
    hide WellFormed, RowOk, Agree, ShrunkRecord, Remaining, IdsBesides;
    if id in rows && rows[id].group.Some? {
      var staying := Staying(rows, id);
      DepartureShape(rows, id, sticky, close);
      StayingAreTogether(rows, id);
      StayingFits(rows, id);
      if |staying| >= 2 {
        ShrunkRecordIsWellFormed(rows, rows[id].group.value, staying);
        ShrunkRevision(rows, rows[id].group.value, staying);
      } else {
        ShrunkToNothing(rows, rows[id].group.value, staying);
      }
    }
  }

  lemma StayingAreTogether(rows: Rows, id: Id)
    requires Consistent(rows) && id in rows && rows[id].group.Some?
    ensures IdSet(Staying(rows, id)) == Together(rows, id) && |Staying(rows, id)| == |Together(rows, id)|
    ensures forall x :: x in Staying(rows, id) <==> x in Together(rows, id)
    ensures NoRepeats(Staying(rows, id))
  {
    hide WellFormed, RowOk, Agree;
    StayingAreListedHolders(rows, id);
    RecordIsDistinct(rows, id);
    IdsBesidesListsTheRest(rows[id].group.value.members, {id});
    SizeOfIds(Staying(rows, id));
    assert forall x :: x in Staying(rows, id) <==> x in Together(rows, id);
  }

  lemma ShrunkRevision(rows: Rows, group: Record, remaining: seq<Id>)
    requires (forall id :: id in remaining ==> id in rows) && |remaining| >= 2
    ensures ShrunkRecord(rows, group, remaining).Some?
    ensures ShrunkRecord(rows, group, remaining).value.revision == group.revision + 1
  {
    SortedKeepsMembers(KeptMembers(rows, remaining, group.members));
  }

  /** A member that stays is listed by its current window, with the evidence it had. */
  lemma StayingMembersAreDescribed(rows: Rows, group: Record, remaining: seq<Id>, id: Id)
    requires (forall x :: x in remaining ==> x in rows)
    requires |remaining| >= 2 && id in remaining && DistinctIds(group.members)
    ensures var record := ShrunkRecord(rows, group, remaining).value;
            exists m :: && m in record.members && m.id == id && m.source == rows[id].source
                        && m.start == rows[id].start && m.finish == rows[id].finish
                        && (forall was :: was in group.members && was.id == id ==> m.evidence == was.evidence)
                        && (id !in MemberIds(group.members) ==> m.evidence.None?)
  {
    hide Sorted, PriorEvidence, Primary;
    var ms := KeptMembers(rows, remaining, group.members);
    SortedKeepsMembers(ms);
    var k :| 0 <= k < |remaining| && remaining[k] == id;
    assert ms[k] in multiset(ms);
    assert ms[k] in multiset(Sorted(ms));
    PriorEvidenceIsTheMembers(group.members, id);
  }

  /** The evidence carried over is the one the listed member of that id had, and none for an id not listed. */
  lemma {:induction false} PriorEvidenceIsTheMembers(ms: seq<Member>, id: Id)
    requires DistinctIds(ms)
    ensures forall m :: m in ms && m.id == id ==> PriorEvidence(ms, id) == m.evidence
    ensures id !in MemberIds(ms) ==> PriorEvidence(ms, id).None?
  {
    if ms != [] {
      var init, last := ms[..|ms| - 1], ms[|ms| - 1];
      assert ms == init + [last];
      PriorEvidenceIsTheMembers(init, id);
      assert MemberIds(ms) == MemberIds(init) + {last.id};
      assert forall m :: m in init ==> m.id in MemberIds(init) && m.id != last.id;
    }
  }

  // ----- the record -----

  /** Seconds between start and finish; none if either is unknown. */
  predicate Lasts(m: Member, length: int) {
    if m.start.Some? && m.finish.Some? then m.start.value + length == m.finish.value else length == 0
  }

  /**
    A well-formed record is sorted by start, unknown ones first, then by id, and no member lasts longer than
    its primary.
  */
  lemma RecordReads(r: Record, length: int, i: nat)
    requires WellFormed(r) && i < |r.members| && Lasts(r.members[i], length)
    ensures forall j :: i < j < |r.members| ==> StartsNoLater(r.members[i], r.members[j])
    ensures exists p, longest :: && p in r.members && p.id == r.primary && Lasts(p, longest) && longest >= length
                                 && (longest == length ==> p.id == r.members[i].id || !NotAfter(r.members[i].id, p.id))
  {
    forall j | i < j < |r.members| ensures StartsNoLater(r.members[i], r.members[j]) {
      assert Ordered(r.members[i], r.members[j]);
    }
    var p :| p in r.members && p.id == r.primary && forall other :: other in r.members ==> Outranks(p, other);
    assert Outranks(p, r.members[i]);
    NotAfterIsTotal(p.id, r.members[i].id);
    assert Lasts(p, Duration(p)) && length == Duration(r.members[i]);
  }

  predicate StartsNoLater(a: Member, b: Member) {
    && (a.start.Some? && b.start.Some? ==> a.start.value <= b.start.value)
    && (a.start.Some? && b.start.None? ==> a.start.value == 0)
    && (a.start == b.start ==> NotAfter(a.id, b.id))
  }
}
