/** The conversation documents of one user, with the two transactions that write their group fields. */
module CaptureGroupStore {
  import opened Prelude
  import opened CaptureGroups

  class Conversations {
    var rows: Rows

    constructor ()
      ensures rows == map[]
    {
      rows := map[];
    }

    method ListedIds(members: seq<Member>, skip: set<Id>) returns (ids: seq<Id>)
      ensures ids == IdsBesides(members, skip)
    {
      ids := [];
      for i := 0 to |members|
        invariant ids == IdsBesides(members[..i], skip)
      {
        assert members[..i + 1][..i] == members[..i];
        if members[i].id !in skip {
          ids := ids + [members[i].id];
        }
      }
      assert members[..|members|] == members;
    }

    /** Writes one value of the group field on each listed document. */
    method WriteAll(ids: seq<Id>, group: Option<Record>)
      modifies this
      ensures rows == WriteGroup(old(rows), ids, group)
    {
      for i := 0 to |ids|
        invariant rows.Keys == old(rows).Keys
        invariant forall id :: id in rows ==>
                      rows[id] == if id in ids[..i] then old(rows)[id].(group := group) else old(rows)[id]
      {
        if ids[i] in rows {
          rows := rows[ids[i] := rows[ids[i]].(group := group)];
        }
      }
      assert ids[..|ids|] == ids;
    }

    method ReadLive(first: Id, second: Id, existing: Option<Record>) returns (live: seq<Id>)
      ensures live == JoinLive(rows, first, second, existing)
    {
      var g := if existing.Some? then Some(existing.value.id) else None;
      var others := ListedIds(Listed(existing), {first, second});
      var order := (if first == second then [first] else [first, second]) + others;
      live := [];
      for i := 0 to |order|
        invariant live == LiveIds(rows, {first, second}, g, order[..i])
      {
        assert order[..i + 1][..i] == order[..i];
        if order[i] in rows && Live(rows[order[i]])
            && (order[i] == first || order[i] == second || GroupOf(rows[order[i]]) == g) {
          live := live + [order[i]];
        }
      }
      assert order[..|order|] == order;
    }

    method FindExclusion(live: seq<Id>) returns (found: bool)
      requires forall id :: id in live ==> id in rows
      ensures found == AnyExcluded(rows, live)
    {
      found := false;
      for i := 0 to |live|
        invariant found <==> exists k :: 0 <= k < i && Excludes(rows[live[k]], IdSet(live) - {live[k]})
      {
        if Excludes(rows[live[i]], IdSet(live) - {live[i]}) {
          found := true;
        }
      }
      assert AnyExcluded(rows, live) ==>
              exists k :: 0 <= k < |live| && Excludes(rows[live[k]], IdSet(live) - {live[k]});
    }

    method BuildMembers(q: JoinRequest, live: seq<Id>, prior: seq<Member>) returns (members: seq<Member>)
      requires forall id :: id in live ==> id in rows
      ensures members == JoinedMembers(rows, live, q.first, q.second, prior, q.shared)
    {
      members := [];
      for i := 0 to |live|
        invariant |members| == i
        invariant forall k :: 0 <= k < i ==>
                      members[k] == JoinedMember(rows, live[k], q.first, q.second, prior, q.shared)
      {
        var id := live[i];
        if id in MemberIds(prior) {
          members := members + [MemberFor(id, rows[id], PriorEvidence(prior, id))];
        } else {
          var partner := if id == q.first then q.second else q.first;
          members := members + [MemberFor(id, rows[id], Some(Evidence(q.shared, partner)))];
        }
      }
    }

    /**
      The join step: either every live copy of the group and both captures get the same new record, or no row
      changes.
    */
    method Join(q: JoinRequest) returns (r: Option<GroupId>)
      modifies this
      ensures (rows, r) == JoinTxn(old(rows), q)
    {
      hide JoinLive, Sorted, Primary, JoinedMember, WriteGroup, StillAsExpected, AnyExcluded, MemberIds;
      if q.first !in rows || q.second !in rows || !Joinable(rows[q.first]) || !Joinable(rows[q.second]) {
        return None;
      }
      if !StillAsExpected(rows, {q.first, q.second}, q.windows, q.digests) {
        return None;
      }
      var one, two := rows[q.first].group, rows[q.second].group;
      if one.Some? && two.Some? && one.value.id != two.value.id {
        return None;
      }
      var existing := if one.Some? then one else two;
      var live := ReadLive(q.first, q.second, existing);
      if existing.Some? && IdSet(live) == MemberIds(existing.value.members) {
        return Some(existing.value.id);
      }
      var excluded := FindExclusion(live);
      if excluded || |live| > MAX_GROUP_MEMBERS {
        return None;
      }
      var members := BuildMembers(q, live, Listed(existing));
      SortedKeepsMembers(members);
      var g := if existing.Some? then existing.value.id else q.minted;
      var revision := if existing.Some? then existing.value.revision else 0;
      WriteAll(live, Some(NewRecord(g, members, revision + 1)));
      return Some(g);
    }

    method ReadRemaining(g: GroupId, others: seq<Id>) returns (remaining: seq<Id>)
      ensures remaining == Remaining(rows, g, others)
    {
      remaining := [];
      for i := 0 to |others|
        invariant remaining == Remaining(rows, g, others[..i])
      {
        assert others[..i + 1][..i] == others[..i];
        if others[i] in rows && !rows[others[i]].deleted && GroupOf(rows[others[i]]) == Some(g) {
          remaining := remaining + [others[i]];
        }
      }
      assert others[..|others|] == others;
    }

    method RebuildMembers(remaining: seq<Id>, prior: seq<Member>) returns (members: seq<Member>)
      requires forall id :: id in remaining ==> id in rows
      ensures members == KeptMembers(rows, remaining, prior)
    {
      members := [];
      for i := 0 to |remaining|
        invariant |members| == i
        invariant forall k :: 0 <= k < i ==>
                      members[k] == MemberFor(remaining[k], rows[remaining[k]], PriorEvidence(prior, remaining[k]))
      {
        members := members + [MemberFor(remaining[i], rows[remaining[i]], PriorEvidence(prior, remaining[i]))];
      }
    }

    /** The leave step: clears the leaver's copy and rewrites, or clears, those of the rows that stay. */
    method Leave(id: Id, sticky: bool, close: bool) returns (changed: bool)
      modifies this
      ensures (rows, changed) == LeaveTxn(old(rows), id, sticky, close)
    {
      hide Remaining, IdsBesides, Sorted, Primary, WriteGroup, MemberFor, PriorEvidence;
      if id !in rows {
        return false;
      }
      var row := rows[id];
      if row.group.None? {
        if close && !row.closed {
          rows := rows[id := row.(closed := true)];
        }
        return false;
      }
      var group := row.group.value;
      var others := ListedIds(group.members, {id});
      var remaining := ReadRemaining(group.id, others);
      var members := RebuildMembers(remaining, group.members);
      var own := row.(group := None);
      if close {
        own := own.(closed := true);
      }
      if sticky {
        own := own.(exclusions := row.exclusions + IdSet(others));
      }
      rows := rows[id := own];
      if |remaining| < 2 {
        WriteAll(remaining, None);
        return true;
      }
      SortedKeepsMembers(members);
      WriteAll(remaining, Some(NewRecord(group.id, members, group.revision + 1)));
      return true;
    }
  }
}
