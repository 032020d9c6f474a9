/**
  Evidence and confidence are annotations of a suggestion, not part of its identity: when a duplicate
  capture is coalesced into an existing Candidate, its evidence is appended once and bounded.
*/
module CandidateAnnotations {
  import opened Prelude

  /** An evidence reference, as the canonical encoding that identifies it. */
  type Evidence = string

  const MAX_EVIDENCE: nat := 20

  /** First occurrences, in order. */
  function Distinct(refs: seq<Evidence>): (r: seq<Evidence>) {
    if refs == [] then []
    else
      var init, last := refs[..|refs| - 1], refs[|refs| - 1];
      if last in Distinct(init) then Distinct(init) else Distinct(init) + [last]
  }

  ghost predicate NoRepeats(refs: seq<Evidence>) {
    forall i, j :: 0 <= i < j < |refs| ==> refs[i] != refs[j]
  }

  lemma {:induction false} DistinctMembers(refs: seq<Evidence>)
    ensures forall x :: x in Distinct(refs) <==> x in refs
    ensures NoRepeats(Distinct(refs))
  {
    if refs != [] {
      var init, last := refs[..|refs| - 1], refs[|refs| - 1];
      DistinctMembers(init);
      assert refs == init + [last];
    }
  }

  function Bounded(refs: seq<Evidence>): (r: seq<Evidence>) {
    if |refs| <= MAX_EVIDENCE then refs else refs[..MAX_EVIDENCE]
  }

  /** The evidence of a Candidate after one more capture is merged into it. */
  function MergedEvidence(existing: seq<Evidence>, proposed: seq<Evidence>): (r: seq<Evidence>) {
    Bounded(Distinct(existing + proposed))
  }

  function MaxOption(a: Option<int>, b: Option<int>): (r: Option<int>) {
    if a.None? then b else if b.None? then a else Some(Max(a.value, b.value))
  }

  function Max(a: int, b: int): (r: int) {
    if a < b then b else a
  }

  lemma {:induction false} DistinctOfPrefix(a: seq<Evidence>, b: seq<Evidence>)
    ensures Distinct(a) <= Distinct(a + b)
  {
    if b == [] {
      assert a + b == a;
    } else {
      var init := b[..|b| - 1];
      DistinctOfPrefix(a, init);
      assert (a + b)[..|a + b| - 1] == a + init;
    }
  }

  lemma {:induction false} DistinctOfDistinct(a: seq<Evidence>)
    requires NoRepeats(a)
    ensures Distinct(a) == a
  {
    if a != [] {
      var init := a[..|a| - 1];
      DistinctOfDistinct(init);
      assert a == init + [a[|a| - 1]];
      assert a[|a| - 1] !in init;
    }
  }

  lemma {:induction false} NothingNew(a: seq<Evidence>, b: seq<Evidence>)
    requires forall x :: x in b ==> x in a
    ensures Distinct(a + b) == Distinct(a)
  {
    if b == [] {
      assert a + b == a;
    } else {
      var init := b[..|b| - 1];
      NothingNew(a, init);
      assert (a + b)[..|a + b| - 1] == a + init;
      assert b[|b| - 1] in a;
      DistinctMembers(a);
    }
  }

  /** Coalescing the same capture twice stores the same evidence as coalescing it once. */
  lemma MergeIsIdempotent(existing: seq<Evidence>, proposed: seq<Evidence>)
    ensures var merged := MergedEvidence(existing, proposed); MergedEvidence(merged, proposed) == merged
  {
    var all := Distinct(existing + proposed);
    var merged := Bounded(all);
    DistinctMembers(existing + proposed);
    DistinctOfDistinct(merged);
    if |all| <= MAX_EVIDENCE {
      NothingNew(merged, proposed);
    } else {
      DistinctOfPrefix(merged, proposed);
    }
  }

  /** Evidence already stored is never dropped or reordered, and stays free of repeats and bounded. */
  ghost predicate EvidenceKept(before: seq<Evidence>, after: seq<Evidence>) {
    NoRepeats(before) && |before| <= MAX_EVIDENCE ==> before <= after && NoRepeats(after) && |after| <= MAX_EVIDENCE
  }

  lemma MergeKeepsExisting(existing: seq<Evidence>, proposed: seq<Evidence>)
    ensures EvidenceKept(existing, MergedEvidence(existing, proposed))
    ensures forall x :: x in MergedEvidence(existing, proposed) ==> x in existing || x in proposed
  {
    hide Distinct;
    DistinctMembers(existing + proposed);
    var all := Distinct(existing + proposed);
    assert forall x :: x in Bounded(all) ==> x in all;
    if NoRepeats(existing) && |existing| <= MAX_EVIDENCE {
      DistinctOfDistinct(existing);
      DistinctOfPrefix(existing, proposed);
    }
  }

  /** Two merges in a row keep what the first found. */
  lemma EvidenceKeptTransitive(a: seq<Evidence>, b: seq<Evidence>, c: seq<Evidence>)
    requires EvidenceKept(a, b) && EvidenceKept(b, c)
    ensures EvidenceKept(a, c)
  {
  }

  predicate NotBelow(a: Option<int>, b: Option<int>) {
    a.Some? ==> b.Some? && b.value >= a.value
  }

  lemma NoneYet()
    ensures Distinct([]) == []
  {
  }

  lemma OneMore(refs: seq<Evidence>, i: nat)
    requires i < |refs|
    ensures Distinct(refs[..i + 1]) ==
              if refs[i] in Distinct(refs[..i]) then Distinct(refs[..i]) else Distinct(refs[..i]) + [refs[i]]
  {
    assert refs[..i + 1][..i] == refs[..i];
  }

  /** The merge as it runs: one pass over both lists, stopping as soon as the bound is reached. */
  method MergeEvidence(existing: seq<Evidence>, proposed: seq<Evidence>) returns (evidence: seq<Evidence>)
    ensures evidence == MergedEvidence(existing, proposed)
  {
    hide Distinct;
    NoneYet();
    evidence := [];
    var seen: set<Evidence> := {};
    var refs := existing + proposed;
    assert refs[..0] == [];
    for i := 0 to |refs|
      invariant evidence == Distinct(refs[..i])
      invariant forall x :: x in seen <==> x in evidence
      invariant |evidence| < MAX_EVIDENCE
    {
      OneMore(refs, i);
      if refs[i] in seen {
        continue;
      }
      seen := seen + {refs[i]};
      evidence := evidence + [refs[i]];
      if |evidence| == MAX_EVIDENCE {
        assert refs == refs[..i + 1] + refs[i + 1..];
        DistinctOfPrefix(refs[..i + 1], refs[i + 1..]);
        return;
      }
    }
    assert refs[..|refs|] == refs;
  }

  /** Task provenance is merged the same way, without a bound. */
  method MergeProvenance(current: seq<Evidence>, added: seq<Evidence>) returns (provenance: seq<Evidence>)
    ensures provenance == Distinct(current + added)
  {
    hide Distinct;
    NoneYet();
    provenance := [];
    var seen: set<Evidence> := {};
    var refs := current + added;
    assert refs[..0] == [];
    for i := 0 to |refs|
      invariant provenance == Distinct(refs[..i])
      invariant forall x :: x in seen <==> x in provenance
    {
      OneMore(refs, i);
      if refs[i] !in seen {
        seen := seen + {refs[i]};
        provenance := provenance + [refs[i]];
      }
    }
    assert refs[..|refs|] == refs;
  }
}
