/** A least-recently-used cache with per-entry expiry, byte accounting and eviction. */
module CacheManager {
  import opened Prelude

  datatype Entry<K, V> = Entry(key: K, data: V, timestamp: int, size: nat, ttl: int)

  function Total<K, V>(entries: seq<Entry<K, V>>): (n: nat) {
    if entries == [] then 0 else entries[0].size + Total(entries[1..])
  }

  ghost predicate Has<K(!new), V(!new)>(entries: seq<Entry<K, V>>, key: K) {
    exists e :: e in entries && e.key == key
  }

  function Without<K, V>(entries: seq<Entry<K, V>>, i: nat): (r: seq<Entry<K, V>>)
    requires i < |entries|
  {
    entries[..i] + entries[i + 1..]
  }

  lemma {:induction false} TotalConcat<K, V>(a: seq<Entry<K, V>>, b: seq<Entry<K, V>>)
    ensures Total(a + b) == Total(a) + Total(b)
  {
    if a == [] {
      assert a + b == b;
    } else {
      TotalConcat(a[1..], b);
      assert (a + b)[1..] == a[1..] + b;
    }
  }

  lemma TotalWithout<K, V>(entries: seq<Entry<K, V>>, i: nat)
    requires i < |entries|
    ensures Total(Without(entries, i)) == Total(entries) - entries[i].size
  {
    assert entries == entries[..i] + ([entries[i]] + entries[i + 1..]);
    TotalConcat(entries[..i], [entries[i]] + entries[i + 1..]);
    TotalConcat(entries[..i], entries[i + 1..]);
    assert ([entries[i]] + entries[i + 1..])[1..] == entries[i + 1..];
  }

  lemma TotalAppend<K, V>(entries: seq<Entry<K, V>>, e: Entry<K, V>)
    ensures Total(entries + [e]) == Total(entries) + e.size
  {
    TotalConcat(entries, [e]);
    assert [e][1..] == [];
  }

  /** The entries of the other keys, in order. */
  function Others<K(==), V>(entries: seq<Entry<K, V>>, key: K): (r: seq<Entry<K, V>>) {
    if entries == [] then []
    else if entries[0].key == key then Others(entries[1..], key)
    else [entries[0]] + Others(entries[1..], key)
  }

  /** How many of the least recently used entries go so that `required` bytes fit. */
  function Evicted<K, V>(entries: seq<Entry<K, V>>, required: nat, limit: nat): (n: nat)
    ensures n <= |entries|
  {
    if entries == [] || Total(entries) + required <= limit then 0 else 1 + Evicted(entries[1..], required, limit)
  }

  /** What stays is the longest most recently used run that fits: it fits, and no longer one does. */
  lemma {:induction false} EvictionKeepsLongestFit<K, V>(entries: seq<Entry<K, V>>, required: nat, limit: nat, k: nat)
    requires k <= |entries|
    ensures k < Evicted(entries, required, limit) ==> Total(entries[k..]) + required > limit
    ensures Evicted(entries, required, limit) <= k ==> entries[k..] == [] || Total(entries[k..]) + required <= limit
    decreases |entries|
  {
    if entries != [] {
      var rest := entries[1..];
      if k == 0 {
        assert entries[0..] == entries;
      } else {
        assert entries[k..] == rest[k - 1..];
        EvictionKeepsLongestFit(rest, required, limit, k - 1);
        if Total(entries) + required <= limit {
          SuffixShrinks(entries, k);
        }
      }
    }
  }

  lemma {:induction false} SuffixShrinks<K, V>(entries: seq<Entry<K, V>>, k: nat)
    requires k <= |entries|
    ensures Total(entries[k..]) <= Total(entries)
  {
    assert entries == entries[..k] + entries[k..];
    TotalConcat(entries[..k], entries[k..]);
  }

  // ----- soundness of the cached entries -----

  /** A cached entry is the one the plain map holds, and its last use is known. */
  ghost predicate EntryOk<K(!new), V(!new)>(e: Entry<K, V>, latest: map<K, Entry<K, V>>, lastUse: map<K, nat>,
                                            uses: nat)
  {
    e.key in latest && latest[e.key] == e && e.key in lastUse && lastUse[e.key] < uses
  }

  predicate UsedBefore<K, V>(e: Entry<K, V>, f: Entry<K, V>, lastUse: map<K, nat>) {
    e.key in lastUse && f.key in lastUse && lastUse[e.key] < lastUse[f.key]
  }

  /** All entries are sound and stand in order of last use; so their keys are distinct. */
  ghost predicate Sound<K(!new), V(!new)>(entries: seq<Entry<K, V>>, latest: map<K, Entry<K, V>>, lastUse: map<K, nat>,
                                          uses: nat)
  {
    && (forall i :: 0 <= i < |entries| ==> EntryOk(entries[i], latest, lastUse, uses))
    && (forall i, j :: 0 <= i < j < |entries| ==> UsedBefore(entries[i], entries[j], lastUse))
  }

  lemma SoundWithout<K(!new), V(!new)>(entries: seq<Entry<K, V>>, i: nat, latest: map<K, Entry<K, V>>,
                                       lastUse: map<K, nat>, uses: nat)
    requires Sound(entries, latest, lastUse, uses) && i < |entries|
    ensures Sound(Without(entries, i), latest, lastUse, uses)
    ensures forall e :: e in Without(entries, i) <==> e in entries && e.key != entries[i].key
  {
    var rest := Without(entries, i);
    forall k | 0 <= k < |rest| ensures rest[k] in entries && rest[k].key != entries[i].key {
      var at := if k < i then k else k + 1;
      assert rest[k] == entries[at];
      assert if k < i then UsedBefore(entries[k], entries[i], lastUse)
             else UsedBefore(entries[i], entries[k + 1], lastUse);
    }
    forall k | 0 <= k < |entries| && k != i ensures entries[k] in rest {
      assert entries[k] == rest[if k < i then k else k - 1];
    }
  }

  lemma SoundRefreshed<K(!new), V(!new)>(rest: seq<Entry<K, V>>, e: Entry<K, V>, latest: map<K, Entry<K, V>>,
                                         lastUse: map<K, nat>, uses: nat)
    requires Sound(rest, latest, lastUse, uses) && !Has(rest, e.key)
    ensures Sound(rest + [e], latest[e.key := e], lastUse[e.key := uses], uses + 1)
  {
    assert forall k :: 0 <= k < |rest| ==> rest[k] in rest && EntryOk(rest[k], latest, lastUse, uses);
  }

  lemma SoundForgets<K(!new), V(!new)>(rest: seq<Entry<K, V>>, key: K, latest: map<K, Entry<K, V>>,
                                       lastUse: map<K, nat>, uses: nat)
    requires Sound(rest, latest, lastUse, uses) && !Has(rest, key)
    ensures Sound(rest, latest - {key}, lastUse, uses)
  {
    assert forall k :: 0 <= k < |rest| ==> rest[k] in rest && EntryOk(rest[k], latest, lastUse, uses);
  }

  lemma SoundEntry<K(!new), V(!new)>(entries: seq<Entry<K, V>>, key: K, latest: map<K, Entry<K, V>>,
                                     lastUse: map<K, nat>, uses: nat)
    requires Sound(entries, latest, lastUse, uses)
    ensures Has(entries, key) ==> key in latest && latest[key] in entries
  {
    if Has(entries, key) {
      var e :| e in entries && e.key == key;
      var k :| 0 <= k < |entries| && entries[k] == e;
      assert EntryOk(entries[k], latest, lastUse, uses);
    }
  }

  /** Keys are distinct, so removing one place removes exactly that key. */
  lemma {:induction false} OthersIsWithout<K(!new), V(!new)>(entries: seq<Entry<K, V>>, i: nat)
    requires i < |entries| && forall j :: 0 <= j < |entries| && j != i ==> entries[j].key != entries[i].key
    ensures Others(entries, entries[i].key) == Without(entries, i)
  {
    var rest := entries[1..];
    if i == 0 {
      OthersIsAll(rest, entries[0].key);
    } else {
      OthersIsWithout(rest, i - 1);
      assert Without(entries, i) == [entries[0]] + Without(rest, i - 1);
    }
  }

  lemma {:induction false} OthersIsAll<K(!new), V(!new)>(entries: seq<Entry<K, V>>, key: K)
    requires forall j :: 0 <= j < |entries| ==> entries[j].key != key
    ensures Others(entries, key) == entries
  {
    if entries != [] {
      OthersIsAll(entries[1..], key);
    }
  }

  lemma SoundKeys<K(!new), V(!new)>(entries: seq<Entry<K, V>>, i: nat, latest: map<K, Entry<K, V>>,
                                    lastUse: map<K, nat>, uses: nat)
    requires Sound(entries, latest, lastUse, uses) && i < |entries|
    ensures forall j :: 0 <= j < |entries| && j != i ==> entries[j].key != entries[i].key
  {
    forall j | 0 <= j < |entries| && j != i ensures entries[j].key != entries[i].key {
      assert if i < j then UsedBefore(entries[i], entries[j], lastUse) else UsedBefore(entries[j], entries[i], lastUse);
    }
  }

  /** Moving an entry to the end keeps the total size. */
  lemma MovedTotal<K, V>(entries: seq<Entry<K, V>>, i: nat)
    requires i < |entries|
    ensures Total(Without(entries, i) + [entries[i]]) == Total(entries)
  {
    hide Total;
    TotalWithout(entries, i);
    TotalAppend(Without(entries, i), entries[i]);
  }

  class Cache<K(==,!new), V(!new)> {
    const maxBytes: nat
    var entries: seq<Entry<K, V>>          // least recently used first
    var currentSize: int
    var hits: nat
    var misses: nat
    var evictions: nat
    ghost var latest: map<K, Entry<K, V>>  // the plain map: the last entry set and not deleted
    ghost var lastUse: map<K, nat>         // when a key was last set or hit
    ghost var uses: nat

    /**
      The byte count is exact and within the limit unless one oversized entry is alone; every cached entry
      is the plain map's; and the entries stand in order of last use.
    */
    ghost predicate Valid()
      reads this
    {
      && currentSize == Total(entries)
      && (currentSize <= maxBytes || |entries| == 1)
      && Sound(entries, latest, lastUse, uses)
    }

    constructor (maxMegabytes: nat)
      ensures Valid() && entries == [] && latest == map[] && maxBytes == maxMegabytes * 1024 * 1024
    {
      maxBytes := maxMegabytes * 1024 * 1024;
      entries, currentSize, hits, misses, evictions := [], 0, 0, 0, 0;
      latest, lastUse, uses := map[], map[], 0;
    }

    method Find(key: K) returns (i: Option<nat>)
      ensures i.Some? ==> i.value < |entries| && entries[i.value].key == key
      ensures i.None? ==> !Has(entries, key) && Others(entries, key) == entries
    {
      for k := 0 to |entries|
        invariant forall j :: 0 <= j < k ==> entries[j].key != key
      {
        if entries[k].key == key {
          return Some(k);
        }
      }
      OthersIsAll(entries, key);
      return None;
    }

    /** Drops the entry at one place; the others keep their order. */
    method RemoveAt(i: nat)
      requires Valid() && i < |entries|
      modifies this`entries, this`currentSize
      ensures Valid() && entries == Without(old(entries), i) == Others(old(entries), old(entries[i]).key)
      ensures forall e :: e in entries <==> e in old(entries) && e.key != old(entries[i]).key
    {
      hide Sound, Total;
      SoundWithout(entries, i, latest, lastUse, uses);
      SoundKeys(entries, i, latest, lastUse, uses);
      OthersIsWithout(entries, i);
      TotalWithout(entries, i);
      NothingLeft(entries, i);
      currentSize := currentSize - entries[i].size;
      entries := Without(entries, i);
    }

    /**
      A hit returns the latest value set for the key, unexpired, and makes it the most recently used; a
      miss leaves no entry for the key.
    */
    method Get(key: K, now: int) returns (r: Option<V>)
      requires Valid()
      modifies this`entries, this`currentSize, this`hits, this`misses, this`lastUse, this`uses
      ensures Valid()
      ensures Has(old(entries), key) ==> key in latest
      ensures r.Some? <==> Has(old(entries), key) && now <= latest[key].timestamp + latest[key].ttl
      ensures r.Some? ==> r.value == latest[key].data && entries == Others(old(entries), key) + [latest[key]]
      ensures r.None? ==> entries == Others(old(entries), key) && !Has(entries, key)
      ensures (hits, misses) == if r.Some? then (old(hits) + 1, old(misses)) else (old(hits), old(misses) + 1)
    {
      hide Sound, Total, Others;
      SoundEntry(entries, key, latest, lastUse, uses);
      var found := Find(key);
      if found.None? {
        misses := misses + 1;
        return None;
      }
      var i := found.value;
      var entry := entries[i];
      EntryAt(entries, i, latest, lastUse, uses);
      if now - entry.timestamp > entry.ttl {
        RemoveAt(i);
        misses := misses + 1;
        return None;
      }
      MoveToEnd(i);
      hits := hits + 1;
      return Some(entry.data);
    }

    method MoveToEnd(i: nat)
      requires Valid() && i < |entries|
      modifies this`entries, this`lastUse, this`uses
      ensures Valid() && entries == Others(old(entries), old(entries[i]).key) + [old(entries[i])]
    {
      hide Sound, Total;
      var entry := entries[i];
      EntryAt(entries, i, latest, lastUse, uses);
      SoundWithout(entries, i, latest, lastUse, uses);
      SoundKeys(entries, i, latest, lastUse, uses);
      OthersIsWithout(entries, i);
      SoundRefreshed(Without(entries, i), entry, latest, lastUse, uses);
      assert latest == latest[entry.key := entry];
      MovedTotal(entries, i);
      lastUse := lastUse[entry.key := uses];
      uses := uses + 1;
      entries := Without(entries, i) + [entry];
    }

    /**
      Stores a value. Of the other entries, the least recently used ones go until the new one fits; the new
      one is always kept.
    */
    method Set(key: K, data: V, size: nat, ttl: int, now: int)
      requires Valid()
      modifies this
      ensures Valid() && latest == old(latest)[key := Entry(key, data, now, size, ttl)]
      ensures var others := Others(old(entries), key);
              var gone := Evicted(others, size, maxBytes);
              entries == others[gone..] + [Entry(key, data, now, size, ttl)] && evictions == old(evictions) + gone
      ensures hits == old(hits) && misses == old(misses)
    {
      hide Sound, Total, Others, Evicted;
      var found := Find(key);
      if found.Some? {
        RemoveAt(found.value);
      }
      ghost var others := entries;
      EvictIfNeeded(size);
      var entry := Entry(key, data, now, size, ttl);
      assert !Has(entries, key) by {
        assert forall e :: e in entries ==> e in others;
      }
      SoundRefreshed(entries, entry, latest, lastUse, uses);
      TotalAppend(entries, entry);
      TotalOfNothing(entries);
      latest := latest[key := entry];
      lastUse := lastUse[key := uses];
      uses := uses + 1;
      entries := entries + [entry];
      currentSize := currentSize + size;
    }

    method EvictIfNeeded(required: nat)
      requires Valid()
      modifies this`entries, this`currentSize, this`evictions
      ensures Valid() && (entries == [] || currentSize + required <= maxBytes)
      ensures var gone := Evicted(old(entries), required, maxBytes);
              entries == old(entries)[gone..] && evictions == old(evictions) + gone
    {
      hide Sound, Total;
      ghost var gone := 0;
      while currentSize + required > maxBytes && |entries| > 0
        invariant Valid() && gone <= |old(entries)| && entries == old(entries)[gone..]
        invariant evictions == old(evictions) + gone
        invariant Evicted(old(entries), required, maxBytes) == gone + Evicted(entries, required, maxBytes)
        decreases |entries|
      {
        RemoveAt(0);
        evictions := evictions + 1;
        gone := gone + 1;
      }
    }

    method Delete(key: K)
      requires Valid()
      modifies this`entries, this`currentSize, this`latest
      ensures Valid() && latest == old(latest) - {key} && entries == Others(old(entries), key)
    {
      hide Sound, Total, Others;
      var found := Find(key);
      if found.Some? {
        RemoveAt(found.value);
      }
      SoundForgets(entries, key, latest, lastUse, uses);
      latest := latest - {key};
    }

    method Clear()
      requires Valid()
      modifies this
      ensures Valid() && entries == [] && latest == map[] && currentSize == 0 && hits == 0 && misses == 0
              && evictions == 0
    {
      entries, currentSize, hits, misses, evictions := [], 0, 0, 0, 0;
      latest := map[];
    }
  }

  lemma EntryAt<K(!new), V(!new)>(entries: seq<Entry<K, V>>, i: nat, latest: map<K, Entry<K, V>>, lastUse: map<K, nat>,
                                  uses: nat)
    requires Sound(entries, latest, lastUse, uses) && i < |entries|
    ensures entries[i] in entries && entries[i].key in latest && latest[entries[i].key] == entries[i]
  {
    assert EntryOk(entries[i], latest, lastUse, uses);
  }

  lemma TotalOfNothing<K, V>(entries: seq<Entry<K, V>>)
    ensures entries == [] ==> Total(entries) == 0
  {
  }

  lemma NothingLeft<K, V>(entries: seq<Entry<K, V>>, i: nat)
    requires i < |entries|
    ensures |entries| == 1 ==> Total(Without(entries, i)) == 0
  {
  }
}
