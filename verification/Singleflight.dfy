/**
  Fetching a missing cache entry once: threads that miss the same key share one lock from a table with
  reference counts, and a thread fetches only while it holds that lock.
*/
module Singleflight {
  import opened Prelude

  type Key = string
  type Thread = nat
  type Lock = nat          // the identity of a lock object

  /** Where a thread is inside the call; a thread that is not inside has no phase. */
  datatype Phase =
    | Missed(key: Key)                     // the fast path found nothing
    | Waiting(key: Key, lock: Lock)        // registered, waiting for the lock
    | Holding(key: Key, lock: Lock)        // has the lock, about to look again
    | Fetching(key: Key, lock: Lock)       // inside the fetch function
    | Leaving(key: Key)                    // lock released, still registered

  datatype State = State(
    locks: map<Key, Lock>,
    refcounts: map<Key, int>,
    held: map<Lock, Thread>,
    threads: map<Thread, Phase>,
    minted: nat,
    cached: set<Key>)

  datatype Event =
    | Enter(thread: Thread, key: Key)      // the fast path
    | Register(thread: Thread)             // under the table's own lock
    | Acquire(thread: Thread)
    | LookAgain(thread: Thread)
    | Return(thread: Thread, stores: bool) // the fetch returns a value, or returns nothing or raises
    | Deregister(thread: Thread)           // the finally block, under the table's own lock
    | Drop(key: Key)                       // the entry expires, is evicted or deleted
    | Fill(key: Key)                       // another writer sets the entry

  const Start := State(map[], map[], map[], map[], 0, {})

  function EnterStep(s: State, t: Thread, k: Key): (s': State) {
    if t in s.threads || k in s.cached then s else s.(threads := s.threads[t := Missed(k)])
  }

  function RegisterStep(s: State, t: Thread): (s': State) {
    if t !in s.threads || !s.threads[t].Missed? then s
    else
      var k := s.threads[t].key;
      var lock := if k in s.locks then s.locks[k] else s.minted;
      s.(locks := s.locks[k := lock],
         refcounts := s.refcounts[k := (if k in s.locks then Count(s, k) else 0) + 1],
         minted := if k in s.locks then s.minted else s.minted + 1,
         threads := s.threads[t := Waiting(k, lock)])
  }

  function AcquireStep(s: State, t: Thread): (s': State) {
    if t !in s.threads || !s.threads[t].Waiting? || s.threads[t].lock in s.held then s
    else
      var l := s.threads[t].lock;
      s.(held := s.held[l := t], threads := s.threads[t := Holding(s.threads[t].key, l)])
  }

  function ReleaseStep(s: State, t: Thread): (s': State)
    requires t in s.threads && (s.threads[t].Holding? || s.threads[t].Fetching?)
  {
    s.(held := s.held - {s.threads[t].lock}, threads := s.threads[t := Leaving(s.threads[t].key)])
  }

  function LookAgainStep(s: State, t: Thread): (s': State) {
    if t !in s.threads || !s.threads[t].Holding? then s
    else if s.threads[t].key in s.cached then ReleaseStep(s, t)
    else s.(threads := s.threads[t := Fetching(s.threads[t].key, s.threads[t].lock)])
  }

  function ReturnStep(s: State, t: Thread, stores: bool): (s': State) {
    if t !in s.threads || !s.threads[t].Fetching? then s
    else ReleaseStep(s, t).(cached := if stores then s.cached + {s.threads[t].key} else s.cached)
  }

  function DeregisterStep(s: State, t: Thread): (s': State) {
    if t !in s.threads || !s.threads[t].Leaving? then s
    else
      var k := s.threads[t].key;
      var left := Count(s, k) - 1;
      s.(locks := if left == 0 then s.locks - {k} else s.locks,
         refcounts := if left == 0 then s.refcounts - {k} else s.refcounts[k := left],
         threads := s.threads - {t})
  }

  function Next(s: State, e: Event): (s': State) {
    match e
    case Enter(t, k) => EnterStep(s, t, k)
    case Register(t) => RegisterStep(s, t)
    case Acquire(t) => AcquireStep(s, t)
    case LookAgain(t) => LookAgainStep(s, t)
    case Return(t, stores) => ReturnStep(s, t, stores)
    case Deregister(t) => DeregisterStep(s, t)
    case Drop(k) => s.(cached := s.cached - {k})
    case Fill(k) => s.(cached := s.cached + {k})
  }

  function Count(s: State, k: Key): (n: int) {
    if k in s.refcounts then s.refcounts[k] else 0
  }

  /** The thread is between registration and deregistration for this key. */
  predicate RegisteredFor(threads: map<Thread, Phase>, t: Thread, k: Key) {
    t in threads && !threads[t].Missed? && threads[t].key == k
  }

  function Registered(threads: map<Thread, Phase>, k: Key): (ts: set<Thread>) {
    set t | t in threads && RegisteredFor(threads, t, k)
  }

  ghost predicate IsRun(tr: seq<State>, es: seq<Event>) {
    |tr| == |es| + 1 && tr[0] == Start && forall i :: 0 <= i < |es| ==> Follows(tr, es, i)
  }

  predicate Follows(tr: seq<State>, es: seq<Event>, i: nat)
    requires i < |es| && i + 1 < |tr|
  {
    tr[i + 1] == Next(tr[i], es[i])
  }

  // ----- the invariant -----

  /** A key is in both tables exactly while a thread is registered for it, and the count is their number. */
  ghost predicate KeyOk(s: State, k: Key) {
    && (k in s.locks <==> k in s.refcounts)
    && (k in s.locks ==> s.locks[k] < s.minted)
    && Count(s, k) == |Registered(s.threads, k)|
    && (k in s.locks <==> Registered(s.threads, k) != {})
  }

  predicate LocksDiffer(s: State, k: Key, k': Key) {
    k in s.locks && k' in s.locks && s.locks[k] == s.locks[k'] ==> k == k'
  }

  predicate Owns(p: Phase, l: Lock) {
    (p.Holding? || p.Fetching?) && p.lock == l
  }

  predicate LockOk(s: State, l: Lock) {
    l in s.held ==> s.held[l] in s.threads && Owns(s.threads[s.held[l]], l)
  }

  /** A registered thread refers to the lock in the table, and an owner is the recorded holder. */
  predicate ThreadOk(s: State, t: Thread) {
    t in s.threads ==>
      var p := s.threads[t];
      && (!p.Missed? ==> p.key in s.locks)
      && ((p.Waiting? || p.Holding? || p.Fetching?) ==> p.key in s.locks && s.locks[p.key] == p.lock)
      && ((p.Holding? || p.Fetching?) ==> p.lock in s.held && s.held[p.lock] == t)
  }

  ghost predicate Inv(s: State) {
    && (forall k :: KeyOk(s, k))
    && (forall k, k' :: LocksDiffer(s, k, k'))
    && (forall l :: LockOk(s, l))
    && (forall t :: ThreadOk(s, t))
  }

  lemma EnterKeepsInv(s: State, t: Thread, k: Key)
    requires Inv(s)
    ensures Inv(EnterStep(s, t, k))
  {
    var s' := EnterStep(s, t, k);
    forall x ensures KeyOk(s', x) {
      assert KeyOk(s, x);
      assert Registered(s'.threads, x) == Registered(s.threads, x);
    }
    forall x, y ensures LocksDiffer(s', x, y) { assert LocksDiffer(s, x, y); }
    forall l ensures LockOk(s', l) { assert LockOk(s, l); }
    forall u ensures ThreadOk(s', u) { assert ThreadOk(s, u); }
  }

  lemma RegisterKeepsInv(s: State, t: Thread)
    requires Inv(s)
    ensures Inv(RegisterStep(s, t))
  {
    var s' := RegisterStep(s, t);
    if s' != s {
      var k := s.threads[t].key;
      forall x ensures KeyOk(s', x) {
        assert KeyOk(s, x);
        if x == k {
          SizeAfterChange(Registered(s.threads, k), Registered(s'.threads, k), t);
          assert t in Registered(s'.threads, k);
        } else {
          assert Registered(s'.threads, x) == Registered(s.threads, x);
        }
      }
      forall x, y ensures LocksDiffer(s', x, y) {
        assert LocksDiffer(s, x, y) && KeyOk(s, x) && KeyOk(s, y);
      }
      forall l ensures LockOk(s', l) { assert LockOk(s, l); }
      forall u ensures ThreadOk(s', u) { assert ThreadOk(s, u); }
    }
  }

  /** Steps that keep every thread's registration and the tables only have locks and threads to check. */
  lemma TablesUntouched(s: State, s': State)
    requires Inv(s) && s'.locks == s.locks && s'.refcounts == s.refcounts && s'.minted == s.minted
    requires forall k :: Registered(s'.threads, k) == Registered(s.threads, k)
    ensures forall k :: KeyOk(s', k)
    ensures forall k, k' :: LocksDiffer(s', k, k')
  {
    forall x ensures KeyOk(s', x) { assert KeyOk(s, x); }
    forall x, y ensures LocksDiffer(s', x, y) { assert LocksDiffer(s, x, y); }
  }

  lemma SameRegistrations(threads: map<Thread, Phase>, t: Thread, p: Phase)
    requires t in threads && !threads[t].Missed? && !p.Missed? && p.key == threads[t].key
    ensures forall k :: Registered(threads[t := p], k) == Registered(threads, k)
  {
  }

  lemma AcquireKeepsInv(s: State, t: Thread)
    requires Inv(s)
    ensures Inv(AcquireStep(s, t))
  {
    var s' := AcquireStep(s, t);
    if s' != s {
      SameRegistrations(s.threads, t, s'.threads[t]);
      TablesUntouched(s, s');
      forall l ensures LockOk(s', l) { assert LockOk(s, l); }
      forall u ensures ThreadOk(s', u) { assert ThreadOk(s, u); }
    }
  }

  lemma ReleaseKeepsInv(s: State, t: Thread)
    requires Inv(s) && t in s.threads && (s.threads[t].Holding? || s.threads[t].Fetching?)
    ensures Inv(ReleaseStep(s, t))
  {
    var s' := ReleaseStep(s, t);
    assert ThreadOk(s, t);
    SameRegistrations(s.threads, t, s'.threads[t]);
    TablesUntouched(s, s');
    forall l ensures LockOk(s', l) { assert LockOk(s, l); }
    forall u ensures ThreadOk(s', u) { assert ThreadOk(s, u); }
  }

  lemma LookAgainKeepsInv(s: State, t: Thread)
    requires Inv(s)
    ensures Inv(LookAgainStep(s, t))
  {
    var s' := LookAgainStep(s, t);
    if t in s.threads && s.threads[t].Holding? {
      if s.threads[t].key in s.cached {
        ReleaseKeepsInv(s, t);
      } else {
        SameRegistrations(s.threads, t, s'.threads[t]);
        TablesUntouched(s, s');
        forall l ensures LockOk(s', l) { assert LockOk(s, l); }
        forall u ensures ThreadOk(s', u) { assert ThreadOk(s, u); }
      }
    }
  }

  lemma RecachingKeepsInv(s: State, cached: set<Key>)
    requires Inv(s)
    ensures Inv(s.(cached := cached))
  {
    var s' := s.(cached := cached);
    TablesUntouched(s, s');
    forall l ensures LockOk(s', l) { assert LockOk(s, l); }
    forall u ensures ThreadOk(s', u) { assert ThreadOk(s, u); }
  }

  lemma DeregisterKeepsInv(s: State, t: Thread)
    requires Inv(s)
    ensures Inv(DeregisterStep(s, t))
  {
    var s' := DeregisterStep(s, t);
    if s' != s {
      var k := s.threads[t].key;
      forall x ensures KeyOk(s', x) {
        assert KeyOk(s, x);
        if x == k {
          assert t in Registered(s.threads, k) && t !in Registered(s'.threads, k);
          SizeAfterChange(Registered(s.threads, k), Registered(s'.threads, k), t);
        } else {
          assert Registered(s'.threads, x) == Registered(s.threads, x);
        }
      }
      forall x, y ensures LocksDiffer(s', x, y) { assert LocksDiffer(s, x, y); }
      forall l ensures LockOk(s', l) { assert LockOk(s, l); }
      forall u ensures ThreadOk(s', u) {
        assert ThreadOk(s, u) && KeyOk(s', k);
        if u in s'.threads && !s'.threads[u].Missed? && s'.threads[u].key == k {
          assert u in Registered(s'.threads, k);
        }
      }
    }
  }

  lemma StepKeepsInv(s: State, e: Event)
    requires Inv(s)
    ensures Inv(Next(s, e))
  {
    hide Inv;
    match e
    case Enter(t, k) => EnterKeepsInv(s, t, k);
    case Register(t) => RegisterKeepsInv(s, t);
    case Acquire(t) => AcquireKeepsInv(s, t);
    case LookAgain(t) => LookAgainKeepsInv(s, t);
    case Return(t, stores) =>
      if t in s.threads && s.threads[t].Fetching? {
        ReleaseKeepsInv(s, t);
        RecachingKeepsInv(ReleaseStep(s, t), Next(s, e).cached);
      }
    case Deregister(t) => DeregisterKeepsInv(s, t);
    case Drop(k) => RecachingKeepsInv(s, s.cached - {k});
    case Fill(k) => RecachingKeepsInv(s, s.cached + {k});
  }

  lemma {:induction false} RunKeepsInv(tr: seq<State>, es: seq<Event>, n: nat)
    requires IsRun(tr, es) && n <= |es|
    ensures Inv(tr[n])
  {
    if n > 0 {
      RunKeepsInv(tr, es, n - 1);
      assert Follows(tr, es, n - 1);
      StepKeepsInv(tr[n - 1], es[n - 1]);
    }
  }

  // ----- what it gives -----

  /** At most one thread per key is inside the fetch function. */
  lemma OneFetcherPerKey(tr: seq<State>, es: seq<Event>, n: nat, t: Thread, t': Thread)
    requires IsRun(tr, es) && n <= |es| && t in tr[n].threads && t' in tr[n].threads
    requires tr[n].threads[t].Fetching? && tr[n].threads[t'].Fetching? && tr[n].threads[t].key == tr[n].threads[t'].key
    ensures t == t'
  {
    RunKeepsInv(tr, es, n);
    assert ThreadOk(tr[n], t) && ThreadOk(tr[n], t');
  }

  /** Everyone registered for a key refers to the one lock in the table, and the count is their number. */
  lemma TablesAreExact(tr: seq<State>, es: seq<Event>, n: nat, k: Key)
    requires IsRun(tr, es) && n <= |es|
    ensures var s := tr[n];
            && Count(s, k) == |Registered(s.threads, k)|
            && (k in s.locks <==> Registered(s.threads, k) != {}) && (k in s.refcounts <==> k in s.locks)
            && forall t :: t in Registered(s.threads, k) && !s.threads[t].Leaving? ==>
                    k in s.locks && s.threads[t].lock == s.locks[k]
  {
    RunKeepsInv(tr, es, n);
    assert KeyOk(tr[n], k);
    forall t | t in Registered(tr[n].threads, k) && !tr[n].threads[t].Leaving?
      ensures k in tr[n].locks && tr[n].threads[t].lock == tr[n].locks[k]
    {
      assert ThreadOk(tr[n], t);
    }
  }

  /** When no thread is registered, both tables are empty. */
  lemma TablesDrain(tr: seq<State>, es: seq<Event>, n: nat)
    requires IsRun(tr, es) && n <= |es| && forall k :: Registered(tr[n].threads, k) == {}
    ensures tr[n].locks == map[] && tr[n].refcounts == map[]
  {
    RunKeepsInv(tr, es, n);
    forall k ensures k !in tr[n].locks && k !in tr[n].refcounts {
      assert KeyOk(tr[n], k);
    }
  }

  /** The thread is inside the fetch function for `k`. */
  predicate Inside(s: State, t: Thread, k: Key) {
    t in s.threads && s.threads[t].Fetching? && s.threads[t].key == k
  }

  /** In this step thread `t` enters the fetch function for `k`. */
  predicate StartsFetch(tr: seq<State>, i: nat, t: Thread, k: Key)
    requires i + 1 < |tr|
  {
    !Inside(tr[i], t, k) && Inside(tr[i + 1], t, k)
  }

  /** Nobody fetches what is there: a thread enters only while holding the lock, and finding nothing cached. */
  lemma FetchOnlyWhatIsMissing(tr: seq<State>, es: seq<Event>, i: nat, t: Thread, k: Key)
    requires IsRun(tr, es) && i < |es| && StartsFetch(tr, i, t, k)
    ensures k !in tr[i].cached && t in tr[i].threads && tr[i].threads[t].Holding? && tr[i].threads[t].key == k
  {
    assert Follows(tr, es, i);
  }

  /** Nor does a thread register for what is there: it enters the slow path only on a miss. */
  lemma SlowPathOnlyOnMiss(tr: seq<State>, es: seq<Event>, i: nat, t: Thread)
    requires IsRun(tr, es) && i < |es| && t !in tr[i].threads && t in tr[i + 1].threads
    ensures tr[i + 1].threads[t].Missed? && tr[i + 1].threads[t].key !in tr[i].cached
  {
    assert Follows(tr, es, i);
  }

  /** A call enters the slow path exactly on a miss. */
  lemma EntersOnMiss(s: State, t: Thread, k: Key)
    requires t !in s.threads
    ensures EnterStep(s, t, k) == if k in s.cached then s else s.(threads := s.threads[t := Missed(k)])
  {
  }

  /** What a thread that looks again, or comes back from a fetch, does next. */
  lemma ThreadsMoveOn(s: State, t: Thread)
    requires Inv(s) && t in s.threads
    ensures var p := s.threads[t];
            && (p.Missed? ==>
                  && RegisterStep(s, t).threads[t].Waiting? && RegisterStep(s, t).threads[t].key == p.key
                  && p.key in RegisterStep(s, t).locks
                  && (p.key in s.locks ==> RegisterStep(s, t).locks[p.key] == s.locks[p.key]))
            && (p.Waiting? && p.lock !in s.held ==> AcquireStep(s, t).threads[t] == Holding(p.key, p.lock))
            && (p.Waiting? && p.lock in s.held ==> AcquireStep(s, t) == s)
            && (p.Holding? ==>
                  LookAgainStep(s, t).threads[t] ==
                    if p.key in s.cached then Leaving(p.key) else Fetching(p.key, p.lock))
            && (p.Fetching? ==>
                  && ReturnStep(s, t, true).threads[t] == Leaving(p.key) && p.key in ReturnStep(s, t, true).cached
                  && ReturnStep(s, t, false).cached == s.cached && p.lock !in ReturnStep(s, t, false).held)
            && (p.Leaving? ==> t !in DeregisterStep(s, t).threads)
  {
  }

  /** No deadlock: in every reachable state with a thread inside, some thread can take its next step. */
  lemma SomeoneCanMove(tr: seq<State>, es: seq<Event>, n: nat)
    requires IsRun(tr, es) && n <= |es| && tr[n].threads != map[]
    ensures exists e: Event :: !e.Drop? && !e.Fill? && Next(tr[n], e).threads != tr[n].threads
  {
    RunKeepsInv(tr, es, n);
    var s := tr[n];
    var t :| t in s.threads;
    var mover := if s.threads[t].Waiting? && s.threads[t].lock in s.held then s.held[s.threads[t].lock] else t;
    assert s.threads[t].Waiting? ==> LockOk(s, s.threads[t].lock);
    ThreadsMoveOn(s, mover);
    var p := s.threads[mover];
    var e := match p
      case Missed(_) => Register(mover)
      case Waiting(_, _) => Acquire(mover)
      case Holding(_, _) => LookAgain(mover)
      case Fetching(_, _) => Return(mover, true)
      case Leaving(_) => Deregister(mover);
    assert Next(s, e).threads != s.threads;
  }

  /** A fetch of `k` ended without a value to keep, or the kept value went away. */
  predicate LosesValue(tr: seq<State>, es: seq<Event>, i: nat, k: Key)
    requires i < |es| && i < |tr|
  {
    || es[i] == Drop(k)
    || (es[i].Return? && !es[i].stores && es[i].thread in tr[i].threads && tr[i].threads[es[i].thread].Fetching?
        && tr[i].threads[es[i].thread].key == k)
  }

  ghost predicate Provided(s: State, k: Key) {
    k in s.cached || exists t :: Inside(s, t, k)
  }

  lemma {:induction false} StaysProvided(tr: seq<State>, es: seq<Event>, i: nat, j: nat, t: Thread, k: Key)
    requires IsRun(tr, es) && i < j <= |es| && StartsFetch(tr, i, t, k)
    requires forall n :: i < n < j ==> !LosesValue(tr, es, n, k)
    ensures Provided(tr[j], k)
  {
    assert Follows(tr, es, j - 1);
    if j == i + 1 {
      assert Inside(tr[j], t, k);
    } else {
      StaysProvided(tr, es, i, j - 1, t, k);
      var s, e := tr[j - 1], es[j - 1];
      assert !LosesValue(tr, es, j - 1, k);
      if k !in s.cached {
        var u :| Inside(s, u, k);
        if e == Return(u, true) {
          assert k in tr[j].cached;
        } else {
          assert Inside(tr[j], u, k);
        }
      }
    }
  }

  /**
    The herd waits: two fetches of one key, by whichever threads, are separated by a fetch that kept nothing
    or by the loss of the kept value.
  */
  lemma FetchesAreSeparated(tr: seq<State>, es: seq<Event>, i: nat, j: nat, t: Thread, u: Thread, k: Key)
    requires IsRun(tr, es) && i < j < |es| && StartsFetch(tr, i, t, k) && StartsFetch(tr, j, u, k)
    ensures exists n :: i < n < j && LosesValue(tr, es, n, k)
  {
    RunKeepsInv(tr, es, j);
    FetchOnlyWhatIsMissing(tr, es, j, u, k);
    HolderSeesNoFetcher(tr[j], u, k);
    if forall n :: i < n < j ==> !LosesValue(tr, es, n, k) {
      StaysProvided(tr, es, i, j, t, k);
    }
  }

  lemma HolderSeesNoFetcher(s: State, t: Thread, k: Key)
    requires Inv(s) && t in s.threads && s.threads[t].Holding? && s.threads[t].key == k && k !in s.cached
    ensures !Provided(s, k)
  {
    forall u ensures !Inside(s, u, k) {
      assert ThreadOk(s, t) && ThreadOk(s, u);
    }
  }
}
