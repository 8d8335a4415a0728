/** The time-expiring cache (cache/cache.go), with the clock as an explicit argument. */
module Caching {
  import opened Wrappers

  datatype Item<+D> = Item(data: D, expiredAt: int)

  type Store<+D> = map<string, Item<D>>

  /** A hit up to and including the deadline: Go's `After` is strict. */
  function Lookup<D>(store: Store<D>, key: string, now: int): Option<D> {
    if key in store && now <= store[key].expiredAt then Some(store[key].data) else None
  }

  function Put<D>(store: Store<D>, key: string, data: D, now: int, lifeTime: int): Store<D> {
    store[key := Item(data, now + lifeTime)]
  }

  function Purge<D>(store: Store<D>, now: int): Store<D> {
    map k | k in store && now <= store[k].expiredAt :: store[k]
  }

  class Cache<D> {
    var store: Store<D>

    constructor ()
      ensures store == map[]
    {
      store := map[];
    }

    method Get(key: string, now: int) returns (data: Option<D>)
      ensures data == Lookup(store, key, now)
      ensures data == if key in store && now <= store[key].expiredAt then Some(store[key].data) else None
    {
      if key !in store {
        return None;
      }
      var item := store[key];
      if now > item.expiredAt {
        return None;
      }
      return Some(item.data);
    }

    method Set(key: string, data: D, now: int, lifeTime: int)
      modifies this
      ensures store == Put(old(store), key, data, now, lifeTime)
      ensures forall k :: k in store <==> k == key || k in old(store)
      ensures forall k | k in store :: store[k] == if k == key then Item(data, now + lifeTime) else old(store)[k]
    {
      store := store[key := Item(data, now + lifeTime)];
    }

    /** Deletes the expired items one by one, in any order. */
    method Cleanup(now: int)
      modifies this
      ensures store == Purge(old(store), now)
      ensures forall k :: k in store <==> k in old(store) && now <= old(store)[k].expiredAt
      ensures forall k | k in store :: store[k] == old(store)[k]
    {
      var left := store.Keys;
      while left != {}
        invariant left <= store.Keys
        invariant forall k | k in old(store) && now <= old(store)[k].expiredAt :: k in store
        invariant forall k | k in store :: k in old(store) && store[k] == old(store)[k]
        invariant forall k | k in store && k !in left :: now <= store[k].expiredAt
        decreases left
      {
        var k :| k in left;
        left := left - {k};
        if now > store[k].expiredAt {
          store := store - {k};
        }
      }
    }
  }

  // ---------------------------------------------------------------- the log behind the cache

  datatype Op<+D> = Set(key: string, data: D, lifeTime: int) | Clean

  datatype Timed<+D> = Timed(at: int, op: Op<D>)

  function Replay<D>(ops: seq<Timed<D>>): Store<D> {
    if ops == [] then map[]
    else
      var n := |ops| - 1;
      match ops[n].op
      case Set(k, d, life) => Put(Replay(ops[..n]), k, d, ops[n].at, life)
      case Clean => Purge(Replay(ops[..n]), ops[n].at)
  }

  /** What the latest Set of the key stored, and until when. */
  function LatestSet<D>(ops: seq<Timed<D>>, key: string): Option<Item<D>> {
    if ops == [] then None
    else
      var n := |ops| - 1;
      match ops[n].op
      case Set(k, d, life) => if k == key then Some(Item(d, ops[n].at + life)) else LatestSet(ops[..n], key)
      case Clean => LatestSet(ops[..n], key)
  }

  /** Times never go back, and none is later than `now`. */
  predicate InOrderUntil<D>(ops: seq<Timed<D>>, now: int) {
    ops == [] || (ops[|ops| - 1].at <= now && InOrderUntil(ops[..|ops| - 1], ops[|ops| - 1].at))
  }

  lemma LaterNow<D>(ops: seq<Timed<D>>, now: int, later: int)
    requires InOrderUntil(ops, now) && now <= later
    ensures InOrderUntil(ops, later)
  {
  }

  function WithoutCleaning<D>(ops: seq<Timed<D>>): seq<Timed<D>> {
    if ops == [] then []
    else
      var n := |ops| - 1;
      WithoutCleaning(ops[..n]) + if ops[n].op.Clean? then [] else [ops[n]]
  }

  /** At any later time the cache answers with the latest Set of the key, until its deadline. */
  lemma {:induction false} CacheRefinesLog<D>(ops: seq<Timed<D>>, key: string, now: int)
    requires InOrderUntil(ops, now)
    ensures var latest := LatestSet(ops, key);
            Lookup(Replay(ops), key, now)
            == if latest.Some? && now <= latest.value.expiredAt then Some(latest.value.data) else None
  {
    if ops != [] {
      var n := |ops| - 1;
      LaterNow(ops[..n], ops[n].at, now);
      CacheRefinesLog(ops[..n], key, now);
    }
  }

  lemma {:induction false} CleaningKeepsLatest<D>(ops: seq<Timed<D>>, key: string, now: int)
    requires InOrderUntil(ops, now)
    ensures LatestSet(WithoutCleaning(ops), key) == LatestSet(ops, key)
    ensures InOrderUntil(WithoutCleaning(ops), now)
  {
    if ops != [] {
      var n := |ops| - 1;
      var w := WithoutCleaning(ops[..n]);
      CleaningKeepsLatest(ops[..n], key, ops[n].at);
      if ops[n].op.Set? {
        assert (w + [ops[n]])[..|w|] == w;
      } else {
        assert w + [] == w;
        LaterNow(w, ops[n].at, now);
      }
    }
  }

  /** Cleaner steps, wherever they were, change no present or future Get. */
  lemma CleaningIsInvisible<D>(ops: seq<Timed<D>>, key: string, now: int)
    requires InOrderUntil(ops, now)
    ensures Lookup(Replay(ops), key, now) == Lookup(Replay(WithoutCleaning(ops)), key, now)
  {
    CleaningKeepsLatest(ops, key, now);
    CacheRefinesLog(ops, key, now);
    CacheRefinesLog(WithoutCleaning(ops), key, now);
  }

  /** With a clock that goes back, a cleaner step becomes visible. */
  lemma ClockMustNotGoBack()
    ensures var ops := [Timed(0, Set("k", 1, 5)), Timed(10, Clean)];
            Lookup(Replay(ops), "k", 3) == None && Lookup(Replay(WithoutCleaning(ops)), "k", 3) == Some(1)
  {
    var set1: Timed<int> := Timed(0, Set("k", 1, 5));
    var ops := [set1, Timed(10, Clean)];
    assert ops[..1] == [set1];
    assert WithoutCleaning([set1]) == [set1];
    assert WithoutCleaning(ops) == [set1];
  }
}
