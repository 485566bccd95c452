/**
 The cache with an expiry time per item (internal/cache/cache.go). Its contents are tied to
 the history of the calls that changed it: an item is found exactly if the last Put of its
 key that no Clear follows has not expired.
 */
module Caching {
  import opened Wrappers

  datatype Item<T> = Item(expireTs: int, content: T)

  // A call that may change the cache, with the time at which it was made; `Nothing` is a
  // call that its caller decided not to make.
  datatype Op<T> = Put(key: string, ttl: int, data: T, at: int) | Clear | Nothing

  function After<T>(m: map<string, Item<T>>, op: Op<T>): map<string, Item<T>> {
    match op
    case Put(key, ttl, data, at) => m[key := Item(at + ttl, data)]
    case Clear => map[]
    case Nothing => m
  }

  function Replay<T>(history: seq<Op<T>>): map<string, Item<T>> {
    if history == [] then map[]
    else After(Replay(history[..|history| - 1]), history[|history| - 1])
  }

  function Lookup<T>(m: map<string, Item<T>>, key: string, now: int): Option<T> {
    if key in m && m[key].expireTs > now then Some(m[key].content) else None
  }

  // The i-th call put the key, and no later one put it again or cleared the cache.
  predicate IsLastPut<T(==)>(history: seq<Op<T>>, key: string, i: int) {
    && 0 <= i < |history| && history[i].Put? && history[i].key == key
    && forall j :: i < j < |history| ==> !history[j].Clear? && !(history[j].Put? && history[j].key == key)
  }

  lemma {:induction false} EntryIsLastPut<T>(history: seq<Op<T>>, key: string)
    ensures key in Replay(history) <==> exists i :: IsLastPut(history, key, i)
    ensures forall i :: IsLastPut(history, key, i) ==>
              Replay(history)[key] == Item(history[i].at + history[i].ttl, history[i].data)
  {
    if history != [] {
      var n := |history| - 1;
      var before := history[..n];
      EntryIsLastPut(before, key);
      if history[n].Put? && history[n].key == key {
        assert IsLastPut(history, key, n);
      } else if !history[n].Clear? {
        forall i ensures IsLastPut(history, key, i) <==> IsLastPut(before, key, i) {
          assert 0 <= i < n ==> before[i] == history[i];
          if IsLastPut(history, key, i) {
            assert forall j :: i < j < n ==> before[j] == history[j];
          }
        }
      }
    }
  }

  // A lookup succeeds exactly if the last put since the last clear is still alive, and then
  // gives that put's data.
  lemma LookupIsLastPut<T>(history: seq<Op<T>>, key: string, now: int, data: T)
    ensures Lookup(Replay(history), key, now) == Some(data) <==>
            exists i :: IsLastPut(history, key, i) && history[i].at + history[i].ttl > now && history[i].data == data
  {
    EntryIsLastPut(history, key);
  }

  class Cache<T(==)> {
    var cache: map<string, Item<T>>
    ghost var history: seq<Op<T>>

    ghost predicate Valid()
      reads this
    {
      cache == Replay(history)
    }

    constructor ()
      ensures Valid() && history == []
    {
      cache := map[];
      history := [];
    }

    method Get(key: string, now: int) returns (res: Option<T>)
      requires Valid()
      ensures res == Lookup(Replay(history), key, now)
      ensures res.Some? <==> exists i :: IsLastPut(history, key, i) && history[i].at + history[i].ttl > now
      ensures forall i :: res.Some? && IsLastPut(history, key, i) ==> res.value == history[i].data
    {
      EntryIsLastPut(history, key);
      if key !in cache {
        return None;
      }
      var item := cache[key];
      if item.expireTs > now {
        return Some(item.content);
      }
      return None;
    }

    method Put(key: string, ttl: int, data: T, now: int)
      requires Valid()
      modifies this
      ensures Valid() && history == old(history) + [Op.Put(key, ttl, data, now)]
    {
      cache := cache[key := Item(now + ttl, data)];
      history := history + [Op.Put(key, ttl, data, now)];
      assert history[..|history| - 1] == old(history);
    }

    method Clear()
      requires Valid()
      modifies this
      ensures Valid() && history == old(history) + [Op.Clear]
    {
      cache := map[];
      history := history + [Op.Clear];
    }
  }
}
