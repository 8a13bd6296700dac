/** A cache with per-entry lifetimes, shared by goroutines (internal/services/common/ttlcache.go).
    Every critical section is one method; between the sections of a Get any other goroutine may
    run any of its own. */
module TtlCache {
  import opened GoStrings

  datatype Entry<V> = Entry(value: V, expiresAt: int)

  /** What the cache would hold if it never evicted, at one moment. */
  datatype Moment<V> = Moment(written: map<string, Entry<V>>, now: int)

  predicate Expired<V>(e: Entry<V>, now: int) { now > e.expiresAt }

  /** Looking up a key in some contents, judged at a later time. */
  function Answer<V>(contents: map<string, Entry<V>>, key: string, at: int): Option<V> {
    if key in contents && !Expired(contents[key], at) then Some(contents[key].value) else None
  }

  /** The contents differ from what was written at most by entries that have expired. */
  ghost predicate Agree<V(!new)>(items: map<string, Entry<V>>, written: map<string, Entry<V>>, now: int) {
    forall k ::
      && (k in items ==> k in written && items[k] == written[k])
      && (k in written && k !in items ==> Expired(written[k], now))
  }

  /** Eviction is invisible: from now on the cache answers like one that never evicts. */
  lemma EvictionIsInvisible<V(!new)>(items: map<string, Entry<V>>, written: map<string, Entry<V>>, now: int,
                      key: string, at: int)
    requires Agree(items, written, now) && now <= at
    ensures Answer(items, key, at) == Answer(written, key, at)
  {
    assert key in items ==> key in written;
  }

  lemma AgreeLater<V(!new)>(items: map<string, Entry<V>>, written: map<string, Entry<V>>, now: int, later: int)
    requires Agree(items, written, now) && now <= later
    ensures Agree(items, written, later)
  {
    forall k | k in written && k !in items ensures Expired(written[k], later) {
      assert Expired(written[k], now);
    }
  }

  class TtlCache<V(==, 0, !new)> {
    var items: map<string, Entry<V>>
    const defaultTtl: int
    /** The clock, which only moves forward. */
    var now: int
    /** The writes without the evictions, and every such state so far. */
    ghost var written: map<string, Entry<V>>
    ghost var past: seq<Moment<V>>

    constructor (defaultTtl: int, now: int)
      ensures Valid() && items == map[] && this.now == now
    {
      items, this.defaultTtl, this.now, written := map[], defaultTtl, now, map[];
      past := [Moment(map[], now)];
    }

    ghost predicate Valid()
      reads this
    {
      && Agree(items, written, now)
      && past != [] && past[|past| - 1] == Moment(written, now)
    }

    /** What every section of every goroutine, and time, guarantees the others. */
    twostate predicate Runs()
      reads this
    {
      Valid() && old(now) <= now && old(past) <= past
    }

    /** Set. */
    method Set(key: string, value: V, ttl: int)
      requires Valid()
      modifies this
      ensures Runs() && written == old(written)[key := Entry(value, old(now) + ttl)] && now == old(now)
    {
      items, written := items[key := Entry(value, now + ttl)], written[key := Entry(value, now + ttl)];
      past := past + [Moment(written, now)];
    }

    /** SetDefault. */
    method SetDefault(key: string, value: V)
      requires Valid()
      modifies this
      ensures Runs() && written == old(written)[key := Entry(value, old(now) + defaultTtl)] && now == old(now)
    {
      Set(key, value, defaultTtl);
    }

    /** Delete. */
    method Delete(key: string)
      requires Valid()
      modifies this
      ensures Runs() && written == old(written) - {key} && now == old(now)
    {
      items, written := items - {key}, written - {key};
      past := past + [Moment(written, now)];
    }

    /** Clear. */
    method Clear()
      requires Valid()
      modifies this
      ensures Runs() && written == map[] && now == old(now)
    {
      items, written := map[], map[];
      past := past + [Moment(written, now)];
    }

    method Tick(duration: nat)
      requires Valid()
      modifies this
      ensures Runs() && written == old(written) && now == old(now) + duration
    {
      AgreeLater(items, written, now, now + duration);
      now := now + duration;
      past := past + [Moment(written, now)];
    }

    /** The write section of Get: the entry is looked at again under the lock, and goes only if it
        has expired at that moment. */
    method Evict(key: string)
      requires Valid()
      modifies this`items
      ensures Valid()
      ensures items == if key in old(items) && now > old(items)[key].expiresAt then old(items) - {key} else old(items)
    {
      if key in items && Expired(items[key], now) {
        items := items - {key};
      }
    }

    /** Any number of sections of other goroutines, and time. */
    method Interfere()
      requires Valid()
      modifies this
      ensures Runs()
    {
      var n: int := *;
      for i := 0 to if n > 0 then n else 0
        invariant Runs()
      {
        var key: string, value: V, ttl: int, elapsed: int := *, *, *, *;
        if
        case true => Set(key, value, ttl);
        case true => SetDefault(key, value);
        case true => Delete(key);
        case true => Clear();
        case true => Evict(key);
        case elapsed >= 0 => Tick(elapsed);
      }
    }

    /** Get, with interference before, between and after its sections. The answer is the one a
        never-evicting cache gives for its contents at some moment of the call, judged at some later
        moment of the call: a hit is the last value written as of the read, and it is a hit up to and
        including the moment its lifetime ends. */
    method Get(key: string) returns (r: Option<V>, ghost read: nat, ghost judged: int)
      requires Valid()
      modifies this
      ensures Runs()
      ensures |old(past)| - 1 <= read < |past|
      ensures past[read].now <= judged <= now && r == Answer(past[read].written, key, judged)
      ensures r.Some? <==> key in past[read].written && judged <= past[read].written[key].expiresAt
      ensures r.Some? ==> r.value == past[read].written[key].value
    {
      Interfere();
      read, judged := |past| - 1, now;
      EvictionIsInvisible(items, written, now, key, now);
      if key !in items {
        return None, read, judged;
      }
      var item := items[key];
      Interfere();
      judged := now;
      if Expired(item, now) {
        Interfere();
        Evict(key);
        return None, read, judged;
      }
      return Some(item.value), read, judged;
    }
  }
}
