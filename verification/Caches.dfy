/** The two in-process caches, against an unbounded history of what was put into them.
    Times are ticks of the clock with 0 for Go's zero time. */
module Caches {
  import opened Domain

  datatype Entry = Entry(value: string, expires: int)

  type Data = map<string, Entry>

  datatype Op = Put(key: string, entry: Entry) | Forget(key: string)

  /** The reference: the last entry put for `key`, unless it was invalidated since. */
  function Latest(h: seq<Op>, key: string): Option<Entry> {
    if h == [] then None
    else
      match h[|h| - 1]
      case Put(k, e) => if k == key then Some(e) else Latest(h[..|h| - 1], key)
      case Forget(k) => if k == key then None else Latest(h[..|h| - 1], key)
  }

  lemma LatestAdd(h: seq<Op>, op: Op)
    ensures forall key | key != op.key :: Latest(h + [op], key) == Latest(h, key)
    ensures Latest(h + [op], op.key) == if op.Put? then Some(op.entry) else None
  {
    assert (h + [op])[..|h + [op]| - 1] == h;
  }

  /** Everything held is the latest put, so a hit never differs from the reference. */
  ghost predicate Agrees(data: Data, h: seq<Op>) {
    forall k | k in data :: Latest(h, k) == Some(data[k])
  }

  function Bound(cap: int): nat { if cap < 1 then 1 else cap }

  function Without(data: Data, gone: Option<string>): Data {
    if gone.Some? then data - {gone.value} else data
  }

  lemma SizeWithout(data: Data, key: string)
    ensures |data - {key}| == |data| - if key in data then 1 else 0
  {
    assert (data - {key}).Keys == data.Keys - {key};
  }

  lemma SizeWith(data: Data, key: string, e: Entry)
    ensures |data[key := e]| <= |data| + 1
  {
    assert data[key := e].Keys == data.Keys + {key};
  }

  lemma AgreesAfterPut(data: Data, gone: Option<string>, h: seq<Op>, key: string, e: Entry)
    requires Agrees(data, h)
    ensures Agrees(Without(data, gone)[key := e], h + [Put(key, e)])
  {
    LatestAdd(h, Put(key, e));
  }

  /** The merchant cache. */
  class MerchantCache {
    const cap: int
    const ttl: int
    var data: Data
    ghost var history: seq<Op>

    ghost predicate Valid()
      reads this
    {
      && |data| <= Bound(cap)
      && Agrees(data, history)
      && forall k | k in data :: data[k].expires != 0
    }

    constructor (cap: int, ttl: int)
      ensures Valid() && this.cap == cap && this.ttl == ttl && data == map[] && history == []
    {
      this.cap, this.ttl, data, history := cap, ttl, map[], [];
    }

    /** A hit is the latest merchant put under the key, within its lifetime. */
    method Get(key: string, now: int) returns (hit: Option<string>)
      requires Valid()
      modifies this`data
      ensures Valid()
      ensures hit.Some? ==> Latest(history, key).Some? && Latest(history, key).value.value == hit.value
      ensures hit.Some? ==> now <= Latest(history, key).value.expires
      ensures hit.Some? <==> key in old(data) && now <= old(data)[key].expires
      ensures data == if hit.Some? then old(data) else old(data) - {key}
    {
      if key !in data || now > data[key].expires {
        SizeWithout(data, key);
        data := data - {key};
        return None;
      }
      return Some(data[key].value);
    }

    /** A full cache gives up an entry with the earliest expiry. */
    method Put(key: string, value: string, now: int) returns (evicted: Option<string>)
      requires Valid() && now + ttl != 0
      modifies this`data, this`history
      ensures Valid()
      ensures evicted.Some? <==> |old(data)| >= cap && old(data) != map[]
      ensures evicted.Some? ==> IsOldest(old(data), evicted.value)
      ensures data == Without(old(data), evicted)[key := Entry(value, now + ttl)]
      ensures history == old(history) + [Op.Put(key, Entry(value, now + ttl))]
    {
      evicted := None;
      if |data| >= cap {
        evicted := FindOldest();
      }
      AgreesAfterPut(data, evicted, history, key, Entry(value, now + ttl));
      if evicted.Some? {
        SizeWithout(data, evicted.value);
        data := data - {evicted.value};
      }
      SizeWith(data, key, Entry(value, now + ttl));
      data := data[key := Entry(value, now + ttl)];
      history := history + [Op.Put(key, Entry(value, now + ttl))];
    }

    /** The eviction scan, over the entries in any order, with the zero time for "none yet". */
    method FindOldest() returns (evict: Option<string>)
      requires Valid()
      ensures evict.Some? <==> data != map[]
      ensures evict.Some? ==> IsOldest(data, evict.value)
    {
      evict := None;
      var oldest := 0;
      var rest := data.Keys;
      while rest != {}
        invariant rest <= data.Keys
        invariant evict.None? <==> rest == data.Keys
        invariant evict.None? ==> oldest == 0
        invariant evict.Some? ==> evict.value in data && oldest == data[evict.value].expires
        invariant evict.Some? ==> forall k | k in data && k !in rest :: oldest <= data[k].expires
        decreases |rest|
      {
        var k :| k in rest;
        if oldest == 0 || data[k].expires < oldest {
          oldest, evict := data[k].expires, Some(k);
        }
        rest := rest - {k};
      }
      assert data.Keys == {} <==> data == map[];
    }
  }

  ghost predicate IsOldest(data: Data, key: string) {
    key in data && forall k | k in data :: data[key].expires <= data[k].expires
  }

  /** The checkout URL cache. */
  class UrlCache {
    const maxSize: int
    const ttl: int
    var data: Data
    ghost var history: seq<Op>

    ghost predicate Valid()
      reads this
    {
      |data| <= Bound(maxSize) && Agrees(data, history)
    }

    constructor (maxSize: int, ttl: int)
      ensures Valid() && this.maxSize == maxSize && this.ttl == ttl && data == map[] && history == []
    {
      this.maxSize, this.ttl, data, history := maxSize, ttl, map[], [];
    }

    /** A hit is the latest URL put for the order, not invalidated, within its lifetime. */
    method Get(order: string, now: int) returns (hit: Option<string>)
      requires Valid()
      ensures hit.Some? ==> Latest(history, order).Some? && Latest(history, order).value.value == hit.value
      ensures hit.Some? ==> now <= Latest(history, order).value.expires
      ensures hit.Some? <==> order in data && now <= data[order].expires
    {
      if order !in data || now > data[order].expires {
        return None;
      }
      return Some(data[order].value);
    }

    /** Drop one expired entry of a full cache, if there is one, and otherwise any one. */
    method Put(order: string, url: string, now: int, later: int) returns (evicted: Option<string>)
      requires Valid()
      modifies this`data, this`history
      ensures Valid()
      ensures evicted.Some? <==> |old(data)| >= maxSize && old(data) != map[]
      ensures evicted.Some? ==> evicted.value in old(data)
      ensures evicted.Some? && (exists k :: k in old(data) && now > old(data)[k].expires) ==>
        now > old(data)[evicted.value].expires
      ensures data == Without(old(data), evicted)[order := Entry(url, later + ttl)]
      ensures history == old(history) + [Op.Put(order, Entry(url, later + ttl))]
    {
      evicted := None;
      if |data| >= maxSize {
        evicted := MakeRoom(now);
      }
      AgreesAfterPut(old(data), evicted, history, order, Entry(url, later + ttl));
      SizeWith(data, order, Entry(url, later + ttl));
      data := data[order := Entry(url, later + ttl)];
      history := history + [Op.Put(order, Entry(url, later + ttl))];
    }

    method MakeRoom(now: int) returns (evicted: Option<string>)
      requires |data| <= Bound(maxSize) && |data| >= maxSize
      modifies this`data
      ensures |data| < Bound(maxSize) && data == Without(old(data), evicted)
      ensures evicted.Some? <==> old(data) != map[]
      ensures evicted.Some? ==> evicted.value in old(data)
      ensures evicted.Some? && (exists k :: k in old(data) && now > old(data)[k].expires) ==>
        now > old(data)[evicted.value].expires
    {
      evicted := FindExpired(now);
      if evicted.Some? {
        SizeWithout(data, evicted.value);
        data := data - {evicted.value};
      }
      if |data| >= maxSize && data != map[] {
        var k :| k in data;
        SizeWithout(data, k);
        evicted, data := Some(k), data - {k};
      }
    }

    /** The scan for an expired entry, in any order, stopping at the first. */
    method FindExpired(now: int) returns (found: Option<string>)
      ensures found.Some? ==> found.value in data && now > data[found.value].expires
      ensures found.None? ==> forall k | k in data :: now <= data[k].expires
    {
      found := None;
      var rest := data.Keys;
      while rest != {}
        invariant rest <= data.Keys
        invariant forall k | k in data && k !in rest :: now <= data[k].expires
        decreases |rest|
      {
        var k :| k in rest;
        if now > data[k].expires {
          return Some(k);
        }
        rest := rest - {k};
      }
    }

    method Invalidate(order: string)
      requires Valid()
      modifies this`data, this`history
      ensures Valid()
      ensures data == old(data) - {order} && history == old(history) + [Forget(order)]
    {
      SizeWithout(data, order);
      LatestAdd(history, Forget(order));
      data := data - {order};
      history := history + [Forget(order)];
    }
  }
}
