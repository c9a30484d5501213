/**
 The verdict cache (internal/classifier/cache.go): the most recently used clear windows, at most max of them,
 each for less than ttl.
 */
module VerdictCache {
  import opened Basics

  type Digest = nat

  // ---- Keys: length-prefixed fields cannot run together --------------------------------------

  /** The low n bytes of x, most significant first. */
  function BigEndian(x: nat, n: nat): (s: Bytes)
    ensures |s| == n
  {
    if n == 0 then [] else BigEndian(x / 256, n - 1) + [x % 256]
  }

  function Limit(n: nat): nat {
    if n == 0 then 1 else 256 * Limit(n - 1)
  }

  lemma {:induction false} BigEndianInjective(x: nat, y: nat, n: nat)
    requires x < Limit(n) && y < Limit(n) && BigEndian(x, n) == BigEndian(y, n)
    ensures x == y
  {
    if n > 0 {
      var a, b := BigEndian(x / 256, n - 1), BigEndian(y / 256, n - 1);
      assert BigEndian(x, n)[n - 1] == x % 256 && BigEndian(y, n)[n - 1] == y % 256;
      assert a == BigEndian(x, n)[..n - 1] == BigEndian(y, n)[..n - 1] == b;
      BigEndianInjective(x / 256, y / 256, n - 1);
    }
  }

  /** What the digest of some fields is taken of. */
  function Fields(fs: seq<Bytes>): Bytes {
    if fs == [] then [] else BigEndian(|fs[0]|, 8) + fs[0] + Fields(fs[1..])
  }

  /** Different fields never make the same input, however their contents are chosen. */
  lemma {:induction false} FieldsNeverRunTogether(a: seq<Bytes>, b: seq<Bytes>)
    requires forall i | 0 <= i < |a| :: |a[i]| < Limit(8)
    requires forall i | 0 <= i < |b| :: |b[i]| < Limit(8)
    requires Fields(a) == Fields(b)
    ensures a == b
  {
    if a != [] && b != [] {
      var s := Fields(a);
      assert s[..8] == BigEndian(|a[0]|, 8) && s[..8] == BigEndian(|b[0]|, 8);
      BigEndianInjective(|a[0]|, |b[0]|, 8);
      var n := 8 + |a[0]|;
      assert s[8..n] == a[0] && s[8..n] == b[0];
      assert s[n..] == Fields(a[1..]) && s[n..] == Fields(b[1..]);
      FieldsNeverRunTogether(a[1..], b[1..]);
      assert a == [a[0]] + a[1..] && b == [b[0]] + b[1..];
    }
  }

  // ---- The cache -----------------------------------------------------------------------------

  function Without(s: seq<Digest>, k: Digest): seq<Digest> {
    if s == [] then [] else (if s[0] == k then [] else [s[0]]) + Without(s[1..], k)
  }

  predicate NoRepeats(s: seq<Digest>) {
    forall i, j | 0 <= i < j < |s| :: s[i] != s[j]
  }

  lemma {:induction false} WithoutFacts(s: seq<Digest>, k: Digest)
    requires NoRepeats(s)
    ensures NoRepeats(Without(s, k)) && |Without(s, k)| == |s| - (if k in s then 1 else 0)
    ensures forall x :: x in Without(s, k) <==> x in s && x != k
  {
    if s != [] {
      WithoutFacts(s[1..], k);
      assert s[0] !in s[1..];
      assert forall x :: x in s <==> x == s[0] || x in s[1..];
    }
  }

  /** The list holds exactly the map's keys, once each. */
  ghost predicate InStep(order: seq<Digest>, items: map<Digest, Time>) {
    NoRepeats(order) && forall k :: k in order <==> k in items
  }

  /** Every entry is one that was stored at its time. */
  ghost predicate Dated(items: map<Digest, Time>, stores: set<(Digest, Time)>) {
    forall k | k in items :: (k, items[k]) in stores
  }

  lemma Moved(order: seq<Digest>, items: map<Digest, Time>, k: Digest, now: Time)
    requires InStep(order, items)
    ensures InStep([k] + Without(order, k), items[k := now]) && InStep(Without(order, k), items - {k})
    ensures |Without(order, k)| == |order| - if k in items then 1 else 0
  {
    WithoutFacts(order, k);
  }

  /** Dropping the last entry keeps list and map in step. */
  lemma Evicted(order: seq<Digest>, items: map<Digest, Time>)
    requires InStep(order, items) && order != []
    ensures InStep(order[..|order| - 1], items - {order[|order| - 1]})
  {
    var last := |order| - 1;
    assert order == order[..last] + [order[last]];
    assert order[last] !in order[..last];
  }

  /** Any access to the cache by another request. */
  datatype Touch = Look(k: Digest, at: Time) | Put(k: Digest, at: Time)

  class VerdictCache {
    const max: nat
    const ttl: Time
    /** Front is most recently used. */
    var order: seq<Digest>
    var items: map<Digest, Time>
    /** Everything ever stored, and when. */
    ghost var stores: set<(Digest, Time)>

    ghost predicate Valid()
      reads this
    {
      0 < max && |order| <= max && InStep(order, items) && Dated(items, stores)
    }

    constructor (max: nat, ttl: Time)
      requires 0 < max
      ensures Valid() && items == map[] && stores == {} && this.max == max && this.ttl == ttl
    {
      this.max, this.ttl, order, items, stores := max, ttl, [], map[], {};
    }

    /** A hit is an entry stored less than ttl ago, and becomes the most recent; an expired entry is removed. */
    method Clear(k: Digest, now: Time) returns (hit: bool)
      requires Valid()
      modifies this`order, this`items
      ensures Valid()
      ensures hit == (k in old(items) && now - old(items)[k] < ttl)
      ensures items == if k in old(items) && !hit then old(items) - {k} else old(items)
      ensures order == if hit then [k] + Without(old(order), k) else if k in old(items) then Without(old(order), k) else old(order)
    {
      if k !in items {
        return false;
      }
      Moved(order, items, k, items[k]);
      assert items[k := items[k]] == items;
      hide InStep, Without;
      if now - items[k] >= ttl {
        order := Without(order, k);
        items := items - {k};
        return false;
      }
      order := [k] + Without(order, k);
      return true;
    }

    /** k is the most recent entry; if the cache was full of others, exactly the least recent one is gone. */
    method Store(k: Digest, now: Time)
      requires Valid()
      modifies this
      ensures Valid() && stores == old(stores) + {(k, now)}
      ensures k in items && items[k] == now && order[0] == k
      ensures if k !in old(items) && |old(order)| == max
              then var lru := old(order)[max - 1];
                   order == [k] + old(order)[..max - 1] && items == old(items)[k := now] - {lru}
              else order == [k] + Without(old(order), k) && items == old(items)[k := now]
    {
      stores := stores + {(k, now)};
      Moved(order, items, k, now);
      if k in items {
        hide InStep, Without;
        items := items[k := now];
        order := [k] + Without(order, k);
        return;
      }
      WithoutAbsent(order, k);
      assert order != [] ==> ([k] + order)[..|order|] == [k] + order[..|order| - 1];
      hide InStep, Without;
      items := items[k := now];
      order := [k] + order;
      Trim();
    }

    /** Drops the least recent entry if there is one too many. */
    method Trim()
      requires 0 < max && |order| <= max + 1 && InStep(order, items) && Dated(items, stores)
      modifies this`order, this`items
      ensures |order| <= max && InStep(order, items) && Dated(items, stores)
      ensures if |old(order)| <= max then order == old(order) && items == old(items)
              else order == old(order)[..max] && items == old(items) - {old(order)[max]}
    {
      while |order| > max
        invariant |order| <= max + 1 && InStep(order, items) && Dated(items, stores)
        invariant if |order| > max || |old(order)| <= max then order == old(order) && items == old(items)
                  else order == old(order)[..max] && items == old(items) - {old(order)[max]}
      {
        Evicted(order, items);
        hide InStep;
        var last := order[|order| - 1];
        order := order[..|order| - 1];
        items := items - {last};
      }
    }
  }

  lemma {:induction false} WithoutAbsent(s: seq<Digest>, k: Digest)
    requires k !in s
    ensures Without(s, k) == s
  {
    if s != [] {
      WithoutAbsent(s[1..], k);
    }
  }
}
