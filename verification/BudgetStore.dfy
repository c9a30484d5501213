/**
 The in-memory spend store (internal/budget/budget.go): counters keyed by string, each living
 until its window ends, swept now and then, refused only when the store is full of live counters.
 The end of the window that contains an instant is an abstract function of both.
 */
module BudgetStore {
  import opened Basics
  import opened Int64s

  datatype Window = Rolling(dur: Time) | CalDay(loc: string) | CalMonth(loc: string)
  type WindowEnd = (Time, Window) -> Time

  datatype Decision = Allow | Block | BlockCapacity
  datatype Bucket = Bucket(spent: money, windowEnd: Time)
  type Buckets = map<string, Bucket>

  const SWEEP_EVERY := 256

  /** The counters whose window has not ended at t: all that any answer depends on. */
  function View(m: Buckets, t: Time): Buckets {
    map k | k in m && t < m[k].windowEnd :: m[k]
  }

  /** The counter that an access to key at t works on. */
  function Current(m: Buckets, key: string, w: Window, t: Time, we: WindowEnd): Bucket {
    if key in m && t < m[key].windowEnd then m[key] else Bucket(0, we(t, w))
  }

  function SaturatingAdd(a: money, b: money): (r: money)
    ensures r == Min(MAX_INT64, a + b)
  {
    if b > MAX_INT64 - a then MAX_INT64 else a + b
  }

  /** With an estimate, the spend may reach the limit exactly and not pass it. */
  function Decide(spent: money, estimate: int64, limit: int64): (d: Decision)
    ensures 0 <= estimate ==> d == if spent + estimate <= limit then Allow else Block
  {
    if spent > limit || estimate > limit - spent then Block else Allow
  }

  class Memory {
    const windowEnd: WindowEnd
    const maxEntries: nat
    var m: Buckets
    var sweepTick: nat
    var rejected: nat

    ghost predicate Valid()
      reads this
    {
      |m| <= maxEntries && sweepTick < SWEEP_EVERY
    }

    /** Would an access to key at t be served? */
    ghost predicate Admits(key: string, t: Time)
      reads this
    {
      key in m || |View(m, t)| < maxEntries
    }

    constructor (windowEnd: WindowEnd, maxEntries: nat)
      ensures Valid() && m == map[] && rejected == 0
      ensures this.windowEnd == windowEnd && this.maxEntries == maxEntries
    {
      this.windowEnd, this.maxEntries := windowEnd, maxEntries;
      m, sweepTick, rejected := map[], 0, 0;
    }

    method SweepExpired(t: Time)
      modifies this`m
      ensures m == View(old(m), t)
    {
      ghost var before := m;
      var todo := m.Keys;
      while todo != {}
        invariant todo <= m.Keys <= before.Keys
        invariant forall k | k in before :: k in m <==> k in todo || t < before[k].windowEnd
        invariant forall k | k in m :: m[k] == before[k]
      {
        var k :| k in todo;
        if !(t < m[k].windowEnd) {
          m := m - {k};
        }
        todo := todo - {k};
      }
    }

    /**
     Makes key's counter current, or refuses. A key that is present when the call is made is never refused,
     even when the call's own sweep deletes it; a refusal means the store is full of live counters, and no
     live counter is ever dropped or changed.
     */
    method Cur(key: string, w: Window, t: Time) returns (ok: bool)
      requires Valid()
      modifies this
      ensures Valid()
      ensures ok <==> old(Admits(key, t))
      ensures ok ==> key in m && m[key] == Current(old(m), key, w, t, windowEnd)
      ensures View(m, t) == if ok then View(old(m)[key := m[key]], t) else View(old(m), t)
      ensures m.Keys <= old(m).Keys + {key} && (!ok ==> key !in m)
      ensures rejected == old(rejected) + if ok then 0 else 1
    {
      ghost var before := m;
      sweepTick := sweepTick + 1;
      if sweepTick >= SWEEP_EVERY {
        sweepTick := 0;
        SweepExpired(t);
        Shrinks(before, t);
      }
      if key in m && t < m[key].windowEnd {
        return true;
      }
      if key !in m && |m| >= maxEntries {
        SweepExpired(t);
        assert View(View(before, t), t) == View(before, t);
        if |m| >= maxEntries {
          Shrinks(before, t);
          rejected := rejected + 1;
          return false;
        }
      }
      Shrinks(before, t);
      GrowsByOne(m, key, Bucket(0, windowEnd(t, w)));
      m := m[key := Bucket(0, windowEnd(t, w))];
      return true;
    }

    method Check(key: string, estimate: int64, limit: int64, w: Window, t: Time) returns (d: Decision)
      requires Valid()
      modifies this
      ensures Valid()
      ensures var touched := 0 <= estimate && 0 < limit;
              && d == (if estimate < 0 then Block
                       else if limit <= 0 then Allow
                       else if !old(Admits(key, t)) then BlockCapacity
                       else Decide(Current(old(m), key, w, t, windowEnd).spent, estimate, limit))
              && View(m, t) == (if touched && old(Admits(key, t))
                                then View(old(m)[key := Current(old(m), key, w, t, windowEnd)], t)
                                else View(old(m), t))
      ensures m.Keys <= old(m).Keys + {key} && (0 <= estimate && 0 < limit && !old(Admits(key, t)) ==> key !in m)
      ensures rejected == old(rejected) + if 0 <= estimate && 0 < limit && !old(Admits(key, t)) then 1 else 0
    {
      if estimate < 0 {
        return Block;
      }
      if limit <= 0 {
        return Allow;
      }
      var ok := Cur(key, w, t);
      if !ok {
        return BlockCapacity;
      }
      if m[key].spent > limit || estimate > limit - m[key].spent {
        return Block;
      }
      return Allow;
    }

    method Debit(key: string, actual: int64, w: Window, t: Time)
      requires Valid()
      modifies this
      ensures Valid()
      ensures View(m, t) == if 0 <= actual && old(Admits(key, t))
                            then var b := Current(old(m), key, w, t, windowEnd);
                                 View(old(m)[key := b.(spent := SaturatingAdd(b.spent, actual))], t)
                            else View(old(m), t)
      ensures m.Keys <= old(m).Keys + {key} && (0 <= actual && !old(Admits(key, t)) ==> key !in m)
      ensures rejected == old(rejected) + if 0 <= actual && !old(Admits(key, t)) then 1 else 0
    {
      if actual < 0 {
        return;
      }
      ghost var before := m;
      var ok := Cur(key, w, t);
      if ok {
        ghost var served := m;
        var b := m[key];
        if actual > MAX_INT64 - b.spent {
          b := b.(spent := MAX_INT64);
        } else {
          b := b.(spent := b.spent + actual);
        }
        m := m[key := b];
        assert |m| == |served| by {
          assert m.Keys == served.Keys;
        }
        ViewUpdate(served, before[key := served[key]], key, b, t);
        assert before[key := served[key]][key := b] == before[key := b];
      }
    }

    method Spent(key: string, w: Window, t: Time) returns (spent: money)
      requires Valid()
      modifies this
      ensures Valid()
      ensures spent == if old(Admits(key, t)) then Current(old(m), key, w, t, windowEnd).spent else 0
      ensures View(m, t) == if old(Admits(key, t)) then View(old(m)[key := Current(old(m), key, w, t, windowEnd)], t) else View(old(m), t)
      ensures m.Keys <= old(m).Keys + {key} && (!old(Admits(key, t)) ==> key !in m)
      ensures rejected == old(rejected) + if !old(Admits(key, t)) then 1 else 0
    {
      var ok := Cur(key, w, t);
      if !ok {
        return 0;
      }
      return m[key].spent;
    }

    method ResetsAt(key: string, w: Window, t: Time) returns (ends: Time)
      requires Valid()
      modifies this
      ensures Valid()
      ensures ends == Current(old(m), key, w, t, windowEnd).windowEnd
      ensures View(m, t) == if old(Admits(key, t)) then View(old(m)[key := Current(old(m), key, w, t, windowEnd)], t) else View(old(m), t)
      ensures m.Keys <= old(m).Keys + {key} && (!old(Admits(key, t)) ==> key !in m)
      ensures rejected == old(rejected) + if !old(Admits(key, t)) then 1 else 0
    {
      var ok := Cur(key, w, t);
      if !ok {
        return windowEnd(t, w);
      }
      return m[key].windowEnd;
    }
  }

  lemma Shrinks(m: Buckets, t: Time)
    ensures |View(m, t)| <= |m|
    ensures (exists k :: k in m && k !in View(m, t)) ==> |View(m, t)| < |m|
  {
    assert |View(m, t)| == |View(m, t).Keys| && |m| == |m.Keys|;
    Subset(View(m, t).Keys, m.Keys);
  }

  lemma Subset<T>(a: set<T>, b: set<T>)
    requires a <= b
    ensures |a| <= |b|
    ensures a != b ==> |a| < |b|
  {
    assert b == a + (b - a);
  }

  lemma GrowsByOne(m: Buckets, key: string, b: Bucket)
    ensures |m[key := b]| == |m| + if key in m then 0 else 1
  {
    assert m[key := b].Keys == m.Keys + {key};
  }

  lemma ViewOfUpdate(m: Buckets, key: string, x: Bucket, t: Time)
    ensures View(m[key := x], t) == if t < x.windowEnd then View(m, t)[key := x] else View(m, t) - {key}
  {
  }

  lemma ViewUpdate(a: Buckets, b: Buckets, key: string, x: Bucket, t: Time)
    requires View(a, t) == View(b, t)
    ensures View(a[key := x], t) == View(b[key := x], t)
  {
    ViewOfUpdate(a, key, x, t);
    ViewOfUpdate(b, key, x, t);
  }
}
