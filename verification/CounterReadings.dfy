/**
 What the store says about the team, key and user counters of a policy set, and what does and does not change
 it: looking a counter up and the passage of time do not, debits do.
 */
module CounterReadings {
  import opened Basics
  import opened Int64s
  import opened BudgetStore
  import opened BudgetHistory
  import opened LocalMoney
  import opened LocalMoneyRuns
  import opened BudgetKeys

  // ---- Lookups ---------------------------------------------------------------------

  lemma CurrentFromView(a: Buckets, b: Buckets, key: string, w: Window, t: Time, we: WindowEnd)
    requires (key in View(a, t) <==> key in View(b, t)) && (key in View(a, t) ==> View(a, t)[key] == View(b, t)[key])
    ensures Current(a, key, w, t, we) == Current(b, key, w, t, we)
  {
  }

  /** Everything the store says at t about key in window w, and about every other key, is the same. */
  ghost predicate SaysTheSame(a: Buckets, b: Buckets, key: string, w: Window, t: Time, we: WindowEnd) {
    && Current(a, key, w, t, we) == Current(b, key, w, t, we)
    && forall k, v | k != key :: Current(a, k, v, t, we) == Current(b, k, v, t, we)
  }

  /** Looking a counter up changes nothing the store says. */
  lemma LookupKeeps(before: Buckets, after: Buckets, key: string, w: Window, t: Time, we: WindowEnd)
    requires View(after, t) == View(before, t) || View(after, t) == View(before[key := Current(before, key, w, t, we)], t)
    ensures SaysTheSame(before, after, key, w, t, we)
  {
    var b := Current(before, key, w, t, we);
    forall k, v | k != key
      ensures Current(before, k, v, t, we) == Current(after, k, v, t, we)
    {
      assert k in View(before[key := b], t) <==> k in View(before, t);
      CurrentFromView(after, before, k, v, t, we);
    }
    assert key in View(before[key := b], t) <==> t < b.windowEnd;
    assert key in View(before, t) ==> View(before, t)[key] == b;
    assert key in View(after, t) ==> View(after, t)[key] == b;
    assert key in after && t < after[key].windowEnd <==> key in View(after, t);
  }

  // ---- Readings --------------------------------------------------------------------

  function Reading(g: Policies, c: Counter, m: Buckets, t: Time, we: WindowEnd): Bucket {
    Current(m, CounterKey(g, c), WindowOf(g, c), t, we)
  }

  /** About every counter of the policy set, the store says what it said in m. */
  ghost predicate SameCounters(g: Policies, m: Buckets, now: Buckets, t: Time, we: WindowEnd) {
    forall c: Counter | Known(c) :: Reading(g, c, now, t, we) == Reading(g, c, m, t, we)
  }

  lemma SameAfterSame(g: Policies, m: Buckets, now: Buckets, after: Buckets, c: Counter, t: Time, we: WindowEnd)
    requires Known(c) && SameCounters(g, m, now, t, we) && SaysTheSame(now, after, CounterKey(g, c), WindowOf(g, c), t, we)
    ensures SameCounters(g, m, after, t, we)
  {
    hide CounterKey, WindowOf, Current;
    forall d: Counter | Known(d)
      ensures Reading(g, d, after, t, we) == Reading(g, d, m, t, we)
    {
      if CounterKey(g, d) == CounterKey(g, c) {
        CounterKeysDiffer(g, d, c);
      }
    }
  }

  lemma SameAfterLookup(g: Policies, m: Buckets, now: Buckets, after: Buckets, c: Counter, t: Time, we: WindowEnd)
    requires Known(c) && SameCounters(g, m, now, t, we)
    requires View(after, t) == View(now, t) || View(after, t) == View(now[CounterKey(g, c) := Reading(g, c, now, t, we)], t)
    ensures SameCounters(g, m, after, t, we)
  {
    LookupKeeps(now, after, CounterKey(g, c), WindowOf(g, c), t, we);
    hide View, SaysTheSame, SameCounters;
    SameAfterSame(g, m, now, after, c, t, we);
  }

  lemma SameFromView(g: Policies, a: Buckets, b: Buckets, t: Time, we: WindowEnd)
    requires View(a, t) == View(b, t)
    ensures SameCounters(g, a, b, t, we)
  {
    forall c: Counter | Known(c)
      ensures Reading(g, c, b, t, we) == Reading(g, c, a, t, we)
    {
      CurrentFromView(b, a, CounterKey(g, c), WindowOf(g, c), t, we);
    }
  }

  lemma SameTwice(g: Policies, a: Buckets, b: Buckets, c: Buckets, t: Time, we: WindowEnd)
    requires SameCounters(g, a, b, t, we) && SameCounters(g, b, c, t, we)
    ensures SameCounters(g, a, c, t, we)
  {
  }

  // ---- Time ------------------------------------------------------------------------

  lemma CurrentLater(a: Buckets, b: Buckets, key: string, w: Window, t: Time, u: Time, we: WindowEnd)
    requires Calendar(we, w) && t <= u && Current(a, key, w, t, we) == Current(b, key, w, t, we)
    ensures Current(a, key, w, u, we) == Current(b, key, w, u, we)
  {
  }

  /** What two stores agree on now they agree on later. */
  lemma SameLater(g: Policies, a: Buckets, b: Buckets, t: Time, u: Time, we: WindowEnd)
    requires Calendar(we, g.Month()) && Calendar(we, g.Day()) && t <= u && SameCounters(g, a, b, t, we)
    ensures SameCounters(g, a, b, u, we)
  {
    hide CounterKey, Current, Calendar;
    forall c: Counter | Known(c)
      ensures Reading(g, c, b, u, we) == Reading(g, c, a, u, we)
    {
      assert Reading(g, c, b, t, we) == Reading(g, c, a, t, we);
      CurrentLater(a, b, CounterKey(g, c), WindowOf(g, c), t, u, we);
    }
  }

  // ---- Debits ----------------------------------------------------------------------

  lemma ReadingAfterDebit(g: Policies, c: Counter, d: Counter, m: Buckets, amount: int64, t: Time, we: WindowEnd)
    requires Known(c) && Known(d) && t < we(t, WindowOf(g, c))
    ensures var b, after := Reading(g, d, m, t, we), RefNext(m, Call(t, CounterKey(g, c), WindowOf(g, c), DebitOp(amount)), we);
            Reading(g, d, after, t, we) == if c == d && 0 <= amount then b.(spent := SaturatingAdd(b.spent, amount)) else b
  {
    if CounterKey(g, c) == CounterKey(g, d) {
      CounterKeysDiffer(g, c, d);
    }
    hide CounterKey, WindowOf;
  }

  /** After a debit of distinct counters each of them has grown by the amount, and no other one. */
  lemma {:induction false} ReadingAfterDebits(g: Policies, c: Counter, m: Buckets, scopes: seq<Scope>, cs: seq<Counter>, amount: money, n: nat, t: Time, we: WindowEnd)
    requires Known(c) && t < we(t, g.Month()) && t < we(t, g.Day()) && Distinct(cs)
    requires Correspond(g, scopes, cs) && (forall i | 0 <= i < |cs| :: Known(cs[i])) && n <= |scopes|
    ensures var b := Reading(g, c, m, t, we);
            Reading(g, c, DebitAll(m, scopes, amount, n, t, we), t, we) ==
              b.(spent := if c in cs[..n] then Min(MAX_INT64, b.spent + amount) else b.spent)
  {
    if n > 0 {
      ReadingAfterDebits(g, c, m, scopes, cs, amount, n - 1, t, we);
      ReadingAfterDebit(g, cs[n - 1], c, DebitAll(m, scopes, amount, n - 1, t, we), amount, t, we);
      assert cs[..n] == cs[..n - 1] + [cs[n - 1]];
      assert cs[n - 1] !in cs[..n - 1];
      hide CounterKey, Current, RefNext, Reading;
    }
  }

  /** Debits of the same counters keep two stores agreed. */
  lemma {:induction false} SameAfterDebits(g: Policies, a: Buckets, b: Buckets, scopes: seq<Scope>, cs: seq<Counter>, amount: int64, n: nat, t: Time, we: WindowEnd)
    requires Calendar(we, g.Month()) && Calendar(we, g.Day()) && SameCounters(g, a, b, t, we)
    requires Correspond(g, scopes, cs) && (forall i | 0 <= i < |cs| :: Known(cs[i])) && n <= |scopes|
    ensures SameCounters(g, DebitAll(a, scopes, amount, n, t, we), DebitAll(b, scopes, amount, n, t, we), t, we)
  {
    if n > 0 {
      SameAfterDebits(g, a, b, scopes, cs, amount, n - 1, t, we);
      var x, y := DebitAll(a, scopes, amount, n - 1, t, we), DebitAll(b, scopes, amount, n - 1, t, we);
      hide CounterKey, Current, RefNext, Reading;
      forall d: Counter | Known(d)
        ensures Reading(g, d, DebitAll(b, scopes, amount, n, t, we), t, we) == Reading(g, d, DebitAll(a, scopes, amount, n, t, we), t, we)
      {
        ReadingAfterDebit(g, cs[n - 1], d, x, amount, t, we);
        ReadingAfterDebit(g, cs[n - 1], d, y, amount, t, we);
      }
    }
  }
}
