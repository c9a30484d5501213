/**
 The gateway's governor (internal/governance/governance.go, internal/governance/local_money.go): it
 reserves local money before an attempt, finishes it afterwards, and settles costs. One call runs under one
 clock reading, as under the money mutex.
 */
module Governors {
  import opened Basics
  import opened Int64s
  import opened BudgetStore
  import opened BudgetHistory
  import opened LocalMoney
  import opened LocalMoneyRuns
  import opened BudgetKeys
  import opened CounterReadings
  import opened Admissions

  /** The holder of one provider attempt's liabilities. */
  class LocalBudgetPermit {
    const holds: seq<Hold>
    const scopes: seq<Scope>
    var once: bool
    /** Which of the governor's permits this is. */
    ghost const id: nat

    constructor (holds: seq<Hold>, scopes: seq<Scope>, ghost id: nat)
      ensures !once && this.holds == holds && this.scopes == scopes && this.id == id
    {
      this.holds, this.scopes, this.id, once := holds, scopes, id, false;
    }
  }

  datatype Outcome = Free | Denied | Held(permit: LocalBudgetPermit)

  /** Every scope was debited once and nothing else changed, unless the store was full. */
  ghost predicate Landed(before: Buckets, after: Buckets, scopes: seq<Scope>, amount: int64, refusals: nat, t: Time, we: WindowEnd) {
    refusals == 0 ==> View(after, t) == View(DebitAll(before, scopes, amount, |scopes|, t, we), t)
  }

  /** What provider usage came to: its tokens, unless malformed, and its price, unless unknown. */
  datatype Usage = Usage(tokens: Option<money>, uncertain: bool, price: Option<money>)

  /** What is debited for usable usage: its price, or nothing while the price is unknown. */
  function PriceOf(u: Usage): money {
    if u.price.Some? then u.price.value else 0
  }

  /**
   What a settlement finishes the rate reservations with: never less than the tokens of usable usage, and never a
   refund of the estimate when the usage is uncertain.
   */
  function RateOutcome(u: Usage, estimate: int64, shared: bool): (r: Option<int64>)
    ensures r.Some? <==> !shared && u.tokens.Some?
    ensures r.Some? ==> u.tokens.value <= r.value && (u.uncertain ==> estimate <= r.value)
    ensures r.Some? ==> r.value == u.tokens.value || (u.uncertain && r.value == estimate)
  {
    if shared || u.tokens.None? then None
    else if u.uncertain then Some(Max(u.tokens.value, estimate))
    else u.tokens
  }

  /** Every counter of the request's team, key and user grew by the amount, as far as int64 goes, and no other one. */
  ghost predicate Charges(g: Policies, before: Buckets, after: Buckets, s: Subject, kp: KeyPolicy, amount: money, t: Time, we: WindowEnd) {
    t < we(t, g.Month()) && t < we(t, g.Day()) ==>
      forall c: Counter | Known(c) ::
        var b := Reading(g, c, before, t, we);
        Reading(g, c, after, t, we) == b.(spent := if Charged(g, s, kp, c) then Min(MAX_INT64, b.spent + amount) else b.spent)
  }

  lemma LandedCharges(g: Policies, before: Buckets, after: Buckets, s: Subject, kp: KeyPolicy, amount: money, t: Time, we: WindowEnd)
    requires Landed(before, after, g.Scopes(s, kp), amount, 0, t, we)
    ensures Charges(g, before, after, s, kp, amount, t, we)
  {
    var scopes, cs := g.Scopes(s, kp), Counters(g, s, kp);
    ScopesAreCounters(g, s, kp);
    CountersAreDistinct(g, s, kp);
    var debited := DebitAll(before, scopes, amount, |scopes|, t, we);
    hide Policies.Scopes, Counters, DebitAll, View, Charged, Current, CounterKey, WindowOf;
    if t < we(t, g.Month()) && t < we(t, g.Day()) {
      forall c: Counter | Known(c)
        ensures var b := Reading(g, c, before, t, we);
                Reading(g, c, after, t, we) == b.(spent := if Charged(g, s, kp, c) then Min(MAX_INT64, b.spent + amount) else b.spent)
      {
        CountersAreCharged(g, s, kp, c);
        ReadingAfterDebits(g, c, before, scopes, cs, amount, |scopes|, t, we);
        SameFromView(g, debited, after, t, we);
        assert Reading(g, c, after, t, we) == Reading(g, c, debited, t, we);
        assert cs[..|scopes|] == cs;
      }
    }
  }

  /** What an answer about an unreached scope would have been; it decides nothing. */
  ghost function Unasked(m: Buckets, scopes: seq<Scope>, t: Time, we: WindowEnd): (answers: seq<StoreAnswer>)
    ensures HeardAll(m, scopes, answers, t, we)
  {
    seq(|scopes|, i requires 0 <= i < |scopes| =>
      StoreAnswer(Current(m, scopes[i].key, scopes[i].w, t, we).windowEnd, 0, Block))
  }

  /** The scopes are those of known counters. */
  ghost predicate AreCounters(g: Policies, scopes: seq<Scope>, cs: seq<Counter>) {
    Correspond(g, scopes, cs) && forall i | 0 <= i < |cs| :: Known(cs[i])
  }

  lemma ScopesAreCounters(g: Policies, s: Subject, kp: KeyPolicy)
    ensures AreCounters(g, g.Scopes(s, kp), Counters(g, s, kp))
  {
    CountersOfScopes(g, s, kp);
    var cs := Counters(g, s, kp);
    hide Counters, Policies.Scopes;
    forall i | 0 <= i < |cs|
      ensures Known(cs[i])
    {
      CountersAreCharged(g, s, kp, cs[i]);
    }
  }

  /** What is heard about a counter is what was to be heard before the lookups made since m. */
  lemma HeardNext(g: Policies, m: Buckets, now: Buckets, scopes: seq<Scope>, cs: seq<Counter>, answers: seq<StoreAnswer>, a: StoreAnswer,
                  i: nat, t: Time, we: WindowEnd)
    requires i < |scopes| && AreCounters(g, scopes, cs) && HeardAll(m, scopes, answers, t, we)
    requires SameCounters(g, m, now, t, we) && Heard(now, scopes[i], a, t, we)
    ensures HeardAll(m, scopes, answers[i := a], t, we)
  {
    assert Reading(g, cs[i], now, t, we) == Reading(g, cs[i], m, t, we);
    hide Current;
  }

  /** Answers about scopes that were not reached yet do not matter to the check so far. */
  lemma {:induction false} ProbeIgnoresLater(l: Ledger, scopes: seq<Scope>, bound: money, bounded: bool, a: seq<StoreAnswer>, b: seq<StoreAnswer>, n: nat)
    requires n <= |scopes| == |a| == |b| && a[..n] == b[..n]
    ensures ProbeScopes(l, scopes, bound, bounded, a, n) == ProbeScopes(l, scopes, bound, bounded, b, n)
  {
    if n > 0 {
      assert a[..n - 1] == a[..n][..n - 1] && b[..n - 1] == b[..n][..n - 1];
      assert a[n - 1] == a[..n][n - 1] && b[n - 1] == b[..n][n - 1];
      ProbeIgnoresLater(l, scopes, bound, bounded, a, b, n - 1);
    }
  }

  /** A refused check stays as it is. */
  lemma {:induction false} ProbeStops(l: Ledger, scopes: seq<Scope>, bound: money, bounded: bool, a: seq<StoreAnswer>, n: nat, m: nat)
    requires n <= m <= |scopes| == |a| && !ProbeScopes(l, scopes, bound, bounded, a, n).ok
    ensures ProbeScopes(l, scopes, bound, bounded, a, m) == ProbeScopes(l, scopes, bound, bounded, a, n)
    decreases m
  {
    if n < m {
      ProbeStops(l, scopes, bound, bounded, a, n, m - 1);
    }
  }

  lemma ProbeAsked(l: Ledger, scopes: seq<Scope>, bound: money, bounded: bool, answers: seq<StoreAnswer>, a: StoreAnswer, i: nat)
    requires i < |scopes| == |answers|
    ensures ProbeScopes(l, scopes, bound, bounded, answers[i := a], i + 1)
         == ProbeOne(ProbeScopes(l, scopes, bound, bounded, answers, i), scopes[i], a, bound, bounded)
  {
    ProbeIgnoresLater(l, scopes, bound, bounded, answers, answers[i := a], i);
  }

  lemma ProbeSkips(p: Probe, s: Scope, a: StoreAnswer, bound: money, bounded: bool)
    requires !s.hard
    ensures ProbeOne(p, s, a, bound, bounded) == p
  {
  }

  /** The scope's counter is not frozen, and what it has spent and what is held on it stay below the limit. */
  ghost predicate RoomFor(l: Ledger, m: Buckets, s: Scope, t: Time, we: WindowEnd) {
    var c := Current(m, s.key, s.w, t, we);
    var st := StateFor(l, s.key, c.windowEnd);
    !st.frozen && c.spent + st.held < s.limit
  }

  /** Every hard scope has room. */
  ghost predicate RoomForAll(l: Ledger, m: Buckets, scopes: seq<Scope>, t: Time, we: WindowEnd) {
    forall i | 0 <= i < |scopes| && scopes[i].hard :: RoomFor(l, m, scopes[i], t, we)
  }

  /** There is place for n more counters in the table of state objects, maybe after dropping those that nothing needs. */
  ghost predicate HasPlace(l: Ledger, n: nat, t: Time) {
    || |l.cur| + n <= 100_000
    || |set k | k in l.cur && l.cur[k] in l.heap && t < l.heap[l.cur[k]].ends && (l.heap[l.cur[k]].held != 0 || l.heap[l.cur[k]].frozen)| + n <= 100_000
  }

  lemma PlaceAfterCleaning(l: Ledger, n: nat, t: Time)
    ensures HasPlace(l, n, t) <==> |l.cur| + n <= MAX_STATES || |Cleaned(l, t).cur| + n <= MAX_STATES
  {
    var kept := set k | k in l.cur && l.cur[k] in l.heap && t < l.heap[l.cur[k]].ends && (l.heap[l.cur[k]].held != 0 || l.heap[l.cur[k]].frozen);
    assert Cleaned(l, t).cur.Keys == kept;
    assert |Cleaned(l, t).cur| == |Cleaned(l, t).cur.Keys|;
  }

  /** The cleanup decides nothing: it drops only objects that hold nothing or whose window is over. */
  lemma RoomAfterCleaning(l: Ledger, m: Buckets, scopes: seq<Scope>, t: Time, we: WindowEnd)
    requires WellFormed(l) && forall i | 0 <= i < |scopes| :: t < we(t, scopes[i].w)
    ensures RoomForAll(Cleaned(l, t), m, scopes, t, we) == RoomForAll(l, m, scopes, t, we)
  {
    forall i | 0 <= i < |scopes|
      ensures RoomFor(Cleaned(l, t), m, scopes[i], t, we) == RoomFor(l, m, scopes[i], t, we)
    {
    }
  }

  /** When a permit is granted. */
  ghost predicate Grantable(l: Ledger, m: Buckets, scopes: seq<Scope>, bound: int64, t: Time, we: WindowEnd) {
    scopes != [] && 0 <= bound && HasPlace(l, |scopes|, t) && RoomForAll(l, m, scopes, t, we)
  }

  lemma GrantableFrom(l: Ledger, m: Buckets, g: Policies, s: Subject, kp: KeyPolicy, bound: int64, t: Time, we: WindowEnd)
    requires WellFormed(l)
    ensures var scopes := g.Scopes(s, kp);
            var start := if |l.cur| + |scopes| > MAX_STATES then Cleaned(l, t) else l;
            t < we(t, g.Month()) && t < we(t, g.Day()) ==>
              (Grantable(l, m, scopes, bound, t, we) <==>
                 scopes != [] && 0 <= bound && |start.cur| + |scopes| <= MAX_STATES && RoomForAll(start, m, scopes, t, we))
  {
    var scopes := g.Scopes(s, kp);
    WindowsAreCalendar(g, s, kp);
    PlaceAfterCleaning(l, |scopes|, t);
    if t < we(t, g.Month()) && t < we(t, g.Day()) {
      RoomAfterCleaning(l, m, scopes, t, we);
    }
    hide HasPlace, RoomForAll, Cleaned, Policies.Scopes;
  }

  lemma WindowsAreCalendar(g: Policies, s: Subject, kp: KeyPolicy)
    ensures forall i | 0 <= i < |g.Scopes(s, kp)| :: g.Scopes(s, kp)[i].w == g.Month() || g.Scopes(s, kp)[i].w == g.Day()
  {
    CountersOfScopes(g, s, kp);
    hide Policies.Scopes, Counters, CounterKey;
  }

  /** An admitting check found room everywhere. */
  lemma AdmittedHasRoom(l: Ledger, m: Buckets, scopes: seq<Scope>, bound: money, bounded: bool, answers: seq<StoreAnswer>, t: Time, we: WindowEnd)
    requires HeardAll(m, scopes, answers, t, we) && WellFormed(l) && DistinctKeys(scopes)
    requires ProbeScopes(l, scopes, bound, bounded, answers, |scopes|).ok
    ensures RoomForAll(l, m, scopes, t, we)
  {
    ProbeDecision(l, scopes, bound, bounded, answers, |scopes|);
    hide ProbeScopes, WellFormed, DistinctKeys, StateFor, Current;
    forall i | 0 <= i < |scopes| && scopes[i].hard
      ensures RoomFor(l, m, scopes[i], t, we)
    {
      assert Heard(m, scopes[i], answers[i], t, we);
      assert Admits(StateFor(l, scopes[i].key, answers[i].ends), scopes[i].limit, answers[i]);
    }
  }

  /** Checking other scopes before does not change whether a scope has room. */
  lemma RoomUnchanged(g: Policies, was: Ledger, m: Buckets, now: Buckets, scopes: seq<Scope>, cs: seq<Counter>, bound: money, bounded: bool,
                      answers: seq<StoreAnswer>, i: nat, t: Time, we: WindowEnd)
    requires i < |scopes| == |answers| && AreCounters(g, scopes, cs) && WellFormed(was) && DistinctKeys(scopes) && SameCounters(g, m, now, t, we)
    ensures RoomFor(ProbeScopes(was, scopes, bound, bounded, answers, i).ledger, now, scopes[i], t, we) == RoomFor(was, m, scopes[i], t, we)
  {
    assert Reading(g, cs[i], now, t, we) == Reading(g, cs[i], m, t, we);
    assert forall j | 0 <= j < i :: scopes[j].key != scopes[i].key;
    ProbeElsewhere(was, scopes, bound, bounded, answers, i, scopes[i].key, Current(m, scopes[i].key, scopes[i].w, t, we).windowEnd);
    hide ProbeScopes, StateFor, Current, WellFormed;
  }

  class Governor {
    const policies: Policies
    const bud: Memory
    var money: Ledger
    /** Every permit ever granted. */
    ghost var permits: seq<Permit>

    ghost predicate Valid()
      reads this, bud
    {
      bud.Valid() && Conserved(money, permits) && forall i | 0 <= i < |permits| :: permits[i].released ==> permits[i].finished
    }

    /** p is the permit the governor knows under p's id. */
    ghost predicate Owns(p: LocalBudgetPermit)
      reads this, p
    {
      p.id < |permits| && permits[p.id].holds == p.holds && permits[p.id].scopes == p.scopes && permits[p.id].finished == p.once
    }

    constructor (policies: Policies, bud: Memory)
      requires bud.Valid()
      ensures Valid() && this.policies == policies && this.bud == bud && permits == [] && money == Ledger(map[], map[], 0)
    {
      this.policies, this.bud := policies, bud;
      money, permits := Ledger(map[], map[], 0), [];
    }

    /** The store's figures for one scope: the spend, and the decision on what is held already. */
    method AskStore(s: Scope, held: int64, t: Time) returns (d: Decision)
      requires bud.Valid() && 0 < s.limit && 0 <= held
      modifies bud
      ensures bud.Valid() && old(bud.rejected) <= bud.rejected
      ensures SaysTheSame(old(bud.m), bud.m, s.key, s.w, t, bud.windowEnd)
      ensures d == Allow ==> old(bud.Admits(s.key, t)) && Current(old(bud.m), s.key, s.w, t, bud.windowEnd).spent + held <= s.limit
      ensures bud.rejected == old(bud.rejected) && Current(old(bud.m), s.key, s.w, t, bud.windowEnd).spent + held <= s.limit ==> d == Allow
    {
      d := bud.Check(s.key, held, s.limit, s.w, t);
      LookupKeeps(old(bud.m), bud.m, s.key, s.w, t, bud.windowEnd);
    }

    method AskSpent(s: Scope, t: Time) returns (spent: money)
      requires bud.Valid()
      modifies bud
      ensures bud.Valid() && old(bud.rejected) <= bud.rejected
      ensures SaysTheSame(old(bud.m), bud.m, s.key, s.w, t, bud.windowEnd)
      ensures spent == Current(old(bud.m), s.key, s.w, t, bud.windowEnd).spent || (!bud.Admits(s.key, t) && old(bud.rejected) < bud.rejected)
    {
      spent := bud.Spent(s.key, s.w, t);
      LookupKeeps(old(bud.m), bud.m, s.key, s.w, t, bud.windowEnd);
    }

    method AskEnds(s: Scope, t: Time) returns (ends: Time)
      requires bud.Valid()
      modifies bud
      ensures bud.Valid() && old(bud.rejected) <= bud.rejected
      ensures SaysTheSame(old(bud.m), bud.m, s.key, s.w, t, bud.windowEnd)
      ensures ends == Current(old(bud.m), s.key, s.w, t, bud.windowEnd).windowEnd
    {
      ends := bud.ResetsAt(s.key, s.w, t);
      LookupKeeps(old(bud.m), bud.m, s.key, s.w, t, bud.windowEnd);
    }

    /** key's state object for the window that ends at ends, made new if there is none. */
    method OpenState(key: string, ends: Time)
      requires WellFormed(money)
      modifies this`money
      ensures money == Opened(old(money), key, ends)
    {
      if !(key in money.cur && money.heap[money.cur[key]].ends == ends) {
        var r := Ref(key, ends, money.next);
        money := Ledger(money.cur[key := r], money.heap[r := MoneyState(ends, 0, false)], money.next + 1);
      }
    }

    /** Asks the store about one hard scope, opening its state object if needed. */
    method AskScope(s: Scope, t: Time) returns (admitted: bool, spent: money, ghost a: StoreAnswer)
      requires Valid() && 0 < s.limit
      modifies this`money, bud
      ensures Valid() && old(bud.rejected) <= bud.rejected
      ensures SaysTheSame(old(bud.m), bud.m, s.key, s.w, t, bud.windowEnd)
      ensures Heard(old(bud.m), s, a, t, bud.windowEnd)
      ensures money == Opened(old(money), s.key, a.ends)
      ensures admitted == Admits(money.heap[money.cur[s.key]], s.limit, a)
      ensures admitted ==> spent == a.spent
      ensures bud.rejected == old(bud.rejected) ==> admitted == RoomFor(old(money), old(bud.m), s, t, bud.windowEnd)
    {
      var ends := AskEnds(s, t);
      OpenedConserved(money, permits, s.key, ends);
      OpenState(s.key, ends);
      var state := money.heap[money.cur[s.key]];
      assert Balanced(state, TotalOwed(permits, money.cur[s.key]));
      assert state == StateFor(old(money), s.key, ends);
      hide Current, Opened, Conserved, StateFor;
      spent := AskSpent(s, t);
      if state.frozen || spent >= s.limit || state.held >= s.limit - spent {
        admitted := false;
        a := StoreAnswer(ends, spent, Block);
      } else {
        var d := AskStore(s, state.held, t);
        admitted := d == Allow;
        a := StoreAnswer(ends, spent, d);
      }
    }

    /** Drops state objects that no liability and no live window needs. */
    method CleanUp(t: Time)
      requires Conserved(money, permits)
      modifies this`money
      ensures money == Cleaned(old(money), t)
    {
      ghost var was := money;
      var todo := money.cur.Keys;
      while todo != {}
        invariant todo <= money.cur.Keys <= was.cur.Keys
        invariant money == was.(cur := money.cur)
        invariant forall k | k in money.cur :: money.cur[k] == was.cur[k]
        invariant forall k | k in was.cur && k !in todo :: k in money.cur <==> Keep(was.heap[was.cur[k]], t)
      {
        var k :| k in todo;
        var state := money.heap[money.cur[k]];
        if !(t < state.ends) || (state.held == 0 && !state.frozen) {
          money := money.(cur := money.cur - {k});
        }
        todo := todo - {k};
      }
      assert money.cur == Cleaned(was, t).cur;
    }

    /** Checks one scope: the probe goes one scope further. */
    method ProbeNext(s: Scope, holds: seq<Hold>, bound: money, bounded: bool, t: Time) returns (ok: bool, holds': seq<Hold>, ghost a: StoreAnswer)
      requires Valid() && s.hard && 0 < s.limit
      modifies this`money, bud
      ensures Valid() && old(bud.rejected) <= bud.rejected
      ensures SaysTheSame(old(bud.m), bud.m, s.key, s.w, t, bud.windowEnd)
      ensures Heard(old(bud.m), s, a, t, bud.windowEnd)
      ensures Probe(money, holds', ok) == ProbeOne(Probe(old(money), holds, true), s, a, bound, bounded)
      ensures bud.rejected == old(bud.rejected) ==> ok == RoomFor(old(money), old(bud.m), s, t, bud.windowEnd)
    {
      hide RoomFor, SaysTheSame, Heard, Conserved, Memory.Valid;
      var spent;
      ok, spent, a := AskScope(s, t);
      holds' := holds;
      if ok {
        var amount := bound;
        if !bounded {
          amount := s.limit - spent;
        }
        holds' := holds + [Hold(money.cur[s.key], amount)];
      }
    }

    /**
     The check of the first i scopes, begun when the ledger was was, the store m and its refusals before, has come
     this far; if it stopped, some scope has no room or the store refused something.
     */
    ghost predicate Probed(was: Ledger, m: Buckets, before: nat, scopes: seq<Scope>, bound: money, bounded: bool, answers: seq<StoreAnswer>, t: Time,
                           i: nat, holds: seq<Hold>, ok: bool)
      requires i <= |scopes|
      reads this, bud
    {
      && HeardAll(m, scopes, answers, t, bud.windowEnd) && SameCounters(policies, m, bud.m, t, bud.windowEnd)
      && Probe(money, holds, ok) == ProbeScopes(was, scopes, bound, bounded, answers, i)
      && before <= bud.rejected && (!ok && bud.rejected == before ==> !RoomForAll(was, m, scopes, t, bud.windowEnd))
    }

    /** The check ends with a refusal, or after all scopes. */
    lemma ProbeEnds(was: Ledger, m: Buckets, before: nat, scopes: seq<Scope>, bound: money, bounded: bool, answers: seq<StoreAnswer>, t: Time,
                    i: nat, holds: seq<Hold>, ok: bool)
      requires i <= |scopes| && Probed(was, m, before, scopes, bound, bounded, answers, t, i, holds, ok) && (ok ==> i == |scopes|)
      requires WellFormed(was) && DistinctKeys(scopes)
      ensures Probed(was, m, before, scopes, bound, bounded, answers, t, |scopes|, holds, ok)
      ensures ok ==> RoomForAll(was, m, scopes, t, bud.windowEnd)
    {
      if !ok {
        ProbeStops(was, scopes, bound, bounded, answers, i, |scopes|);
      } else {
        AdmittedHasRoom(was, m, scopes, bound, bounded, answers, t, bud.windowEnd);
      }
    }

    /** Checks scope i after the scopes before it passed. */
    method ProbeAt(scopes: seq<Scope>, bound: money, bounded: bool, t: Time, i: nat, holds: seq<Hold>,
                   ghost cs: seq<Counter>, ghost was: Ledger, ghost m: Buckets, ghost before: nat, ghost answers: seq<StoreAnswer>)
      returns (ok: bool, holds': seq<Hold>, ghost answers': seq<StoreAnswer>)
      requires Valid() && AreCounters(policies, scopes, cs) && i < |scopes| && WellFormed(was) && DistinctKeys(scopes)
      requires Probed(was, m, before, scopes, bound, bounded, answers, t, i, holds, true)
      modifies this`money, bud
      ensures Valid() && Probed(was, m, before, scopes, bound, bounded, answers', t, i + 1, holds', ok)
    {
      ghost var we, now, a := bud.windowEnd, bud.m, answers[i];
      ok, holds' := true, holds;
      RoomUnchanged(policies, was, m, now, scopes, cs, bound, bounded, answers, i, t, we);
      hide RoomFor, SaysTheSame, Heard, ProbeOne, ProbeScopes, SameCounters, Conserved, Current, Memory.Valid, Reading, CounterKey, WellFormed, DistinctKeys;
      if scopes[i].hard {
        ok, holds', a := ProbeNext(scopes[i], holds, bound, bounded, t);
        HeardNext(policies, m, now, scopes, cs, answers, a, i, t, we);
        SameAfterSame(policies, m, now, bud.m, cs[i], t, we);
      } else {
        assert answers[i := a] == answers;
        ProbeSkips(Probe(money, holds, true), scopes[i], a, bound, bounded);
      }
      ProbeAsked(was, scopes, bound, bounded, answers, a, i);
      answers' := answers[i := a];
    }

    /** The checking pass: claims nothing yet, and stops at the first scope that refuses. */
    method ProbeAll(scopes: seq<Scope>, bound: money, bounded: bool, t: Time, ghost cs: seq<Counter>)
      returns (ok: bool, holds: seq<Hold>, ghost answers: seq<StoreAnswer>)
      requires Valid() && AreCounters(policies, scopes, cs) && DistinctKeys(scopes)
      modifies this`money, bud
      ensures Valid() && Probed(old(money), old(bud.m), old(bud.rejected), scopes, bound, bounded, answers, t, |scopes|, holds, ok)
      ensures ok ==> RoomForAll(old(money), old(bud.m), scopes, t, bud.windowEnd)
    {
      ghost var was, m, before := money, bud.m, bud.rejected;
      answers := Unasked(m, scopes, t, bud.windowEnd);
      ok, holds := true, [];
      var i := 0;
      assert Probed(was, m, before, scopes, bound, bounded, answers, t, 0, [], true) && WellFormed(was);
      hide Governor.Valid, AreCounters, HeardAll, SameCounters, Governor.Probed, WellFormed, DistinctKeys, RoomForAll;
      while ok && i < |scopes|
        invariant 0 <= i <= |scopes| && Valid() && Probed(was, m, before, scopes, bound, bounded, answers, t, i, holds, ok)
      {
        ok, holds, answers := ProbeAt(scopes, bound, bounded, t, i, holds, cs, was, m, before, answers);
        i := i + 1;
      }
      ProbeEnds(was, m, before, scopes, bound, bounded, answers, t, i, holds, ok);
    }

    /** The claiming pass. */
    method AddAll(holds: seq<Hold>)
      requires forall i | 0 <= i < |holds| :: holds[i].ref in money.heap
      modifies this`money
      ensures money == old(money).(heap := AddHolds(old(money.heap), holds, |holds|))
    {
      ghost var was := money;
      var i := 0;
      while i < |holds|
        invariant 0 <= i <= |holds|
        invariant money == was.(heap := AddHolds(was.heap, holds, i))
        invariant money.heap.Keys == was.heap.Keys
      {
        var h := holds[i];
        var state := money.heap[h.ref];
        if h.amount > MAX_INT64 - state.held {
          state := state.(held := MAX_INT64, frozen := true);
        } else {
          state := state.(held := state.held + h.amount);
        }
        money := money.(heap := money.heap[h.ref := state]);
        i := i + 1;
      }
    }

    /** Probes every hard scope, then claims them all or none. */
    method Claim(scopes: seq<Scope>, bound: money, bounded: bool, t: Time, ghost cs: seq<Counter>) returns (out: Outcome, ghost answers: seq<StoreAnswer>)
      requires Valid() && DistinctKeys(scopes) && AreCounters(policies, scopes, cs)
      modifies this, bud
      ensures out.Held? ==> RoomForAll(old(money), old(bud.m), scopes, t, bud.windowEnd)
      ensures !out.Held? && bud.rejected == old(bud.rejected) ==> !RoomForAll(old(money), old(bud.m), scopes, t, bud.windowEnd)
      ensures Valid() && HeardAll(old(bud.m), scopes, answers, t, bud.windowEnd)
      ensures SameCounters(policies, old(bud.m), bud.m, t, bud.windowEnd) && old(bud.rejected) <= bud.rejected
      ensures var p := ProbeScopes(old(money), scopes, bound, bounded, answers, |scopes|);
              && !out.Free?
              && money == (if p.ok then p.ledger.(heap := AddHolds(p.ledger.heap, p.holds, |p.holds|)) else p.ledger)
              && (out.Held? <==> p.ok)
              && (out.Held? ==> fresh(out.permit) && Owns(out.permit) && out.permit.id == old(|permits|))
              && permits == old(permits) + if p.ok then [Permit(p.holds, scopes, false, false)] else []
    {
      ghost var start := money;
      var ok, holds, heard := ProbeAll(scopes, bound, bounded, t, cs);
      answers := heard;
      hide RoomForAll, SameCounters, AreCounters, HeardAll, ProbeScopes, TotalOwed, Balanced, DistinctKeys, WellFormed, Memory.Valid, DistinctRefs, HardKey, AddHolds;
      if !ok {
        return Denied, answers;
      }
      ProbeFresh(start, permits, scopes, bound, bounded, answers, |scopes|);
      assert HoldsIn(holds, money.heap) && NoneFrozen(holds, money.heap);
      GrantConserved(money, permits, Permit(holds, scopes, false, false));
      hide Conserved, HoldsIn, NoneFrozen, Fresh;
      AddAll(holds);
      var p := new LocalBudgetPermit(holds, scopes, |permits|);
      permits := permits + [Permit(holds, scopes, false, false)];
      return Held(p), answers;
    }

    /**
     Atomically claims every hard money scope of a request, or none. The store's answers are returned as a
     ghost value so that the outcome is a function of them. Unless the store refuses something, a permit is
     granted exactly when money is governed, the bound is not negative, the table has place, and every hard
     scope has room.
     */
    method ReserveLocalBudget(s: Subject, kp: KeyPolicy, bound: int64, bounded: bool, t: Time) returns (out: Outcome, ghost answers: seq<StoreAnswer>)
      requires Valid()
      modifies this, bud
      ensures Valid() && HeardAll(old(bud.m), policies.Scopes(s, kp), answers, t, bud.windowEnd)
      ensures SameCounters(policies, old(bud.m), bud.m, t, bud.windowEnd) && old(bud.rejected) <= bud.rejected
      ensures var res := Reserve(old(money), policies.Scopes(s, kp), bound, bounded, answers, t);
              && money == res.ledger
              && (out.Free? <==> res.Ungoverned?) && (out.Held? <==> res.Granted?) && (out.Free? <==> policies.Scopes(s, kp) == [])
              && (out.Held? ==> fresh(out.permit) && Owns(out.permit) && out.permit.id == old(|permits|))
              && permits == old(permits) + if res.Granted? then [res.permit] else []
      ensures bud.rejected == old(bud.rejected) && t < bud.windowEnd(t, policies.Month()) && t < bud.windowEnd(t, policies.Day()) ==>
                (out.Held? <==> Grantable(old(money), old(bud.m), policies.Scopes(s, kp), bound, t, bud.windowEnd))
    {
      var scopes := policies.Scopes(s, kp);
      GrantableFrom(money, bud.m, policies, s, kp, bound, t, bud.windowEnd);
      answers := Unasked(bud.m, scopes, t, bud.windowEnd);
      ScopesAreDistinct(policies, s, kp);
      ScopesAreCounters(policies, s, kp);
      assert SameCounters(policies, bud.m, bud.m, t, bud.windowEnd);
      hide SameCounters, AreCounters, Policies.Scopes, Counters, Conserved, ProbeScopes, HeardAll, DistinctKeys, Memory.Valid, AddHolds, Cleaned, Grantable, RoomForAll;
      if scopes == [] {
        return Free, answers;
      }
      if bound < 0 {
        return Denied, answers;
      }
      if |money.cur| + |scopes| > MAX_STATES {
        CleanedConserved(money, permits, t);
        CleanUp(t);
        if |money.cur| + |scopes| > MAX_STATES {
          return Denied, answers;
        }
      }
      out, answers := Claim(scopes, bound, bounded, t, Counters(policies, s, kp));
    }

    /** Debits every scope; a store that starts with enough room refuses none. */
    method DebitScopes(scopes: seq<Scope>, amount: int64, t: Time)
      requires bud.Valid()
      modifies bud
      ensures bud.Valid() && old(bud.rejected) <= bud.rejected
      ensures Landed(old(bud.m), bud.m, scopes, amount, bud.rejected - old(bud.rejected), t, bud.windowEnd)
      ensures |old(bud.m)| + |scopes| <= bud.maxEntries ==> bud.rejected == old(bud.rejected)
    {
      ghost var was, before := bud.m, bud.rejected;
      var i := 0;
      while i < |scopes|
        invariant 0 <= i <= |scopes| && bud.Valid() && before <= bud.rejected
        invariant bud.rejected == before ==> View(bud.m, t) == View(DebitAll(was, scopes, amount, i, t, bud.windowEnd), t)
        invariant |bud.m.Keys| <= |was| + i
        invariant |was| + |scopes| <= bud.maxEntries ==> bud.rejected == before
      {
        ghost var now, ref := bud.m, DebitAll(was, scopes, amount, i, t, bud.windowEnd);
        Shrinks(bud.m, t);
        bud.Debit(scopes[i].key, amount, scopes[i].w, t);
        Subset(bud.m.Keys, now.Keys + {scopes[i].key});
        if bud.rejected == before {
          OnlyTheViewMatters(now, ref, Call(t, scopes[i].key, scopes[i].w, DebitOp(amount)), bud.windowEnd);
        }
        i := i + 1;
      }
    }

    /** Releases proved complete usage, freezes after a malformed one, and otherwise keeps the holds. */
    method SettleAll(holds: seq<Hold>, complete: bool, invalid: bool)
      requires forall i | 0 <= i < |holds| :: holds[i].ref in money.heap
      modifies this`money
      ensures money == old(money).(heap := SettleHolds(old(money.heap), holds, complete, invalid, |holds|))
    {
      ghost var was := money;
      var i := 0;
      while i < |holds|
        invariant 0 <= i <= |holds|
        invariant money == was.(heap := SettleHolds(was.heap, holds, complete, invalid, i))
        invariant money.heap.Keys == was.heap.Keys
      {
        var h := holds[i];
        var state := money.heap[h.ref];
        if complete && !invalid {
          state := state.(held := state.held - h.amount);
        } else if invalid {
          state := state.(frozen := true);
        }
        money := money.(heap := money.heap[h.ref := state]);
        i := i + 1;
      }
    }

    /** Settles the holds of permit i for the first time. */
    method ReleaseHolds(holds: seq<Hold>, ghost i: nat, complete: bool, invalid: bool)
      requires Conserved(money, permits) && i < |permits| && permits[i].holds == holds && !permits[i].finished && !permits[i].released
      modifies this`money, this`permits
      ensures Conserved(money, permits) && Finishes(old(money.heap), money.heap, holds, complete, invalid)
      ensures money == FinishedLedger(old(money), old(permits[i]), complete, invalid)
      ensures permits == old(permits)[i := FinishedPermit(old(permits[i]), complete, invalid)]
    {
      FinishConserves(money, permits, i, complete, invalid);
      hide WellFormed, Balanced, TotalOwed, DistinctRefs, Finishes;
      assert HoldsIn(permits[i].holds, money.heap);
      hide Conserved;
      FinishMeans(money, permits[i], complete, invalid);
      hide HoldsIn;
      SettleAll(holds, complete, invalid);
      permits := permits[i := FinishedPermit(permits[i], complete, invalid)];
    }

    /**
     Debits the observed cost on every scope of the permit and then settles its holds, once: a later call on
     the same permit changes nothing. Without a permit there is nothing to do.
     */
    method FinishLocalBudget(p: LocalBudgetPermit?, actual: Option<int64>, complete: bool, invalid: bool, t: Time)
      requires Valid() && (p != null ==> Owns(p))
      modifies this`money, this`permits, bud, p
      ensures Valid() && (p != null ==> Owns(p) && p.once)
      ensures p == null ==> money == old(money) && permits == old(permits)
      ensures p != null ==>
                && money == FinishedLedger(old(money), old(permits[p.id]), complete, invalid)
                && permits == old(permits)[p.id := FinishedPermit(old(permits[p.id]), complete, invalid)]
      ensures p != null && !old(p.once) ==> Finishes(old(money.heap), money.heap, p.holds, complete, invalid)
      ensures if p != null && !old(p.once) && actual.Some? && 0 <= actual.value
              then old(bud.rejected) <= bud.rejected
                   && Landed(old(bud.m), bud.m, p.scopes, actual.value, bud.rejected - old(bud.rejected), t, bud.windowEnd)
              else bud.m == old(bud.m) && bud.rejected == old(bud.rejected)
    {
      if p == null {
        return;
      }
      ghost var i := p.id;
      if p.once {
        assert permits[i := permits[i]] == permits;
        return;
      }
      p.once := true;
      hide Landed, Memory.Valid, Finishes, Conserved, SettleHolds;
      if actual.Some? && actual.value >= 0 {
        DebitScopes(p.scopes, actual.value, t);
      }
      ReleaseHolds(p.holds, i, complete, invalid);
    }

    /**
     Settles a request at most once per admission: the rate reservations are finished, and unless a permit
     owns the money the cost is debited on exactly the scopes a reservation would have claimed.
     */
    method Settle(s: Subject, kp: KeyPolicy, u: Usage, a: Admission?, t: Time) returns (cost: int64, missing: bool)
      requires bud.Valid() && (a != null ==> a.Valid())
      modifies bud, a, if a == null then [] else a.rates
      ensures bud.Valid() && (a != null ==> a.Valid() && a.once && a.rates == old(a.rates))
      ensures a != null ==> a.moneyOwned == old(a.moneyOwned) && a.dispatched == old(a.dispatched)
      ensures a != null ==> a.outcome == if old(a.once) then old(a.outcome) else RateOutcome(u, a.estimate, policies.shared)
      ensures a != null ==> if old(a.once) then (a.cost, a.missing) == (old(a.cost), old(a.missing)) else (a.cost, a.missing) == (cost, missing)
      ensures (cost, missing) == if a != null && !a.moneyOwned && old(a.once) then (old(a.cost), old(a.missing))
                                 else if u.tokens.Some? && u.price.Some? then (u.price.value, false) else (0, true)
      ensures if u.tokens.Some? && (a == null || (!old(a.once) && !a.moneyOwned))
              then old(bud.rejected) <= bud.rejected
                   && Landed(old(bud.m), bud.m, policies.Scopes(s, kp), PriceOf(u), bud.rejected - old(bud.rejected), t, bud.windowEnd)
                   && (bud.rejected == old(bud.rejected) ==>
                         Charges(policies, old(bud.m), bud.m, s, kp, if u.price.Some? then u.price.value else 0, t, bud.windowEnd))
              else bud.m == old(bud.m) && bud.rejected == old(bud.rejected)
    {
      hide Memory.Valid, Landed, Charges, RateOutcome, Policies.Scopes;
      cost, missing := 0, true;
      if u.tokens.Some? && u.price.Some? {
        cost, missing := u.price.value, false;
      }
      ghost var before, rejected := bud.m, bud.rejected;
      if a != null && a.once {
        if !a.moneyOwned {
          cost, missing := a.cost, a.missing;
        }
        return;
      }
      if a != null {
        a.FinishOnce(RateOutcome(u, a.estimate, policies.shared));
        a.cost, a.missing := cost, missing;
      }
      if u.tokens.Some? && (a == null || !a.moneyOwned) {
        DebitScopes(policies.Scopes(s, kp), cost, t);
        if bud.rejected == rejected {
          LandedCharges(policies, before, bud.m, s, kp, PriceOf(u), t, bud.windowEnd);
        }
      }
    }
  }
}
