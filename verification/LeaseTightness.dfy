/**
 The fleet bound cannot be improved: for every limit, every positive grant and every fleet that can lapse one
 data plane after another within the pruning time, there is a run without pruning whose total spend is exactly
 the bound. The first data plane reports its way up until one slice is left, spends that slice unreported and
 falls silent; then every other data plane in turn is granted the same slice, spends it and falls silent.
 */
module LeaseTightness {
  import opened Basics
  import opened Int64s
  import opened MapSums
  import opened LeaseLedger
  import opened LeaseFleet

  ghost predicate Distinct(ds: seq<Dataplane>) {
    forall i, j | 0 <= i < j < |ds| :: ds[i] != ds[j]
  }

  /** Long enough for a lease to lapse. */
  function Gap(t: Terms): Time {
    3 * t.renew + 1
  }

  /** What the first data plane reports in the end. */
  function Floor(t: Terms): money {
    t.limit - MaxSlice(t)
  }

  /** A configuration that validation can produce, and a fleet that has not begun. */
  ghost predicate Setting(t: Terms, ds: seq<Dataplane>, f: Fleet) {
    && Init(t, f) && f.now == 0
    && ds != [] && Distinct(ds) && f.agents.Keys == (set i | 0 <= i < |ds| :: ds[i])
    && 0 <= t.renew && 0 < t.grant && t.period != "" && |ds| * Gap(t) <= PRUNE_AFTER
  }

  lemma Extend(t: Terms, r: Run, e: Event, g: Fleet) returns (r': Run)
    requires r.Valid(t) && NoPruning(r)
    requires Step(t, r.states[|r.events|], e, g) && Governs(t, g.cp)
    requires e.Deliver? ==> NonePruned(r.states[|r.events|], e.d)
    ensures r'.Valid(t) && NoPruning(r') && r'.states[0] == r.states[0]
    ensures |r'.events| == |r.events| + 1 && r'.states[|r'.events|] == g
  {
    hide Step, Governs;
    r' := Run(r.states + [g], r.events + [e]);
    forall i | 0 <= i < |r'.events|
      ensures Step(t, r'.states[i], r'.events[i], r'.states[i + 1])
    {
      if i < |r.events| {
        assert r'.states[i] == r.states[i] && r'.states[i + 1] == r.states[i + 1];
      }
    }
  }

  // ---- One heartbeat that is answered, installed and partly spent --------------------------

  /** Every lease but d's has lapsed, and nobody is silent long enough to be pruned. */
  ghost predicate OthersLapsed(t: Terms, cp: State, now: Time, d: Dataplane) {
    && (forall e | e in cp.seen && e != d :: 3 * t.renew < now - cp.seen[e] <= PRUNE_AFTER)
    && (d in cp.seen ==> 0 <= now - cp.seen[d] <= PRUNE_AFTER)
  }

  /** The rule's books: d is on record with at most s, the others with exactly o together, and both fit the limit. */
  ghost predicate OnRecord(t: Terms, cp: State, d: Dataplane, s: int, o: int)
    requires Governs(t, cp)
  {
    var l := cp.ledger[t.k];
    l.SpentOf(d) <= s && Sum(l.spent) - l.SpentOf(d) == o && 0 <= o && o + s <= t.limit
  }

  function ReportOf(t: Terms, s: money): Report {
    Report(t.k, s, t.period)
  }

  /** d reports s and is granted all that is left, up to a grant. */
  lemma Renewed(t: Terms, cp: State, now: Time, d: Dataplane, s: money, o: int)
    requires Governs(t, cp) && d != "" && t.period != "" && OthersLapsed(t, cp, now, d) && OnRecord(t, cp, d, s, o)
    ensures NonNegative([ReportOf(t, s)])
    ensures var cp' := SyncState(cp, now, d, [ReportOf(t, s)]);
            && Governs(t, cp') && cp'.ledger[t.k].spent == cp.ledger[t.k].spent[d := s] && cp'.seen == cp.seen[d := now]
            && LeaseOf(cp'.ledger[t.k], now, d).allowance == s + Min(t.grant, t.limit - o - s)
  {
    var l := cp.ledger[t.k];
    var seen := cp.seen[d := now];
    var rep := ReportOf(t, s);
    var m := l.(spent := l.spent[d := s]);
    assert [rep][..0] == [];
    assert Absorb(l, t.k, d, [rep]) == m;
    assert Silent(seen, now) == {};
    assert Drop(m, {}) == m by {
      assert m.spent - {} == m.spent && m.allowance - {} == m.allowance;
    }
    assert seen - {} == seen;
    assert Outstanding(m, now, seen, d) == map[];
    SumUpdate(l.spent, d, s);
    hide Sum;
  }

  /** d has spent s, has nothing in flight, and its next heartbeat will be answered as Renewed says. */
  ghost predicate CanBeat(t: Terms, f: Fleet, d: Dataplane, s: int, o: int) {
    && Governs(t, f.cp) && OnRecord(t, f.cp, d, s, o) && OthersLapsed(t, f.cp, f.now, d)
    && d in f.agents && d != "" && f.agents[d].spent == s && f.agents[d].requests == []
    && t.period != "" && 0 <= t.renew
  }

  /** f after d reported s, was answered with some lease, and spent x of it. */
  ghost predicate Beaten(t: Terms, f: Fleet, d: Dataplane, s: int, x: int, g: Fleet) {
    && Governs(t, f.cp) && Governs(t, g.cp) && 0 <= s <= MAX_INT64 && g.now == f.now && g.cp.seen == f.cp.seen[d := f.now]
    && g.cp.ledger[t.k].spent == f.cp.ledger[t.k].spent[d := s]
    && d in g.agents && g.agents == f.agents[d := g.agents[d]] && g.agents[d].spent == s + x && g.agents[d].requests == []
  }

  lemma Answered(t: Terms, f: Fleet, d: Dataplane, s: money, o: int) returns (sent: Fleet, granted: Fleet, lease: Lease)
    requires CanBeat(t, f, d, s, o)
    ensures Step(t, f, Send(d, [ReportOf(t, s)]), sent) && Governs(t, sent.cp) && NonePruned(sent, d) && Step(t, sent, Deliver(d, 0), granted)
    ensures Beaten(t, f, d, s, 0, granted) && lease in granted.agents[d].responses
    ensures lease.allowance == s + Min(t.grant, t.limit - o - s)
  {
    Renewed(t, f.cp, f.now, d, s, o);
    var a := f.agents[d];
    var q := Request(s, [ReportOf(t, s)]);
    assert Truthful(t, q);
    var cp := SyncState(f.cp, f.now, d, q.reports);
    lease := LeaseOf(cp.ledger[t.k], f.now, d);
    sent := f.(agents := f.agents[d := a.(requests := [q])]);
    granted := sent.(cp := cp, agents := sent.agents[d := a.(responses := a.responses + {lease})]);
    hide SyncState, LeaseOf, OnRecord, OthersLapsed, Truthful, NonNegative, Sum;
    assert [] + [q] == [q] && [q][1..] == [] && a.(requests := []) == a;
    AllSeen(t, f, d);
  }

  lemma AllSeen(t: Terms, f: Fleet, d: Dataplane)
    requires OthersLapsed(t, f.cp, f.now, d)
    ensures NonePruned(f, d)
  {
  }

  lemma Consumed(t: Terms, f: Fleet, d: Dataplane, lease: Lease, x: nat) returns (installed: Fleet, spent: Fleet)
    requires Governs(t, f.cp) && d in f.agents && lease in f.agents[d].responses && f.agents[d].spent + x <= lease.allowance
    ensures Step(t, f, Install(d, lease), installed) && Governs(t, installed.cp)
    ensures Step(t, installed, Spend(d, x), spent)
    ensures spent == f.(agents := f.agents[d := f.agents[d].(holding := Holds(lease), spent := f.agents[d].spent + x)])
  {
    installed := f.(agents := f.agents[d := f.agents[d].(holding := Holds(lease))]);
    spent := installed.(agents := installed.agents[d := installed.agents[d].(spent := f.agents[d].spent + x)]);
  }

  /** One heartbeat of d, and x spent of what it was granted. */
  lemma Beat(t: Terms, r: Run, d: Dataplane, s: money, o: int, x: nat) returns (r': Run)
    requires r.Valid(t) && NoPruning(r) && CanBeat(t, r.states[|r.events|], d, s, o)
    requires x <= Min(t.grant, t.limit - o - s)
    ensures r'.Valid(t) && NoPruning(r') && r'.states[0] == r.states[0]
    ensures Beaten(t, r.states[|r.events|], d, s, x, r'.states[|r'.events|])
  {
    var f := r.states[|r.events|];
    var f1, f2, lease := Answered(t, f, d, s, o);
    var f3, f4 := Consumed(t, f2, d, lease, x);
    assert Beaten(t, f, d, s, x, f4);
    hide Step, Governs, Run.Valid, NoPruning, NonePruned, CanBeat, Beaten;
    r' := Extend(t, r, Send(d, [ReportOf(t, s)]), f1);
    r' := Extend(t, r', Deliver(d, 0), f2);
    r' := Extend(t, r', Install(d, lease), f3);
    r' := Extend(t, r', Spend(d, x), f4);
  }

  /** After a beat d can beat again from where its spend is now. */
  lemma BeatAgain(t: Terms, f: Fleet, d: Dataplane, s: int, o: int, x: nat, g: Fleet)
    requires CanBeat(t, f, d, s, o) && Beaten(t, f, d, s, x, g) && o + s + x <= t.limit
    ensures CanBeat(t, g, d, s + x, o)
  {
    SumUpdate(f.cp.ledger[t.k].spent, d, s);
    hide Sum;
  }

  // ---- The climb of the first data plane -------------------------------------------------------

  /** g is f but for d, seen just now. */
  ghost predicate OnlyMoved(t: Terms, f: Fleet, d: Dataplane, g: Fleet) {
    && Governs(t, f.cp) && Governs(t, g.cp)
    && (forall e | e != d :: g.cp.ledger[t.k].SpentOf(e) == f.cp.ledger[t.k].SpentOf(e))
    && g.now == f.now && d in g.agents && g.agents == f.agents[d := g.agents[d]]
    && forall e | e in g.cp.seen :: e == d || (e in f.cp.seen && g.cp.seen[e] == f.cp.seen[e])
  }

  lemma OnlyMovedTwice(t: Terms, f: Fleet, d: Dataplane, g: Fleet, h: Fleet)
    requires OnlyMoved(t, f, d, g) && OnlyMoved(t, g, d, h)
    ensures OnlyMoved(t, f, d, h)
  {
  }

  /** Reporting as it spends, d gets to any spend that leaves one slice. */
  lemma {:induction false} Climb(t: Terms, r: Run, d: Dataplane, s: money) returns (r': Run)
    requires r.Valid(t) && NoPruning(r) && CanBeat(t, r.states[|r.events|], d, s, 0) && s <= Floor(t) && 0 < t.grant
    ensures r'.Valid(t) && NoPruning(r') && r'.states[0] == r.states[0]
    ensures CanBeat(t, r'.states[|r'.events|], d, Floor(t), 0) && OnlyMoved(t, r.states[|r.events|], d, r'.states[|r'.events|])
    decreases Floor(t) - s
  {
    var f := r.states[|r.events|];
    if s == Floor(t) {
      r' := r;
      assert f.agents[d := f.agents[d]] == f.agents;
    } else {
      var x := Min(MaxSlice(t), Floor(t) - s);
      r' := Beat(t, r, d, s, 0, x);
      var g := r'.states[|r'.events|];
      BeatAgain(t, f, d, s, 0, x, g);
      assert OnlyMoved(t, f, d, g);
      hide CanBeat, Beaten, OnlyMoved, Run.Valid, NoPruning;
      r' := Climb(t, r', d, s + x);
      OnlyMovedTwice(t, f, d, g, r'.states[|r'.events|]);
    }
  }

  // ---- Draining one data plane after another ---------------------------------------------------

  /**
   The first n data planes have spent all they can, each a slice of it unreported, and have lapsed; the others
   have not begun.
   */
  ghost predicate Drained(t: Terms, ds: seq<Dataplane>, n: nat, f: Fleet) {
    && n <= |ds| && Distinct(ds) && "" !in ds
    && Governs(t, f.cp) && Sum(f.cp.ledger[t.k].spent) == (if n == 0 then 0 else Floor(t))
    && f.agents.Keys == (set i | 0 <= i < |ds| :: ds[i])
    && f.now == n * Gap(t)
    && (forall e | e in f.cp.seen :: 0 <= f.cp.seen[e] && 3 * t.renew < f.now - f.cp.seen[e])
    && (forall i | 0 <= i < n :: f.agents[ds[i]].spent == if i == 0 then t.limit else MaxSlice(t))
    && forall i | n <= i < |ds| :: f.agents[ds[i]] == Agent(0, NoLease, [], {}) && f.cp.ledger[t.k].SpentOf(ds[i]) == 0
  }

  ghost predicate Patient(t: Terms, ds: seq<Dataplane>) {
    0 <= t.renew && 0 < t.grant && t.period != "" && |ds| * Gap(t) <= PRUNE_AFTER
  }

  lemma DrainedCanBeat(t: Terms, ds: seq<Dataplane>, n: nat, f: Fleet)
    requires n < |ds| && Drained(t, ds, n, f) && Patient(t, ds)
    ensures CanBeat(t, f, ds[n], 0, if n == 0 then 0 else Floor(t)) && 0 <= f.now
  {
    hide Sum;
    assert 0 <= n * Gap(t) <= |ds| * Gap(t);
    assert ds[n] in ds;
  }

  /** What the last beat and the silence after it leave. */
  lemma DrainedNext(t: Terms, ds: seq<Dataplane>, n: nat, f: Fleet, c: Fleet, s: int, g: Fleet)
    requires n < |ds| && Drained(t, ds, n, f) && Patient(t, ds) && 0 <= f.now
    requires OnlyMoved(t, f, ds[n], c) && Beaten(t, c, ds[n], s, MaxSlice(t), g) && s == (if n == 0 then Floor(t) else 0)
    requires Sum(c.cp.ledger[t.k].spent) - c.cp.ledger[t.k].SpentOf(ds[n]) == (if n == 0 then 0 else Floor(t))
    ensures Drained(t, ds, n + 1, g.(now := g.now + Gap(t)))
  {
    SumUpdate(c.cp.ledger[t.k].spent, ds[n], s);
    hide Sum;
    assert (n + 1) * Gap(t) == n * Gap(t) + Gap(t);
    forall i | 0 <= i < |ds|
      ensures ds[i] in f.agents && (i != n ==> ds[i] != ds[n])
    {
      assert i < n ==> ds[i] != ds[n];
      assert n < i ==> ds[n] != ds[i];
    }
  }

  lemma CanBeatMeans(t: Terms, f: Fleet, d: Dataplane, s: int, o: int)
    requires CanBeat(t, f, d, s, o)
    ensures Sum(f.cp.ledger[t.k].spent) - f.cp.ledger[t.k].SpentOf(d) == o && OnlyMoved(t, f, d, f)
  {
    assert f.agents[d := f.agents[d]] == f.agents;
  }

  lemma LastTick(t: Terms, r: Run) returns (r': Run)
    requires r.Valid(t) && NoPruning(r) && 0 <= t.renew && Governs(t, r.states[|r.events|].cp)
    ensures r'.Valid(t) && NoPruning(r') && r'.states[0] == r.states[0]
    ensures var f := r.states[|r.events|]; r'.states[|r'.events|] == f.(now := f.now + Gap(t))
  {
    var f := r.states[|r.events|];
    r' := Extend(t, r, Tick(f.now + Gap(t)), f.(now := f.now + Gap(t)));
  }

  lemma DrainOne(t: Terms, ds: seq<Dataplane>, n: nat, r: Run) returns (r': Run)
    requires r.Valid(t) && NoPruning(r) && n < |ds| && Drained(t, ds, n, r.states[|r.events|]) && Patient(t, ds)
    ensures r'.Valid(t) && NoPruning(r') && r'.states[0] == r.states[0]
    ensures |r'.states| == |r'.events| + 1 && Drained(t, ds, n + 1, r'.states[|r'.events|])
  {
    var f := r.states[|r.events|];
    var d, s, o := ds[n], if n == 0 then Floor(t) else 0, if n == 0 then 0 else Floor(t);
    DrainedCanBeat(t, ds, n, f);
    CanBeatMeans(t, f, d, 0, o);
    assert 0 < t.grant && 0 <= t.renew;
    hide Drained, Patient, CanBeat, Beaten, OnlyMoved, Step, Init, Gap, Distinct, NonePruned, Governs, NoPruning;
    if n == 0 {
      r' := Climb(t, r, d, 0);
    } else {
      r' := r;
    }
    var c := r'.states[|r'.events|];
    CanBeatMeans(t, c, d, s, o);
    r' := Beat(t, r', d, s, o, MaxSlice(t));
    var g := r'.states[|r'.events|];
    DrainedNext(t, ds, n, f, c, s, g);
    r' := LastTick(t, r');
  }

  lemma {:induction false} Drain(t: Terms, ds: seq<Dataplane>, f: Fleet, n: nat) returns (r: Run)
    requires Setting(t, ds, f) && n <= |ds|
    ensures r.Valid(t) && NoPruning(r) && r.states[0] == f && Drained(t, ds, n, r.states[|r.events|])
    decreases n
  {
    if n == 0 {
      r := Run([f], []);
      forall i | 0 <= i < |ds| ensures ds[i] in f.agents {}
    } else {
      r := Drain(t, ds, f, n - 1);
      r := DrainOne(t, ds, n - 1, r);
    }
  }

  /** What a drained fleet has spent. */
  lemma DrainedTotal(t: Terms, ds: seq<Dataplane>, f: Fleet)
    requires ds != [] && Drained(t, ds, |ds|, f)
    ensures TotalSpend(f) == LapseCap(t, |f.agents.Keys|)
  {
    var last := Spends(f);
    assert last.Keys == f.agents.Keys && ds[0] in last;
    SumSplit(last, ds[0]);
    forall d | d in last - {ds[0]}
      ensures last[d] == MaxSlice(t)
    {
      var i :| 0 <= i < |ds| && ds[i] == d;
    }
    SumConstant(last - {ds[0]}, MaxSlice(t));
    assert (last - {ds[0]}).Keys == last.Keys - {ds[0]};
    hide Sum;
  }

  /** The bound on a run with lapses is reached, whatever the limit and the grant. */
  lemma FleetBoundIsReached(t: Terms, ds: seq<Dataplane>, f: Fleet) returns (r: Run)
    requires Setting(t, ds, f)
    ensures r.Valid(t) && NoPruning(r) && r.states[0] == f
    ensures TotalSpend(r.states[|r.events|]) == t.limit + Min(t.grant, t.limit) * (|f.agents.Keys| - 1)
  {
    hide Sum;
    r := Drain(t, ds, f, |ds|);
    DrainedTotal(t, ds, r.states[|r.events|]);
  }
}
