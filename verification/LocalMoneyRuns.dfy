/**
 Whole runs of overlapping attempts, over any number of windows: what the ledger and the store keep about one
 counter in one of its windows, while everything else happens too.
 */
module LocalMoneyRuns {
  import opened Basics
  import opened Int64s
  import opened BudgetStore
  import opened BudgetHistory
  import opened LocalMoney

  /** One window of one counter: the counter's key and window kind, the window's end, and the limit in it. */
  datatype Frame = Frame(key: string, w: Window, end: Time, limit: money, we: WindowEnd)

  /** The ledger, every permit ever granted, the store as if it were never swept or full, and the time. */
  datatype Books = Books(ledger: Ledger, permits: seq<Permit>, m: Buckets, now: Time)

  datatype Event =
    | Attempt(at: Time, scopes: seq<Scope>, bound: int64, bounded: bool, answers: seq<StoreAnswer>)
    | Finish(at: Time, permit: nat, actual: Option<int64>, complete: bool, invalid: bool)
    | Settle(at: Time, scopes: seq<Scope>, cost: int64)

  /** The never-full store after the first n scopes were debited. */
  function DebitAll(m: Buckets, scopes: seq<Scope>, amount: int64, n: nat, t: Time, we: WindowEnd): Buckets
    requires n <= |scopes|
  {
    if n == 0 then m
    else RefNext(DebitAll(m, scopes, amount, n - 1, t, we), Call(t, scopes[n - 1].key, scopes[n - 1].w, DebitOp(amount)), we)
  }

  /** a is what the store, as it was in m, says about scope s at t; a store at capacity never admits. */
  ghost predicate Heard(m: Buckets, s: Scope, a: StoreAnswer, t: Time, we: WindowEnd) {
    && a.ends == Current(m, s.key, s.w, t, we).windowEnd
    && (a.decision == Allow ==> a.spent == Current(m, s.key, s.w, t, we).spent)
  }

  /** Every answer is what the store, as it was in m, says about its scope. */
  ghost predicate HeardAll(m: Buckets, scopes: seq<Scope>, answers: seq<StoreAnswer>, t: Time, we: WindowEnd) {
    |answers| == |scopes| && forall i | 0 <= i < |scopes| :: Heard(m, scopes[i], answers[i], t, we)
  }

  /** Does finishing p with this figure debit anything? */
  predicate IsDebited(p: Permit, actual: Option<int64>) {
    !p.finished && actual.Some? && 0 <= actual.value
  }

  /** The event comes in time order, names permits that exist, and attempts hear what the store says. */
  ghost predicate Lawful(b: Books, e: Event, we: WindowEnd) {
    && b.now <= e.at
    && match e
       case Attempt(t, scopes, _, _, answers) => DistinctKeys(scopes) && HeardAll(b.m, scopes, answers, t, we)
       case Finish(_, i, _, _, _) => i < |b.permits|
       case Settle(_, scopes, _) => DistinctKeys(scopes)
  }

  function Next(b: Books, e: Event, we: WindowEnd): Books {
    match e
    case Attempt(t, scopes, bound, bounded, answers) =>
      if |answers| != |scopes| then b.(now := t)
      else
        var res := Reserve(b.ledger, scopes, bound, bounded, answers, t);
        Books(res.ledger, if res.Granted? then b.permits + [res.permit] else b.permits, b.m, t)
    case Finish(t, i, actual, complete, invalid) =>
      if i >= |b.permits| then b.(now := t)
      else
        var p := b.permits[i];
        Books(FinishedLedger(b.ledger, p, complete, invalid),
              b.permits[i := FinishedPermit(p, complete, invalid)],
              if IsDebited(p, actual) then DebitAll(b.m, p.scopes, actual.value, |p.scopes|, t, we) else b.m,
              t)
    case Settle(t, scopes, cost) => b.(m := DebitAll(b.m, scopes, cost, |scopes|, t, we), now := t)
  }

  function Start(now: Time): Books {
    Books(Ledger(map[], map[], 0), [], map[], now)
  }

  function After(start: Time, events: seq<Event>, we: WindowEnd): Books {
    if events == [] then Start(start) else Next(After(start, events[..|events| - 1], we), events[|events| - 1], we)
  }

  /** Every event of the run is lawful where it happens. */
  ghost predicate Run(start: Time, events: seq<Event>, we: WindowEnd) {
    forall i | 0 <= i < |events| :: Lawful(After(start, events[..i], we), events[i], we)
  }

  /** Scope i of an attempt is on the counter. */
  predicate OnKey(f: Frame, s: Scope) {
    s.key == f.key
  }

  /** The counter is always used with its own window kind, and has this limit in this window. */
  predicate Fixed(f: Frame, e: Event) {
    match e
    case Attempt(_, scopes, _, _, answers) =>
      forall i | 0 <= i < |scopes| && OnKey(f, scopes[i]) ::
        scopes[i].w == f.w && (i < |answers| && answers[i].ends == f.end ==> scopes[i].limit == f.limit)
    case Settle(_, scopes, _) => forall i | 0 <= i < |scopes| && OnKey(f, scopes[i]) :: scopes[i].w == f.w
    case Finish(_, _, _, _, _) => true
  }

  predicate AllFixed(f: Frame, events: seq<Event>) {
    forall i | 0 <= i < |events| :: Fixed(f, events[i])
  }

  // ---- What an admission decides --------------------------------------------------

  /** The state object that an admission of key looks at. */
  function StateFor(l: Ledger, key: string, ends: Time): MoneyState {
    if key in l.cur && l.cur[key] in l.heap && l.heap[l.cur[key]].ends == ends then l.heap[l.cur[key]]
    else MoneyState(ends, 0, false)
  }

  /** Checking one key leaves what every other key looks at alone. */
  lemma OpenedElsewhere(l: Ledger, key: string, ends: Time, other: string, at: Time)
    requires WellFormed(l) && other != key
    ensures StateFor(Opened(l, key, ends), other, at) == StateFor(l, other, at)
    ensures other in Opened(l, key, ends).cur <==> other in l.cur
    ensures other in l.cur ==> Opened(l, key, ends).cur[other] == l.cur[other]
  {
  }

  lemma {:induction false} ProbeElsewhere(l: Ledger, scopes: seq<Scope>, bound: money, bounded: bool, answers: seq<StoreAnswer>, n: nat, other: string, at: Time)
    requires n <= |scopes| == |answers| && WellFormed(l)
    requires forall i | 0 <= i < n :: scopes[i].key != other
    ensures var o := ProbeScopes(l, scopes, bound, bounded, answers, n).ledger;
            && StateFor(o, other, at) == StateFor(l, other, at)
            && (other in o.cur <==> other in l.cur) && (other in l.cur ==> o.cur[other] == l.cur[other])
  {
    if n > 0 {
      ProbeElsewhere(l, scopes, bound, bounded, answers, n - 1, other, at);
      ProbeWellFormed(l, scopes, bound, bounded, answers, n - 1);
      OpenedElsewhere(ProbeScopes(l, scopes, bound, bounded, answers, n - 1).ledger, scopes[n - 1].key, answers[n - 1].ends, other, at);
    }
  }

  /** The check of all hard scopes passes exactly when each of them admits on its own. */
  lemma {:induction false} ProbeDecision(l: Ledger, scopes: seq<Scope>, bound: money, bounded: bool, answers: seq<StoreAnswer>, n: nat)
    requires n <= |scopes| == |answers| && WellFormed(l) && DistinctKeys(scopes)
    ensures ProbeScopes(l, scopes, bound, bounded, answers, n).ok
       <==> forall i | 0 <= i < n && scopes[i].hard :: Admits(StateFor(l, scopes[i].key, answers[i].ends), scopes[i].limit, answers[i])
  {
    if n > 0 {
      var p := ProbeScopes(l, scopes, bound, bounded, answers, n - 1);
      var s := scopes[n - 1];
      ProbeDecision(l, scopes, bound, bounded, answers, n - 1);
      ProbeElsewhere(l, scopes, bound, bounded, answers, n - 1, s.key, answers[n - 1].ends);
      assert Opened(p.ledger, s.key, answers[n - 1].ends).heap[Opened(p.ledger, s.key, answers[n - 1].ends).cur[s.key]]
          == StateFor(p.ledger, s.key, answers[n - 1].ends);
    }
  }

  /** A hold carries what its scope asks for, and sits on the object its key uses now, for the window it was told. */
  ghost predicate HoldFor(p: Probe, scopes: seq<Scope>, bound: money, bounded: bool, answers: seq<StoreAnswer>, i: nat, h: Hold)
    requires i < |scopes| == |answers|
  {
    && scopes[i].hard && h.ref.key == scopes[i].key && h.ref.ends == answers[i].ends
    && h.ref.key in p.ledger.cur && p.ledger.cur[h.ref.key] == h.ref
    && h.amount == if bounded then bound as int else scopes[i].limit - answers[i].spent
  }

  ghost predicate FromScope(p: Probe, scopes: seq<Scope>, bound: money, bounded: bool, answers: seq<StoreAnswer>, n: nat, h: Hold)
    requires n <= |scopes| == |answers|
  {
    exists i | 0 <= i < n :: HoldFor(p, scopes, bound, bounded, answers, i, h)
  }

  ghost predicate HasHold(p: Probe, scopes: seq<Scope>, bound: money, bounded: bool, answers: seq<StoreAnswer>, i: nat)
    requires i < |scopes| == |answers|
  {
    exists h | h in p.holds :: HoldFor(p, scopes, bound, bounded, answers, i, h)
  }

  lemma HoldForKept(p: Probe, scopes: seq<Scope>, bound: money, bounded: bool, answers: seq<StoreAnswer>, n: nat, i: nat, h: Hold)
    requires i < n < |scopes| == |answers| && DistinctKeys(scopes) && HoldFor(p, scopes, bound, bounded, answers, i, h)
    ensures HoldFor(ProbeOne(p, scopes[n], answers[n], bound, bounded), scopes, bound, bounded, answers, i, h)
  {
    assert scopes[i].key != scopes[n].key;
  }

  /** Every hold comes from a hard scope checked so far, and a passed check holds on every hard scope. */
  ghost predicate Tally(p: Probe, scopes: seq<Scope>, bound: money, bounded: bool, answers: seq<StoreAnswer>, n: nat)
    requires n <= |scopes| == |answers|
  {
    && (forall h | h in p.holds :: FromScope(p, scopes, bound, bounded, answers, n, h))
    && (p.ok ==> forall i | 0 <= i < n && scopes[i].hard :: HasHold(p, scopes, bound, bounded, answers, i))
  }

  lemma TallyHolds(p: Probe, scopes: seq<Scope>, bound: money, bounded: bool, answers: seq<StoreAnswer>, n: nat)
    requires n < |scopes| == |answers| && DistinctKeys(scopes) && WellFormed(p.ledger) && Tally(p, scopes, bound, bounded, answers, n)
    ensures var q := ProbeOne(p, scopes[n], answers[n], bound, bounded);
            forall h | h in q.holds :: FromScope(q, scopes, bound, bounded, answers, n + 1, h)
  {
    var q := ProbeOne(p, scopes[n], answers[n], bound, bounded);
    forall h | h in q.holds
      ensures FromScope(q, scopes, bound, bounded, answers, n + 1, h)
    {
      if h in p.holds {
        var i :| 0 <= i < n && HoldFor(p, scopes, bound, bounded, answers, i, h);
        HoldForKept(p, scopes, bound, bounded, answers, n, i, h);
        assert HoldFor(q, scopes, bound, bounded, answers, i, h);
      } else {
        assert HoldFor(q, scopes, bound, bounded, answers, n, h);
      }
    }
  }

  lemma TallyScopes(p: Probe, scopes: seq<Scope>, bound: money, bounded: bool, answers: seq<StoreAnswer>, n: nat)
    requires n < |scopes| == |answers| && DistinctKeys(scopes) && WellFormed(p.ledger) && Tally(p, scopes, bound, bounded, answers, n)
    requires ProbeOne(p, scopes[n], answers[n], bound, bounded).ok
    ensures var q := ProbeOne(p, scopes[n], answers[n], bound, bounded);
            forall i | 0 <= i < n + 1 && scopes[i].hard :: HasHold(q, scopes, bound, bounded, answers, i)
  {
    var q := ProbeOne(p, scopes[n], answers[n], bound, bounded);
    forall i | 0 <= i < n + 1 && scopes[i].hard
      ensures HasHold(q, scopes, bound, bounded, answers, i)
    {
      if i < n {
        assert HasHold(p, scopes, bound, bounded, answers, i);
        var h :| h in p.holds && HoldFor(p, scopes, bound, bounded, answers, i, h);
        HoldForKept(p, scopes, bound, bounded, answers, n, i, h);
        assert h in q.holds;
      } else {
        var h := q.holds[|p.holds|];
        assert h in q.holds && HoldFor(q, scopes, bound, bounded, answers, n, h);
      }
    }
  }

  lemma TallyNext(p: Probe, scopes: seq<Scope>, bound: money, bounded: bool, answers: seq<StoreAnswer>, n: nat)
    requires n < |scopes| == |answers| && DistinctKeys(scopes) && WellFormed(p.ledger) && Tally(p, scopes, bound, bounded, answers, n)
    ensures Tally(ProbeOne(p, scopes[n], answers[n], bound, bounded), scopes, bound, bounded, answers, n + 1)
  {
    hide ProbeOne, DistinctKeys, WellFormed, FromScope, HasHold;
    TallyHolds(p, scopes, bound, bounded, answers, n);
    if ProbeOne(p, scopes[n], answers[n], bound, bounded).ok {
      TallyScopes(p, scopes, bound, bounded, answers, n);
    }
  }

  lemma {:induction false} ProbeWellFormed(l: Ledger, scopes: seq<Scope>, bound: money, bounded: bool, answers: seq<StoreAnswer>, n: nat)
    requires n <= |scopes| == |answers| && WellFormed(l)
    ensures WellFormed(ProbeScopes(l, scopes, bound, bounded, answers, n).ledger)
  {
    if n > 0 {
      ProbeWellFormed(l, scopes, bound, bounded, answers, n - 1);
    }
  }

  lemma {:induction false} ProbeTally(l: Ledger, scopes: seq<Scope>, bound: money, bounded: bool, answers: seq<StoreAnswer>, n: nat)
    requires n <= |scopes| == |answers| && WellFormed(l) && DistinctKeys(scopes)
    ensures Tally(ProbeScopes(l, scopes, bound, bounded, answers, n), scopes, bound, bounded, answers, n)
  {
    if n > 0 {
      hide ProbeOne, DistinctKeys, WellFormed, Tally;
      ProbeTally(l, scopes, bound, bounded, answers, n - 1);
      ProbeWellFormed(l, scopes, bound, bounded, answers, n - 1);
      TallyNext(ProbeScopes(l, scopes, bound, bounded, answers, n - 1), scopes, bound, bounded, answers, n - 1);
    }
  }

  // ---- What every event keeps -----------------------------------------------------

  /** What the counter has spent in the window. */
  function SpentIn(f: Frame, m: Buckets): money {
    if f.key in m && m[f.key].windowEnd == f.end then m[f.key].spent else 0
  }

  /** The counter in the store is one of its own windows, begun by now. */
  ghost predicate Stamped(f: Frame, m: Buckets, now: Time) {
    f.key in m ==> exists start :: start <= now && f.we(start, f.w) == m[f.key].windowEnd
  }

  /** A positive hold on the counter in the window. */
  predicate On(f: Frame, h: Hold) {
    h.ref.key == f.key && h.ref.ends == f.end && 0 < h.amount
  }

  /** Until the window ends, p's unreleased holds on it are on the object the counter uses now, and it has begun. */
  ghost predicate Anchored(f: Frame, l: Ledger, p: Permit, now: Time) {
    !p.released && now < f.end ==>
      forall h | h in p.holds && On(f, h) :: f.key in l.cur && l.cur[f.key] == h.ref && f.we(now, f.w) == f.end
  }

  ghost predicate SoundPermit(f: Frame, p: Permit) {
    (p.released ==> p.finished) && DistinctKeys(p.scopes) && forall i | 0 <= i < |p.scopes| && OnKey(f, p.scopes[i]) :: p.scopes[i].w == f.w
  }

  ghost predicate Inv(f: Frame, b: Books) {
    && Conserved(b.ledger, b.permits) && Stamped(f, b.m, b.now)
    && forall i | 0 <= i < |b.permits| :: SoundPermit(f, b.permits[i]) && Anchored(f, b.ledger, b.permits[i], b.now)
  }

  /** What an access to the counter finds: the window that contains the moment, and the spend in it. */
  lemma CurrentIn(f: Frame, m: Buckets, now: Time, t: Time)
    requires Calendar(f.we, f.w) && Stamped(f, m, now) && now <= t
    ensures var c := Current(m, f.key, f.w, t, f.we);
            c.windowEnd == f.we(t, f.w) && t < c.windowEnd && (c.windowEnd == f.end ==> c.spent == SpentIn(f, m))
  {
    if f.key in m {
      var start :| start <= now && f.we(start, f.w) == m[f.key].windowEnd;
      if t < m[f.key].windowEnd {
        assert f.we(t, f.w) == f.we(start, f.w);
      }
    }
  }

  /** Time passes. */
  lemma AnchoredLater(f: Frame, l: Ledger, p: Permit, now: Time, t: Time)
    requires Calendar(f.we, f.w) && Anchored(f, l, p, now) && now <= t
    ensures Anchored(f, l, p, t)
  {
  }

  lemma Later(f: Frame, b: Books, t: Time)
    requires Calendar(f.we, f.w) && Inv(f, b) && b.now <= t
    ensures Inv(f, b.(now := t))
  {
    hide Conserved, SoundPermit, Anchored;
    forall i | 0 <= i < |b.permits|
      ensures Anchored(f, b.ledger, b.permits[i], t)
    {
      AnchoredLater(f, b.ledger, b.permits[i], b.now, t);
    }
  }

  /** The counter keeps its object, unless that object is of another window. */
  ghost predicate KeepsObject(f: Frame, a: Ledger, b: Ledger) {
    f.key in a.cur && a.cur[f.key].ends == f.end ==> f.key in b.cur && b.cur[f.key] == a.cur[f.key]
  }

  lemma AnchoredKept(f: Frame, a: Ledger, b: Ledger, p: Permit, now: Time)
    requires Anchored(f, a, p, now) && (f.we(now, f.w) == f.end ==> KeepsObject(f, a, b))
    ensures Anchored(f, b, p, now)
  {
  }

  lemma OpenedKeepsObject(f: Frame, l: Ledger, key: string, ends: Time)
    requires WellFormed(l) && (key == f.key ==> ends == f.end)
    ensures KeepsObject(f, l, Opened(l, key, ends))
  {
  }

  lemma KeepsObjectTwice(f: Frame, a: Ledger, b: Ledger, c: Ledger)
    requires KeepsObject(f, a, b) && KeepsObject(f, b, c)
    ensures KeepsObject(f, a, c)
  {
  }

  /** In the window, the check leaves the counter's object in use. */
  lemma {:induction false} ProbeKeepsObject(f: Frame, l: Ledger, scopes: seq<Scope>, bound: money, bounded: bool, answers: seq<StoreAnswer>, n: nat)
    requires n <= |scopes| == |answers| && WellFormed(l)
    requires forall i | 0 <= i < |scopes| && OnKey(f, scopes[i]) :: answers[i].ends == f.end
    ensures KeepsObject(f, l, ProbeScopes(l, scopes, bound, bounded, answers, n).ledger)
  {
    if n > 0 {
      var p := ProbeScopes(l, scopes, bound, bounded, answers, n - 1);
      ProbeKeepsObject(f, l, scopes, bound, bounded, answers, n - 1);
      ProbeWellFormed(l, scopes, bound, bounded, answers, n - 1);
      OpenedKeepsObject(f, p.ledger, scopes[n - 1].key, if OnKey(f, scopes[n - 1]) then f.end else answers[n - 1].ends);
      hide KeepsObject, Opened, WellFormed;
      KeepsObjectTwice(f, l, p.ledger, ProbeScopes(l, scopes, bound, bounded, answers, n).ledger);
    }
  }

  /** The cleanup drops only objects on which nothing is owed. */
  lemma CleanedKeepsAnchors(f: Frame, b: Books, i: nat)
    requires Inv(f, b) && i < |b.permits|
    ensures Anchored(f, Cleaned(b.ledger, b.now), b.permits[i], b.now)
  {
    var p := b.permits[i];
    assert Anchored(f, b.ledger, p, b.now);
    if !p.released && b.now < f.end {
      forall h | h in p.holds && On(f, h)
        ensures f.key in Cleaned(b.ledger, b.now).cur
      {
        var j :| 0 <= j < |p.holds| && p.holds[j] == h;
        AmountOnPresent(p.holds, j);
        TotalOwedAtLeast(b.permits, i, h.ref);
        assert Balanced(b.ledger.heap[h.ref], TotalOwed(b.permits, h.ref));
      }
    }
  }

  /** The ledger an attempt's check starts from. */
  function StartOf(l: Ledger, scopes: seq<Scope>, t: Time): Ledger {
    if |l.cur| + |scopes| > MAX_STATES then Cleaned(l, t) else l
  }

  lemma StartInv(f: Frame, b: Books, scopes: seq<Scope>)
    requires Inv(f, b)
    ensures Inv(f, b.(ledger := StartOf(b.ledger, scopes, b.now)))
  {
    CleanedConserved(b.ledger, b.permits, b.now);
    hide Conserved, Stamped, SoundPermit, Anchored, Cleaned;
    forall i | 0 <= i < |b.permits|
      ensures Anchored(f, Cleaned(b.ledger, b.now), b.permits[i], b.now)
    {
      CleanedKeepsAnchors(f, b, i);
    }
  }

  /** In an attempt at now, every scope on the counter was told the window that contains now. */
  lemma ToldTheWindow(f: Frame, b: Books, scopes: seq<Scope>, answers: seq<StoreAnswer>, i: nat)
    requires Calendar(f.we, f.w) && Stamped(f, b.m, b.now) && HeardAll(b.m, scopes, answers, b.now, f.we)
    requires i < |scopes| && OnKey(f, scopes[i]) && scopes[i].w == f.w
    ensures answers[i].ends == f.we(b.now, f.w) && b.now < answers[i].ends
    ensures answers[i].decision == Allow && answers[i].ends == f.end ==> answers[i].spent == SpentIn(f, b.m)
  {
    CurrentIn(f, b.m, b.now, b.now);
    assert Heard(b.m, scopes[i], answers[i], b.now, f.we);
    hide Current;
  }

  /** An attempt whose scopes on the counter are told the window that contains now. */
  ghost predicate Told(f: Frame, scopes: seq<Scope>, answers: seq<StoreAnswer>, now: Time) {
    |answers| == |scopes| && forall i | 0 <= i < |scopes| && OnKey(f, scopes[i]) :: scopes[i].w == f.w && answers[i].ends == f.we(now, f.w)
  }

  lemma ProbedInv(f: Frame, b: Books, scopes: seq<Scope>, bound: money, bounded: bool, answers: seq<StoreAnswer>)
    requires Inv(f, b) && Told(f, scopes, answers, b.now)
    ensures Inv(f, b.(ledger := ProbeScopes(b.ledger, scopes, bound, bounded, answers, |scopes|).ledger))
  {
    var l := ProbeScopes(b.ledger, scopes, bound, bounded, answers, |scopes|).ledger;
    ProbeConserved(b.ledger, b.permits, scopes, bound, bounded, answers, |scopes|);
    if f.we(b.now, f.w) == f.end {
      ProbeKeepsObject(f, b.ledger, scopes, bound, bounded, answers, |scopes|);
    }
    hide Conserved, Stamped, SoundPermit, Anchored, KeepsObject, ProbeScopes, Extends;
    forall i | 0 <= i < |b.permits|
      ensures Anchored(f, l, b.permits[i], b.now)
    {
      AnchoredKept(f, b.ledger, l, b.permits[i], b.now);
    }
  }

  /** The holds of a passed check are anchored. */
  lemma GrantedAnchored(f: Frame, p: Probe, scopes: seq<Scope>, bound: money, bounded: bool, answers: seq<StoreAnswer>, now: Time)
    requires Told(f, scopes, answers, now) && forall h | h in p.holds :: FromScope(p, scopes, bound, bounded, answers, |scopes|, h)
    ensures Anchored(f, p.ledger, Permit(p.holds, scopes, false, false), now)
  {
    forall h | h in p.holds && On(f, h)
      ensures f.key in p.ledger.cur && p.ledger.cur[f.key] == h.ref && f.we(now, f.w) == f.end
    {
      assert FromScope(p, scopes, bound, bounded, answers, |scopes|, h);
      var i :| 0 <= i < |scopes| && HoldFor(p, scopes, bound, bounded, answers, i, h);
      assert OnKey(f, scopes[i]);
    }
  }

  lemma GrantedInv(f: Frame, b: Books, scopes: seq<Scope>, bound: money, bounded: bool, answers: seq<StoreAnswer>)
    requires Inv(f, b) && Told(f, scopes, answers, b.now) && DistinctKeys(scopes)
    ensures var p := ProbeScopes(b.ledger, scopes, bound, bounded, answers, |scopes|);
            Inv(f, b.(ledger := p.ledger.(heap := AddHolds(p.ledger.heap, p.holds, |p.holds|)),
                      permits := b.permits + [Permit(p.holds, scopes, false, false)]))
  {
    ProbedInv(f, b, scopes, bound, bounded, answers);
    ProbeFresh(b.ledger, b.permits, scopes, bound, bounded, answers, |scopes|);
    ProbeTally(b.ledger, scopes, bound, bounded, answers, |scopes|);
    var p := ProbeScopes(b.ledger, scopes, bound, bounded, answers, |scopes|);
    var permit := Permit(p.holds, scopes, false, false);
    assert HoldsIn(p.holds, p.ledger.heap) && NoneFrozen(p.holds, p.ledger.heap);
    GrantConserved(p.ledger, b.permits, permit);
    hide ProbeScopes, Conserved, Fresh, HoldsIn, NoneFrozen, FromScope, HasHold, Told, Stamped, AddHolds, DistinctKeys;
    GrantedAnchored(f, p, scopes, bound, bounded, answers, b.now);
    GrantedSound(f, scopes, answers, p.holds, b.now);
    hide SoundPermit;
    forall i | 0 <= i < |b.permits + [permit]|
      ensures SoundPermit(f, (b.permits + [permit])[i]) && Anchored(f, p.ledger, (b.permits + [permit])[i], b.now)
    {
      if i < |b.permits| {
        assert (b.permits + [permit])[i] == b.permits[i];
      }
    }
  }

  lemma GrantedSound(f: Frame, scopes: seq<Scope>, answers: seq<StoreAnswer>, holds: seq<Hold>, now: Time)
    requires Told(f, scopes, answers, now) && DistinctKeys(scopes)
    ensures SoundPermit(f, Permit(holds, scopes, false, false))
  {
  }

  /** One scope's debit, in the counter's terms. */
  lemma DebitOneIn(f: Frame, m: Buckets, now: Time, s: Scope, amount: int64, t: Time)
    requires Calendar(f.we, f.w) && Stamped(f, m, now) && now <= t && (OnKey(f, s) ==> s.w == f.w)
    ensures var m' := RefNext(m, Call(t, s.key, s.w, DebitOp(amount)), f.we);
            && Stamped(f, m', t)
            && (t < f.end ==> SpentIn(f, m) <= SpentIn(f, m'))
            && (if !OnKey(f, s) || amount < 0 then SpentIn(f, m') == SpentIn(f, m)
                else if f.we(t, f.w) == f.end then SpentIn(f, m') == SaturatingAdd(SpentIn(f, m), amount)
                else SpentIn(f, m') == 0)
  {
    CurrentIn(f, m, now, t);
    if f.key in m {
      var start :| start <= now && f.we(start, f.w) == m[f.key].windowEnd;
      assert t < f.end && m[f.key].windowEnd == f.end ==> f.we(t, f.w) == f.we(start, f.w);
    }
  }

  /** The debits of one settlement, in the counter's terms. */
  lemma {:induction false} DebitIn(f: Frame, m: Buckets, now: Time, scopes: seq<Scope>, amount: int64, n: nat, t: Time)
    requires Calendar(f.we, f.w) && Stamped(f, m, now) && now <= t && n <= |scopes| && DistinctKeys(scopes)
    requires forall i | 0 <= i < |scopes| && OnKey(f, scopes[i]) :: scopes[i].w == f.w
    ensures var m' := DebitAll(m, scopes, amount, n, t, f.we);
            && Stamped(f, m', t)
            && (t < f.end ==> SpentIn(f, m) <= SpentIn(f, m'))
            && (if amount < 0 || !NamedIn(f, scopes, n) then SpentIn(f, m') == SpentIn(f, m)
                else if f.we(t, f.w) == f.end then SpentIn(f, m') == SaturatingAdd(SpentIn(f, m), amount)
                else SpentIn(f, m') == 0)
  {
    if n > 0 {
      DebitIn(f, m, now, scopes, amount, n - 1, t);
      DebitOneIn(f, DebitAll(m, scopes, amount, n - 1, t, f.we), t, scopes[n - 1], amount, t);
      hide Stamped, SpentIn, Calendar, RefNext;
      if OnKey(f, scopes[n - 1]) {
        assert forall i | 0 <= i < n - 1 :: scopes[i].key != scopes[n - 1].key;
      }
    } else {
      StampedLater(f, m, now, t);
    }
  }

  lemma StampedLater(f: Frame, m: Buckets, now: Time, t: Time)
    requires Stamped(f, m, now) && now <= t
    ensures Stamped(f, m, t)
  {
  }

  /** One of the first n scopes is on the counter. */
  ghost predicate NamedIn(f: Frame, scopes: seq<Scope>, n: nat)
    requires n <= |scopes|
  {
    exists i | 0 <= i < n :: OnKey(f, scopes[i])
  }

  lemma FinishInv(f: Frame, b: Books, i: nat, complete: bool, invalid: bool, m: Buckets)
    requires Inv(f, b) && i < |b.permits| && Stamped(f, m, b.now)
    ensures Inv(f, Books(FinishedLedger(b.ledger, b.permits[i], complete, invalid),
                         b.permits[i := FinishedPermit(b.permits[i], complete, invalid)], m, b.now))
  {
    FinishConserves(b.ledger, b.permits, i, complete, invalid);
    hide Conserved, Stamped, FinishedLedger, Extends;
    var l := FinishedLedger(b.ledger, b.permits[i], complete, invalid);
    var after := b.permits[i := FinishedPermit(b.permits[i], complete, invalid)];
    forall j | 0 <= j < |b.permits|
      ensures SoundPermit(f, after[j]) && Anchored(f, l, after[j], b.now)
    {
      assert SoundPermit(f, b.permits[j]) && Anchored(f, b.ledger, b.permits[j], b.now);
    }
  }

  lemma AttemptInv(f: Frame, b: Books, e: Event)
    requires Calendar(f.we, f.w) && Inv(f, b) && Lawful(b, e, f.we) && Fixed(f, e) && e.Attempt? && b.now == e.at
    ensures Inv(f, Next(b, e, f.we))
  {
    forall i | 0 <= i < |e.scopes| && OnKey(f, e.scopes[i])
      ensures e.answers[i].ends == f.we(b.now, f.w)
    {
      ToldTheWindow(f, b, e.scopes, e.answers, i);
    }
    assert Told(f, e.scopes, e.answers, b.now);
    hide Inv, Calendar, ProbeScopes, AddHolds, Cleaned, HeardAll, Told, DistinctKeys, Fixed;
    StartInv(f, b, e.scopes);
    if e.scopes != [] && 0 <= e.bound {
      var b1 := b.(ledger := StartOf(b.ledger, e.scopes, b.now));
      ProbedInv(f, b1, e.scopes, e.bound, e.bounded, e.answers);
      GrantedInv(f, b1, e.scopes, e.bound, e.bounded, e.answers);
    }
  }

  lemma InvNext(f: Frame, b: Books, e: Event)
    requires Calendar(f.we, f.w) && Inv(f, b) && Lawful(b, e, f.we) && Fixed(f, e)
    ensures Inv(f, Next(b, e, f.we))
  {
    Later(f, b, e.at);
    var c := b.(now := e.at);
    match e
    case Attempt(_, _, _, _, _) => AttemptInv(f, c, e);
    case Finish(t, i, actual, complete, invalid) =>
      assert SoundPermit(f, c.permits[i]);
      if IsDebited(c.permits[i], actual) {
        DebitIn(f, c.m, t, c.permits[i].scopes, actual.value, |c.permits[i].scopes|, t);
      }
      FinishInv(f, c, i, complete, invalid, Next(b, e, f.we).m);
    case Settle(t, scopes, cost) =>
      DebitIn(f, c.m, t, scopes, cost, |scopes|, t);
  }

  lemma RunPrefix(start: Time, events: seq<Event>, we: WindowEnd, n: nat)
    requires Run(start, events, we) && n <= |events|
    ensures Run(start, events[..n], we)
  {
    assert forall i | 0 <= i < n :: events[..n][..i] == events[..i] && events[..n][i] == events[i];
  }

  lemma {:induction false} InvAfter(f: Frame, start: Time, events: seq<Event>)
    requires Calendar(f.we, f.w) && Run(start, events, f.we) && AllFixed(f, events)
    ensures Inv(f, After(start, events, f.we))
    decreases |events|
  {
    if events != [] {
      var n := |events| - 1;
      RunPrefix(start, events, f.we, n);
      InvAfter(f, start, events[..n]);
      hide Inv, Next, Calendar, Lawful;
      InvNext(f, After(start, events[..n], f.we), events[n]);
    }
  }
}
