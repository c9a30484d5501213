/**
 The log of a governor's run, and the terms of the overshoot promise: what the callers of the governor have to
 keep to, in terms of the acts alone.
 */
module GovernorTerms {
  import opened Basics
  import opened Int64s
  import opened BudgetStore
  import opened BudgetHistory
  import opened LocalMoney
  import opened LocalMoneyRuns
  import opened LocalMoneyContract
  import opened BudgetKeys
  import opened CounterReadings
  import opened CounterConservation
  import opened Governors
  import opened GovernorActs

  // ---- The log ----------------------------------------------------------------------------------

  /** What is known of a run so far: its events, the history, and for every permit its owner and the act it was granted to. */
  datatype Log = Log(start: Time, now: Time, events: seq<Event>, hist: seq<Activity>, owners: Owners, grants: seq<nat>)

  /** Permit k was granted to the reservation that the log names, in turn, and is finished if an act before n finished it. */
  ghost predicate IsGrant(acts: seq<Act>, log: Log, p: Permit, k: nat, n: nat)
    requires n <= |acts| && k < |log.grants| == |log.owners|
  {
    && log.grants[k] < n && acts[log.grants[k]].Reserving? && (0 < k ==> log.grants[k - 1] < log.grants[k])
    && log.owners[k] == (acts[log.grants[k]].s, acts[log.grants[k]].kp)
    && (p.finished <==> FinishedBefore(acts, log.grants, k, n))
  }

  ghost predicate GrantsInStep(acts: seq<Act>, log: Log, permits: seq<Permit>, n: nat)
    requires n <= |acts|
  {
    && |log.grants| == |log.owners| == |permits|
    && (forall k | 0 <= k < |permits| :: IsGrant(acts, log, permits[k], k, n)) && Reservations(acts, log.grants)
    && log.hist == SettledBy(acts, log.grants, n)
  }

  lemma {:induction false} SettledMoreGrants(acts: seq<Act>, grants: seq<nat>, at: nat, n: nat)
    requires n <= at + 1 && at < |acts| && acts[at].Reserving? && Reservations(acts, grants)
    ensures SettledBy(acts, grants + [at], n) == SettledBy(acts, grants, n)
  {
    if n > 0 {
      SettledMoreGrants(acts, grants, at, n - 1);
      var i := n - 1;
      if acts[i].Finishing? && acts[i].permit < |grants| {
        assert FinishedBefore(acts, grants + [at], acts[i].permit, i) <==> FinishedBefore(acts, grants, acts[i].permit, i);
      }
    }
  }

  /** A reservation was granted. */
  lemma GrantAdded(acts: seq<Act>, log: Log, permits: seq<Permit>, p: Permit, n: nat, log': Log)
    requires n < |acts| && acts[n].Reserving? && GrantsInStep(acts, log, permits, n) && !p.finished
    requires log'.grants == log.grants + [n] && log'.owners == log.owners + [(acts[n].s, acts[n].kp)] && log'.hist == log.hist
    ensures GrantsInStep(acts, log', permits + [p], n + 1)
  {
    SettledMoreGrants(acts, log.grants, n, n + 1);
    hide SettledBy;
    forall k | 0 <= k < |permits + [p]|
      ensures IsGrant(acts, log', (permits + [p])[k], k, n + 1)
    {
      if k < |permits| {
        assert IsGrant(acts, log, permits[k], k, n);
      } else if 0 < k {
        assert IsGrant(acts, log, permits[k - 1], k - 1, n);
      }
    }
    assert SettledBy(acts, log.grants, n + 1) == log.hist + Entry(acts, log.grants, n);
  }

  /** Nothing was granted or finished. */
  lemma GrantsKept(acts: seq<Act>, log: Log, permits: seq<Permit>, n: nat, log': Log)
    requires n < |acts| && GrantsInStep(acts, log, permits, n) && (acts[n].Finishing? ==> |permits| <= acts[n].permit)
    requires log'.grants == log.grants && log'.owners == log.owners && log'.hist == log.hist + if acts[n].Settling? then Billed(acts[n]) else []
    ensures GrantsInStep(acts, log', permits, n + 1)
  {
    forall k | 0 <= k < |permits|
      ensures IsGrant(acts, log', permits[k], k, n + 1)
    {
      assert IsGrant(acts, log, permits[k], k, n);
    }
  }

  /** A permit was finished, for the first time or again. */
  lemma GrantFinished(acts: seq<Act>, log: Log, permits: seq<Permit>, permits': seq<Permit>, e: Event, n: nat, log': Log)
    requires n < |acts| && acts[n].Finishing? && acts[n].permit < |permits| && GrantsInStep(acts, log, permits, n)
    requires |permits'| == |permits| && forall k | 0 <= k < |permits| :: permits'[k].finished == (permits[k].finished || k == acts[n].permit)
    requires e == Finish(acts[n].at, acts[n].permit, acts[n].actual, acts[n].complete, acts[n].invalid)
    requires log'.grants == log.grants && log'.owners == log.owners
    requires log'.hist == Recorded(log.hist, permits[acts[n].permit], log.owners[acts[n].permit], e)
    ensures GrantsInStep(acts, log', permits', n + 1)
  {
    var i := acts[n].permit;
    assert IsGrant(acts, log, permits[i], i, n);
    forall k | 0 <= k < |permits|
      ensures IsGrant(acts, log', permits'[k], k, n + 1)
    {
      assert IsGrant(acts, log, permits[k], k, n);
    }
    hide SettledBy;
    assert SettledBy(acts, log.grants, n + 1) == log.hist + Entry(acts, log.grants, n);
  }

  lemma RunNext(start: Time, events: seq<Event>, e: Event, we: WindowEnd)
    ensures After(start, events + [e], we) == Next(After(start, events, we), e, we)
    ensures Run(start, events, we) && Lawful(After(start, events, we), e, we) ==> Run(start, events + [e], we)
  {
    assert (events + [e])[..|events|] == events;
    hide Lawful, Next;
    forall i | 0 <= i < |events|
      ensures (events + [e])[..i] == events[..i]
    {
    }
  }

  // ---- The terms of the promise ------------------------------------------------------------------

  /** A counter in its window that ends at end, the limit on it, and the largest bound of an attempt. */
  datatype Terms = Terms(c: Counter, end: Time, limit: money, bound: money)

  function FrameOf(g: Policies, terms: Terms, we: WindowEnd): Frame {
    Frame(CounterKey(g, terms.c), WindowOf(g, terms.c), terms.end, terms.limit, we)
  }

  /** Is a request made at at charged to the counter in the window? */
  predicate InTerms(g: Policies, s: Subject, kp: KeyPolicy, at: Time, terms: Terms, we: WindowEnd) {
    Charged(g, s, kp, terms.c) && we(at, WindowOf(g, terms.c)) == terms.end
  }

  /** The request's limit on the counter is this one, and enforced. */
  predicate Enforced(g: Policies, s: Subject, kp: KeyPolicy, c: Counter, limit: money) {
    forall i | 0 <= i < |g.Scopes(s, kp)| && g.Scopes(s, kp)[i].key == CounterKey(g, c) :: g.Scopes(s, kp)[i].hard && g.Scopes(s, kp)[i].limit == limit
  }

  /**
   Reservations on the counter in the window are enforced and bounded; costs land in it only from attempts
   reserved in it, at most as large as their own bound.
   */
  predicate Prudent(g: Policies, acts: seq<Act>, grants: seq<nat>, i: nat, terms: Terms, we: WindowEnd)
    requires i < |acts| && Reservations(acts, grants)
  {
    match acts[i]
    case Reserving(at, s, kp, bound, bounded) =>
      InTerms(g, s, kp, at, terms, we) ==> Enforced(g, s, kp, terms.c, terms.limit) && bounded && bound <= terms.bound
    case Settling(at, s, kp, u) => InTerms(g, s, kp, at, terms, we) && u.tokens.Some? && u.price.Some? ==> u.price.value == 0
    case Finishing(at, k, actual, _, _) =>
      k < |grants| && Entry(acts, grants, i) != [] && InTerms(g, acts[grants[k]].s, acts[grants[k]].kp, at, terms, we) ==>
        we(acts[grants[k]].at, WindowOf(g, terms.c)) == terms.end && actual.value <= acts[grants[k]].bound
    case Checking(_, _, _, _, _) => true
  }

  predicate AllPrudent(g: Policies, acts: seq<Act>, grants: seq<nat>, n: nat, terms: Terms, we: WindowEnd)
    requires n <= |acts| && Reservations(acts, grants)
  {
    forall i | 0 <= i < n :: Prudent(g, acts, grants, i, terms, we)
  }

  /** The event is what the act does. */
  predicate Performs(g: Policies, a: Act, e: Event) {
    match a
    case Reserving(at, s, kp, bound, bounded) => e.Attempt? && e.at == at && (e.scopes, e.bound, e.bounded) == (g.Scopes(s, kp), bound, bounded)
    case Finishing(at, k, actual, complete, invalid) => e == Finish(at, k, actual, complete, invalid)
    case Settling(_, _, _, _) => e == Bill(g, a)
    case Checking(_, _, _, _, _) => false
  }

  /** A permit reserved in the window holds its bound there. */
  ghost predicate HoldsItsBound(g: Policies, r: Act, p: Permit, terms: Terms, we: WindowEnd) {
    r.Reserving? && (InTerms(g, r.s, r.kp, r.at, terms, we) ==> r.bound <= FrameAmount(FrameOf(g, terms, we), p.holds))
  }

  ghost predicate HoldTheirBounds(g: Policies, acts: seq<Act>, grants: seq<nat>, permits: seq<Permit>, terms: Terms, we: WindowEnd) {
    && |grants| == |permits| && Reservations(acts, grants)
    && forall k | 0 <= k < |permits| :: HoldsItsBound(g, acts[grants[k]], permits[k], terms, we)
  }

  lemma ScopesInTerms(g: Policies, s: Subject, kp: KeyPolicy, terms: Terms, we: WindowEnd)
    requires Known(terms.c)
    ensures NamedIn(FrameOf(g, terms, we), g.Scopes(s, kp), |g.Scopes(s, kp)|) <==> Charged(g, s, kp, terms.c)
    ensures forall i | 0 <= i < |g.Scopes(s, kp)| && OnKey(FrameOf(g, terms, we), g.Scopes(s, kp)[i]) :: g.Scopes(s, kp)[i].w == WindowOf(g, terms.c)
  {
    ScopeKeysAreCharges(g, s, kp, terms.c);
    ScopeWindows(g, s, kp, terms.c);
    hide Policies.Scopes, CounterKey, WindowOf, Charged;
  }

  /** A reservation that keeps to the terms. */
  lemma AttemptInTerms(g: Policies, a: Act, b: Books, e: Event, terms: Terms, we: WindowEnd)
    requires Months(g, we) && Known(terms.c) && a.Reserving? && Performs(g, a, e)
    requires InTerms(g, a.s, a.kp, a.at, terms, we) ==> Enforced(g, a.s, a.kp, terms.c, terms.limit) && a.bounded && a.bound <= terms.bound
    requires Inv(FrameOf(g, terms, we), b) && Lawful(b, e, we)
    ensures Fixed(FrameOf(g, terms, we), e) && Disciplined(FrameOf(g, terms, we), b, e, terms.bound)
    ensures forall i | 0 <= i < |e.scopes| && OnKey(FrameOf(g, terms, we), e.scopes[i]) :: e.answers[i].ends == we(e.at, WindowOf(g, terms.c))
  {
    var f := FrameOf(g, terms, we);
    ScopesInTerms(g, a.s, a.kp, terms, we);
    Later(f, b, e.at);
    hide Policies.Scopes, CounterKey, Charged, Conserved, LocalMoneyRuns.Stamped, HeardAll, DistinctKeys, Calendar;
    forall i | 0 <= i < |e.scopes| && OnKey(f, e.scopes[i])
      ensures e.answers[i].ends == we(e.at, f.w) && Charged(g, a.s, a.kp, terms.c)
    {
      ToldTheWindow(f, b.(now := e.at), e.scopes, e.answers, i);
      assert NamedIn(f, e.scopes, |e.scopes|);
    }
  }

  /** What it is granted holds its bound. */
  lemma GrantInTerms(g: Policies, a: Act, b: Books, e: Event, terms: Terms, we: WindowEnd)
    requires Months(g, we) && Known(terms.c) && a.Reserving? && Performs(g, a, e)
    requires InTerms(g, a.s, a.kp, a.at, terms, we) ==> Enforced(g, a.s, a.kp, terms.c, terms.limit) && a.bounded && a.bound <= terms.bound
    requires Inv(FrameOf(g, terms, we), b) && Lawful(b, e, we) && Reserve(b.ledger, e.scopes, e.bound, e.bounded, e.answers, e.at).Granted?
    ensures |Next(b, e, we).permits| == |b.permits| + 1 && HoldsItsBound(g, a, Next(b, e, we).permits[|b.permits|], terms, we)
  {
    var f := FrameOf(g, terms, we);
    AttemptInTerms(g, a, b, e, terms, we);
    ScopesInTerms(g, a.s, a.kp, terms, we);
    GrantedPermit(b, e, we);
    Later(f, b, e.at);
    StartInv(f, b.(now := e.at), e.scopes);
    hide Policies.Scopes, CounterKey, Charged, Conserved, LocalMoneyRuns.Stamped, HeardAll, Calendar, Reserve, Next, StartOf, ProbeScopes, DistinctKeys;
    if InTerms(g, a.s, a.kp, a.at, terms, we) {
      var i :| 0 <= i < |e.scopes| && OnKey(f, e.scopes[i]);
      HoldsTheBound(f, b.(ledger := StartOf(b.ledger, e.scopes, e.at)), e.scopes, e.bound, e.answers, i);
    }
  }

  /** A finish that keeps to the terms costs at most what its permit holds. */
  lemma FinishInTerms(g: Policies, acts: seq<Act>, n: nat, log: Log, b: Books, e: Event, terms: Terms, we: WindowEnd)
    requires Known(terms.c) && n < |acts| && acts[n].Finishing? && acts[n].permit < |b.permits| && Performs(g, acts[n], e)
    requires GrantsInStep(acts, log, b.permits, n) && HoldTheirBounds(g, acts, log.grants, b.permits, terms, we)
    requires var (s, kp) := log.owners[acts[n].permit]; b.permits[acts[n].permit].scopes == g.Scopes(s, kp)
    requires Prudent(g, acts, log.grants, n, terms, we)
    ensures Fixed(FrameOf(g, terms, we), e) && Disciplined(FrameOf(g, terms, we), b, e, terms.bound)
  {
    var k := acts[n].permit;
    var r := acts[log.grants[k]];
    assert IsGrant(acts, log, b.permits[k], k, n) && HoldsItsBound(g, r, b.permits[k], terms, we);
    ScopesInTerms(g, r.s, r.kp, terms, we);
    hide Policies.Scopes, CounterKey, Charged, SettledBy, FrameAmount, WindowOf;
  }

  /** A direct settlement that keeps to the terms costs nothing in the window. */
  lemma SettleInTerms(g: Policies, a: Act, b: Books, e: Event, terms: Terms, we: WindowEnd)
    requires Known(terms.c) && a.Settling? && Performs(g, a, e)
    requires InTerms(g, a.s, a.kp, a.at, terms, we) && a.u.tokens.Some? && a.u.price.Some? ==> a.u.price.value == 0
    ensures Fixed(FrameOf(g, terms, we), e) && Disciplined(FrameOf(g, terms, we), b, e, terms.bound)
  {
    ScopesInTerms(g, a.s, a.kp, terms, we);
    hide Policies.Scopes, CounterKey, Charged;
  }

  // ---- Over a whole run -------------------------------------------------------------------------

  /** For all terms that the first n acts keep to, the log's run is fixed and disciplined, and permits hold their bounds. */
  ghost predicate TermsHold(g: Policies, acts: seq<Act>, n: nat, log: Log, we: WindowEnd)
    requires n <= |acts|
  {
    Reservations(acts, log.grants) && forall terms: Terms | Known(terms.c) && AllPrudent(g, acts, log.grants, n, terms, we) :: TheseHold(g, acts, log, terms, we)
  }

  ghost predicate TheseHold(g: Policies, acts: seq<Act>, log: Log, terms: Terms, we: WindowEnd) {
    && AllFixed(FrameOf(g, terms, we), log.events) && AllDisciplined(FrameOf(g, terms, we), log.start, log.events, terms.bound)
    && HoldTheirBounds(g, acts, log.grants, After(log.start, log.events, we).permits, terms, we)
  }

  lemma EntryMoreGrants(acts: seq<Act>, grants: seq<nat>, at: nat, i: nat)
    requires i <= at < |acts| && acts[at].Reserving? && Reservations(acts, grants)
    ensures Entry(acts, grants + [at], i) == Entry(acts, grants, i)
  {
    if acts[i].Finishing? && acts[i].permit < |grants| {
      assert FinishedBefore(acts, grants + [at], acts[i].permit, i) <==> FinishedBefore(acts, grants, acts[i].permit, i);
    }
  }

  /** What the acts keep to once more permits are known they kept to before. */
  lemma PrudentBefore(g: Policies, acts: seq<Act>, grants: seq<nat>, n: nat, terms: Terms, we: WindowEnd)
    requires n < |acts| && acts[n].Reserving? && Reservations(acts, grants) && AllPrudent(g, acts, grants + [n], n + 1, terms, we)
    ensures AllPrudent(g, acts, grants, n, terms, we)
  {
    hide InTerms, Enforced, Entry;
    forall i | 0 <= i < n
      ensures Prudent(g, acts, grants, i, terms, we)
    {
      assert Prudent(g, acts, grants + [n], i, terms, we);
      EntryMoreGrants(acts, grants, n, i);
    }
  }

  lemma OneMoreEvent(f: Frame, start: Time, events: seq<Event>, e: Event, bound: money)
    requires AllFixed(f, events) && AllDisciplined(f, start, events, bound)
    requires Fixed(f, e) && Disciplined(f, After(start, events, f.we), e, bound)
    ensures AllFixed(f, events + [e]) && AllDisciplined(f, start, events + [e], bound)
  {
    hide Fixed, Disciplined, After;
    forall i | 0 <= i < |events + [e]|
      ensures Disciplined(f, After(start, (events + [e])[..i], f.we), (events + [e])[i], bound)
    {
      assert (events + [e])[..i] == events[..i];
    }
    assert events[..|events|] == events;
  }

  /** The holds of a permit never change. */
  lemma BoundsKept(g: Policies, acts: seq<Act>, grants: seq<nat>, b: Books, e: Event, terms: Terms, we: WindowEnd)
    requires HoldTheirBounds(g, acts, grants, b.permits, terms, we) && |Next(b, e, we).permits| == |b.permits|
    ensures HoldTheirBounds(g, acts, grants, Next(b, e, we).permits, terms, we)
  {
    hide InTerms, FrameAmount;
    forall k | 0 <= k < |b.permits|
      ensures HoldsItsBound(g, acts[grants[k]], Next(b, e, we).permits[k], terms, we)
    {
      assert HoldsItsBound(g, acts[grants[k]], b.permits[k], terms, we);
      PermitKept(b, e, we, k);
    }
  }

  /** An act other than a granted reservation. */
  lemma TermsKept(g: Policies, acts: seq<Act>, n: nat, log: Log, log': Log, b: Books, e: Event, terms: Terms, we: WindowEnd)
    requires Months(g, we) && n < |acts| && Performs(g, acts[n], e) && Known(terms.c) && LocalMoneyRuns.Run(log.start, log.events, we)
    requires b == After(log.start, log.events, we) && GrantsInStep(acts, log, b.permits, n) && Lawful(b, e, we)
    requires acts[n].Finishing? ==> var (s, kp) := log.owners[acts[n].permit]; b.permits[acts[n].permit].scopes == g.Scopes(s, kp)
    requires log' == log.(now := log'.now, events := log.events + [e], hist := log'.hist) && |Next(b, e, we).permits| == |b.permits|
    requires TermsHold(g, acts, n, log, we) && AllPrudent(g, acts, log.grants, n + 1, terms, we)
    ensures TheseHold(g, acts, log', terms, we)
  {
    var f := FrameOf(g, terms, we);
    assert AllPrudent(g, acts, log.grants, n, terms, we) && Prudent(g, acts, log.grants, n, terms, we) && TheseHold(g, acts, log, terms, we);
    InvAfter(f, log.start, log.events);
    RunNext(log.start, log.events, e, we);
    hide Inv, After, LocalMoneyRuns.Run, HoldTheirBounds, GrantsInStep, AllPrudent, Fixed, Disciplined, AllFixed, AllDisciplined, Next, TermsHold;
    match acts[n] {
      case Reserving(_, _, _, _, _) => AttemptInTerms(g, acts[n], b, e, terms, we);
      case Finishing(_, _, _, _, _) => FinishInTerms(g, acts, n, log, b, e, terms, we);
      case Settling(_, _, _, _) => SettleInTerms(g, acts[n], b, e, terms, we);
    }
    OneMoreEvent(f, log.start, log.events, e, terms.bound);
    BoundsKept(g, acts, log.grants, b, e, terms, we);
  }

  lemma TermsGranted(g: Policies, acts: seq<Act>, n: nat, log: Log, log': Log, b: Books, e: Event, terms: Terms, we: WindowEnd)
    requires Months(g, we) && n < |acts| && acts[n].Reserving? && Performs(g, acts[n], e) && Known(terms.c) && LocalMoneyRuns.Run(log.start, log.events, we)
    requires b == After(log.start, log.events, we) && GrantsInStep(acts, log, b.permits, n) && Lawful(b, e, we)
    requires log' == log.(now := log'.now, events := log.events + [e], grants := log.grants + [n], owners := log'.owners)
    requires Reserve(b.ledger, e.scopes, e.bound, e.bounded, e.answers, e.at).Granted?
    requires TermsHold(g, acts, n, log, we) && AllPrudent(g, acts, log.grants + [n], n + 1, terms, we)
    ensures TheseHold(g, acts, log', terms, we)
  {
    var f := FrameOf(g, terms, we);
    PrudentBefore(g, acts, log.grants, n, terms, we);
    assert Prudent(g, acts, log.grants + [n], n, terms, we) && TheseHold(g, acts, log, terms, we);
    InvAfter(f, log.start, log.events);
    RunNext(log.start, log.events, e, we);
    GrantedPermit(b, e, we);
    hide Inv, After, LocalMoneyRuns.Run, AllPrudent, Fixed, Disciplined, AllFixed, AllDisciplined, Next, TermsHold, Reserve, GrantsInStep, Reservations;
    AttemptInTerms(g, acts[n], b, e, terms, we);
    GrantInTerms(g, acts[n], b, e, terms, we);
    OneMoreEvent(f, log.start, log.events, e, terms.bound);
    BoundsGrow(g, acts, log.grants, n, b.permits, Next(b, e, we).permits, terms, we);
  }

  lemma BoundsGrow(g: Policies, acts: seq<Act>, grants: seq<nat>, n: nat, permits: seq<Permit>, permits': seq<Permit>, terms: Terms, we: WindowEnd)
    requires HoldTheirBounds(g, acts, grants, permits, terms, we) && n < |acts| && acts[n].Reserving?
    requires |permits'| == |permits| + 1 && permits'[..|permits|] == permits && HoldsItsBound(g, acts[n], permits'[|permits|], terms, we)
    ensures HoldTheirBounds(g, acts, grants + [n], permits', terms, we)
  {
    hide HoldsItsBound;
    forall k | 0 <= k < |permits'|
      ensures HoldsItsBound(g, acts[(grants + [n])[k]], permits'[k], terms, we)
    {
      if k < |permits| {
        assert permits'[..|permits|][k] == permits'[k];
      }
    }
  }

  lemma TermsAfterEvent(g: Policies, acts: seq<Act>, n: nat, log: Log, log': Log, b: Books, e: Event, we: WindowEnd)
    requires Months(g, we) && n < |acts| && Performs(g, acts[n], e) && LocalMoneyRuns.Run(log.start, log.events, we)
    requires b == After(log.start, log.events, we) && GrantsInStep(acts, log, b.permits, n) && Lawful(b, e, we)
    requires acts[n].Finishing? ==> var (s, kp) := log.owners[acts[n].permit]; b.permits[acts[n].permit].scopes == g.Scopes(s, kp)
    requires log' == log.(now := log'.now, events := log.events + [e], hist := log'.hist) && |Next(b, e, we).permits| == |b.permits|
    requires TermsHold(g, acts, n, log, we)
    ensures TermsHold(g, acts, n + 1, log', we)
  {
    assert Reservations(acts, log.grants);
    hide TheseHold, AllPrudent, Next, After, GrantsInStep, LocalMoneyRuns.Run, Lawful, Months, Performs, Policies.Scopes;
    forall terms: Terms | Known(terms.c) && AllPrudent(g, acts, log'.grants, n + 1, terms, we)
      ensures TheseHold(g, acts, log', terms, we)
    {
      TermsKept(g, acts, n, log, log', b, e, terms, we);
    }
  }

  lemma TermsAfterGrant(g: Policies, acts: seq<Act>, n: nat, log: Log, log': Log, b: Books, e: Event, we: WindowEnd)
    requires Months(g, we) && n < |acts| && acts[n].Reserving? && Performs(g, acts[n], e) && LocalMoneyRuns.Run(log.start, log.events, we)
    requires b == After(log.start, log.events, we) && GrantsInStep(acts, log, b.permits, n) && Lawful(b, e, we)
    requires log' == log.(now := log'.now, events := log.events + [e], grants := log.grants + [n], owners := log'.owners)
    requires |Next(b, e, we).permits| == |b.permits| + 1 && TermsHold(g, acts, n, log, we)
    ensures TermsHold(g, acts, n + 1, log', we)
  {
    if !Reserve(b.ledger, e.scopes, e.bound, e.bounded, e.answers, e.at).Granted? {
      RefusedPermits(b, e, we);
    }
    hide TheseHold, AllPrudent, Next, After, GrantsInStep, LocalMoneyRuns.Run, Lawful, Months, Performs, Policies.Scopes, Reserve;
    forall terms: Terms | Known(terms.c) && AllPrudent(g, acts, log'.grants, n + 1, terms, we)
      ensures TheseHold(g, acts, log', terms, we)
    {
      TermsGranted(g, acts, n, log, log', b, e, terms, we);
    }
  }

  /** An act without an event. */
  lemma TermsIdle(g: Policies, acts: seq<Act>, n: nat, log: Log, log': Log, we: WindowEnd)
    requires n < |acts| && TermsHold(g, acts, n, log, we) && log' == log.(now := log'.now)
    ensures TermsHold(g, acts, n + 1, log', we)
  {
    hide After, HoldTheirBounds, AllFixed, AllDisciplined, Prudent;
    forall terms: Terms | Known(terms.c) && AllPrudent(g, acts, log'.grants, n + 1, terms, we)
      ensures TheseHold(g, acts, log', terms, we)
    {
      assert AllPrudent(g, acts, log.grants, n, terms, we);
      assert TheseHold(g, acts, log, terms, we);
    }
  }
}
