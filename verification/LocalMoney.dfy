/**
 Local money reservations (internal/governance/local_money.go).

 Before a provider attempt its bound is held on every hard scope; finishing debits first and
 releases only proved complete usage. Holds point at per-window state objects: an object is named by
 a Ref, the heap maps Refs to contents, and cur says which object a key's admissions use now.
 */
module LocalMoney {
  import opened Basics
  import opened Int64s
  import opened BudgetStore

  const MAX_STATES := 100_000

  datatype Scope = Scope(key: string, w: Window, limit: money, hard: bool)

  /** The identity of a state object: the key and the window's end it was made for, and its place in allocation order. */
  datatype Ref = Ref(key: string, ends: Time, serial: nat)
  datatype MoneyState = MoneyState(ends: Time, held: int, frozen: bool)
  datatype Hold = Hold(ref: Ref, amount: money)

  datatype Ledger = Ledger(cur: map<string, Ref>, heap: map<Ref, MoneyState>, next: nat)

  /** A permit as its owner and the ledger see it; released once its holds were given back. */
  datatype Permit = Permit(holds: seq<Hold>, scopes: seq<Scope>, finished: bool, released: bool)

  /** What the spend store said about one scope during a reservation. */
  datatype StoreAnswer = StoreAnswer(ends: Time, spent: money, decision: Decision)

  datatype Reservation =
    | Ungoverned(ledger: Ledger)
    | Refused(ledger: Ledger)
    | Granted(ledger: Ledger, permit: Permit)

  // ---- What a reservation does -------------------------------------------------

  predicate Keep(st: MoneyState, t: Time) {
    t < st.ends && (st.held != 0 || st.frozen)
  }

  function Cleaned(l: Ledger, t: Time): Ledger {
    l.(cur := map k | k in l.cur && l.cur[k] in l.heap && Keep(l.heap[l.cur[k]], t) :: l.cur[k])
  }

  /** key's state object for the window that ends at ends, made new if there is none. */
  function Opened(l: Ledger, key: string, ends: Time): Ledger {
    if key in l.cur && l.cur[key] in l.heap && l.heap[l.cur[key]].ends == ends then l
    else
      var r := Ref(key, ends, l.next);
      Ledger(l.cur[key := r], l.heap[r := MoneyState(ends, 0, false)], l.next + 1)
  }

  predicate Admits(st: MoneyState, limit: money, a: StoreAnswer) {
    !st.frozen && a.spent < limit && st.held < limit - a.spent && a.decision == Allow
  }

  datatype Probe = Probe(ledger: Ledger, holds: seq<Hold>, ok: bool)

  /** The check of one scope, after the scopes before it left p. */
  function ProbeOne(p: Probe, s: Scope, a: StoreAnswer, bound: money, bounded: bool): Probe {
    if !p.ok || !s.hard then p
    else
      var o := Opened(p.ledger, s.key, a.ends);
      var r := o.cur[s.key];
      if !Admits(o.heap[r], s.limit, a) then Probe(o, p.holds, false)
      else Probe(o, p.holds + [Hold(r, if bounded then bound else s.limit - a.spent)], true)
  }

  /** The checking pass over the first n scopes, stopping at the first refusal. */
  function ProbeScopes(l: Ledger, scopes: seq<Scope>, bound: money, bounded: bool, answers: seq<StoreAnswer>, n: nat): Probe
    requires n <= |scopes| == |answers|
  {
    if n == 0 then Probe(l, [], true)
    else ProbeOne(ProbeScopes(l, scopes, bound, bounded, answers, n - 1), scopes[n - 1], answers[n - 1], bound, bounded)
  }

  function AddHold(st: MoneyState, amount: money): MoneyState {
    if amount > MAX_INT64 - st.held then st.(held := MAX_INT64, frozen := true) else st.(held := st.held + amount)
  }

  /** The heap after the first n holds were added. */
  function AddHolds(heap: map<Ref, MoneyState>, holds: seq<Hold>, n: nat): map<Ref, MoneyState>
    requires n <= |holds|
  {
    if n == 0 then heap
    else
      var before := AddHolds(heap, holds, n - 1);
      var h := holds[n - 1];
      if h.ref in before then before[h.ref := AddHold(before[h.ref], h.amount)] else before
  }

  function Reserve(l: Ledger, scopes: seq<Scope>, bound: int64, bounded: bool, answers: seq<StoreAnswer>, t: Time): Reservation
    requires |answers| == |scopes|
  {
    if scopes == [] then Ungoverned(l)
    else if bound < 0 then Refused(l)
    else
      var l1 := if |l.cur| + |scopes| > MAX_STATES then Cleaned(l, t) else l;
      if |l1.cur| + |scopes| > MAX_STATES then Refused(l1)
      else
        var p := ProbeScopes(l1, scopes, bound, bounded, answers, |scopes|);
        if !p.ok then Refused(p.ledger)
        else Granted(p.ledger.(heap := AddHolds(p.ledger.heap, p.holds, |p.holds|)), Permit(p.holds, scopes, false, false))
  }

  // ---- What finishing does ------------------------------------------------------

  function Settled(st: MoneyState, amount: money, complete: bool, invalid: bool): MoneyState {
    if complete && !invalid then st.(held := st.held - amount)
    else if invalid then st.(frozen := true)
    else st
  }

  function SettleHolds(heap: map<Ref, MoneyState>, holds: seq<Hold>, complete: bool, invalid: bool, n: nat): map<Ref, MoneyState>
    requires n <= |holds|
  {
    if n == 0 then heap
    else
      var before := SettleHolds(heap, holds, complete, invalid, n - 1);
      var h := holds[n - 1];
      if h.ref in before then before[h.ref := Settled(before[h.ref], h.amount, complete, invalid)] else before
  }

  function FinishedPermit(p: Permit, complete: bool, invalid: bool): Permit {
    if p.finished then p else p.(finished := true, released := complete && !invalid)
  }

  function FinishedLedger(l: Ledger, p: Permit, complete: bool, invalid: bool): Ledger {
    if p.finished then l else l.(heap := SettleHolds(l.heap, p.holds, complete, invalid, |p.holds|))
  }

  // ---- Liability conservation ----------------------------------------------------

  /** The amount p's holds put on one state object. */
  function AmountOn(holds: seq<Hold>, r: Ref): nat {
    if holds == [] then 0
    else AmountOn(holds[..|holds| - 1], r) + if holds[|holds| - 1].ref == r then holds[|holds| - 1].amount else 0
  }

  function Owed(p: Permit, r: Ref): nat {
    if p.released then 0 else AmountOn(p.holds, r)
  }

  /** All unreleased hold amounts on one state object. */
  function TotalOwed(permits: seq<Permit>, r: Ref): nat {
    if permits == [] then 0 else TotalOwed(permits[..|permits| - 1], r) + Owed(permits[|permits| - 1], r)
  }

  predicate DistinctKeys(scopes: seq<Scope>) {
    forall i, j | 0 <= i < j < |scopes| :: scopes[i].key != scopes[j].key
  }

  predicate DistinctRefs(holds: seq<Hold>) {
    forall i, j | 0 <= i < j < |holds| :: holds[i].ref != holds[j].ref
  }

  ghost predicate WellFormed(l: Ledger) {
    && (forall k | k in l.cur :: l.cur[k] in l.heap && l.cur[k].key == k)
    && forall r | r in l.heap :: r.serial < l.next && l.heap[r].ends == r.ends
  }

  /** held is the sum of what unreleased permits owe; only a frozen object may hold less. */
  ghost predicate Balanced(st: MoneyState, owed: nat) {
    && owed - MAX_INT64 <= st.held <= Min(owed, MAX_INT64)
    && (!st.frozen ==> st.held == owed)
  }

  ghost predicate Conserved(l: Ledger, permits: seq<Permit>) {
    && WellFormed(l)
    && (forall i | 0 <= i < |permits| :: HoldsIn(permits[i].holds, l.heap))
    && forall r | r in l.heap :: Balanced(l.heap[r], TotalOwed(permits, r))
  }

  lemma {:induction false} AmountOnAbsent(holds: seq<Hold>, r: Ref)
    requires forall i | 0 <= i < |holds| :: holds[i].ref != r
    ensures AmountOn(holds, r) == 0
    decreases |holds|
  {
    if holds != [] {
      AmountOnAbsent(holds[..|holds| - 1], r);
    }
  }

  lemma {:induction false} AmountOnPresent(holds: seq<Hold>, i: nat)
    requires DistinctRefs(holds) && i < |holds|
    ensures AmountOn(holds, holds[i].ref) == holds[i].amount
    decreases |holds|
  {
    var n := |holds| - 1;
    if i == n {
      AmountOnAbsent(holds[..n], holds[i].ref);
    } else {
      AmountOnPresent(holds[..n], i);
    }
  }

  lemma {:induction false} TotalOwedUpdate(permits: seq<Permit>, i: nat, p: Permit, r: Ref)
    requires i < |permits|
    ensures TotalOwed(permits[i := p], r) == TotalOwed(permits, r) - Owed(permits[i], r) + Owed(p, r)
    decreases |permits|
  {
    var n := |permits| - 1;
    if i == n {
      assert permits[i := p][..n] == permits[..n];
    } else {
      assert permits[i := p][..n] == permits[..n][i := p];
      TotalOwedUpdate(permits[..n], i, p, r);
    }
  }

  lemma {:induction false} TotalOwedAbsent(permits: seq<Permit>, r: Ref)
    requires forall i, j | 0 <= i < |permits| && 0 <= j < |permits[i].holds| :: permits[i].holds[j].ref != r
    ensures TotalOwed(permits, r) == 0
    decreases |permits|
  {
    if permits != [] {
      TotalOwedAbsent(permits[..|permits| - 1], r);
      AmountOnAbsent(permits[|permits| - 1].holds, r);
    }
  }

  lemma {:induction false} TotalOwedAtLeast(permits: seq<Permit>, i: nat, r: Ref)
    requires i < |permits|
    ensures Owed(permits[i], r) <= TotalOwed(permits, r)
    decreases |permits|
  {
    if i < |permits| - 1 {
      TotalOwedAtLeast(permits[..|permits| - 1], i, r);
    }
  }

  lemma CleanedConserved(l: Ledger, permits: seq<Permit>, t: Time)
    requires Conserved(l, permits)
    ensures Conserved(Cleaned(l, t), permits)
  {
  }

  /** b extends a: old objects keep their contents, new ones hold nothing. */
  ghost predicate Extends(a: map<Ref, MoneyState>, b: map<Ref, MoneyState>) {
    && a.Keys <= b.Keys
    && (forall r | r in a :: b[r] == a[r])
    && forall r | r in b && r !in a :: b[r].held == 0 && !b[r].frozen
  }

  lemma OpenedConserved(l: Ledger, permits: seq<Permit>, key: string, ends: Time)
    requires Conserved(l, permits)
    ensures Conserved(Opened(l, key, ends), permits) && Extends(l.heap, Opened(l, key, ends).heap)
  {
    var r := Ref(key, ends, l.next);
    if Opened(l, key, ends) != l {
      TotalOwedAbsent(permits, r);
    }
  }

  /** One of the first n scopes is hard and has this key. */
  ghost predicate HardKey(scopes: seq<Scope>, n: nat, key: string)
    requires n <= |scopes|
  {
    exists i | 0 <= i < n :: scopes[i].hard && scopes[i].key == key
  }

  /** Each hold is on a live object of a hard scope checked so far, one object per scope. */
  ghost predicate Fresh(p: Probe, scopes: seq<Scope>, n: nat)
    requires n <= |scopes|
  {
    && DistinctRefs(p.holds)
    && forall j | 0 <= j < |p.holds| ::
         && p.holds[j].ref in p.ledger.heap && !p.ledger.heap[p.holds[j].ref].frozen
         && HardKey(scopes, n, p.holds[j].ref.key)
  }

  lemma ProbeOneConserved(p: Probe, permits: seq<Permit>, s: Scope, a: StoreAnswer, bound: money, bounded: bool)
    requires Conserved(p.ledger, permits)
    ensures var q := ProbeOne(p, s, a, bound, bounded);
            Conserved(q.ledger, permits) && Extends(p.ledger.heap, q.ledger.heap)
  {
    hide Conserved;
    OpenedConserved(p.ledger, permits, s.key, a.ends);
  }

  lemma {:induction false} ProbeConserved(l: Ledger, permits: seq<Permit>, scopes: seq<Scope>, bound: money, bounded: bool, answers: seq<StoreAnswer>, n: nat)
    requires n <= |scopes| == |answers| && Conserved(l, permits)
    ensures var p := ProbeScopes(l, scopes, bound, bounded, answers, n);
            Conserved(p.ledger, permits) && Extends(l.heap, p.ledger.heap)
  {
    hide Conserved, ProbeOne;
    if n > 0 {
      ProbeConserved(l, permits, scopes, bound, bounded, answers, n - 1);
      ProbeOneConserved(ProbeScopes(l, scopes, bound, bounded, answers, n - 1), permits, scopes[n - 1], answers[n - 1], bound, bounded);
    }
  }

  lemma FreshNext(p: Probe, scopes: seq<Scope>, n: nat, a: StoreAnswer, bound: money, bounded: bool)
    requires n < |scopes| && DistinctKeys(scopes) && WellFormed(p.ledger) && Fresh(p, scopes, n)
    ensures Fresh(ProbeOne(p, scopes[n], a, bound, bounded), scopes, n + 1)
  {
    var s := scopes[n];
    forall j | 0 <= j < |p.holds|
      ensures HardKey(scopes, n + 1, p.holds[j].ref.key) && (s.hard ==> p.holds[j].ref.key != s.key)
    {
      assert HardKey(scopes, n, p.holds[j].ref.key);
      var i :| 0 <= i < n && scopes[i].hard && scopes[i].key == p.holds[j].ref.key;
      assert scopes[i].key != scopes[n].key;
    }
    assert s.hard ==> HardKey(scopes, n + 1, s.key);
  }

  lemma {:induction false} ProbeFresh(l: Ledger, permits: seq<Permit>, scopes: seq<Scope>, bound: money, bounded: bool, answers: seq<StoreAnswer>, n: nat)
    requires n <= |scopes| == |answers| && Conserved(l, permits) && DistinctKeys(scopes)
    ensures Fresh(ProbeScopes(l, scopes, bound, bounded, answers, n), scopes, n)
  {
    if n > 0 {
      hide ProbeOne, Fresh, DistinctKeys, TotalOwed, Balanced, Extends;
      ProbeFresh(l, permits, scopes, bound, bounded, answers, n - 1);
      ProbeConserved(l, permits, scopes, bound, bounded, answers, n - 1);
      FreshNext(ProbeScopes(l, scopes, bound, bounded, answers, n - 1), scopes, n - 1, answers[n - 1], bound, bounded);
    }
  }

  /** Adding the first n of some distinct holds changes exactly their objects. */
  lemma {:induction false} AddHoldsAt(heap: map<Ref, MoneyState>, holds: seq<Hold>, n: nat, r: Ref)
    requires n <= |holds| && DistinctRefs(holds) && r in heap
    ensures AddHolds(heap, holds, n).Keys == heap.Keys
    ensures (forall i | 0 <= i < n :: holds[i].ref != r) ==> AddHolds(heap, holds, n)[r] == heap[r]
    ensures forall i | 0 <= i < n && holds[i].ref == r :: AddHolds(heap, holds, n)[r] == AddHold(heap[r], holds[i].amount)
  {
    if n > 0 {
      AddHoldsAt(heap, holds, n - 1, r);
    }
  }

  lemma {:induction false} SettleHoldsAt(heap: map<Ref, MoneyState>, holds: seq<Hold>, complete: bool, invalid: bool, n: nat, r: Ref)
    requires n <= |holds| && DistinctRefs(holds) && r in heap
    ensures SettleHolds(heap, holds, complete, invalid, n).Keys == heap.Keys
    ensures (forall i | 0 <= i < n :: holds[i].ref != r) ==> SettleHolds(heap, holds, complete, invalid, n)[r] == heap[r]
    ensures forall i | 0 <= i < n && holds[i].ref == r ::
              SettleHolds(heap, holds, complete, invalid, n)[r] == Settled(heap[r], holds[i].amount, complete, invalid)
  {
    if n > 0 {
      SettleHoldsAt(heap, holds, complete, invalid, n - 1, r);
    }
  }

  /**
   What a first finish does to the objects: proved complete usage gives each hold back, malformed usage closes
   each object and keeps the holds, and anything else keeps them as they are. No other object changes.
   */
  ghost predicate Finishes(before: map<Ref, MoneyState>, after: map<Ref, MoneyState>, holds: seq<Hold>, complete: bool, invalid: bool) {
    && after.Keys == before.Keys
    && (forall i | 0 <= i < |holds| ::
          && holds[i].ref in before
          && after[holds[i].ref].held == before[holds[i].ref].held - (if complete && !invalid then holds[i].amount else 0)
          && after[holds[i].ref].frozen == (before[holds[i].ref].frozen || invalid))
    && forall r | r in before && (forall i | 0 <= i < |holds| :: holds[i].ref != r) :: after[r] == before[r]
  }

  lemma FinishMeans(l: Ledger, p: Permit, complete: bool, invalid: bool)
    requires HoldsIn(p.holds, l.heap) && !p.finished
    ensures Finishes(l.heap, FinishedLedger(l, p, complete, invalid).heap, p.holds, complete, invalid)
    ensures FinishedLedger(l, p, complete, invalid).cur == l.cur
  {
    forall r | r in l.heap
      ensures SettleHolds(l.heap, p.holds, complete, invalid, |p.holds|).Keys == l.heap.Keys
      ensures (forall i | 0 <= i < |p.holds| :: p.holds[i].ref != r) ==> SettleHolds(l.heap, p.holds, complete, invalid, |p.holds|)[r] == l.heap[r]
      ensures forall i | 0 <= i < |p.holds| && p.holds[i].ref == r ::
                SettleHolds(l.heap, p.holds, complete, invalid, |p.holds|)[r] == Settled(l.heap[r], p.holds[i].amount, complete, invalid)
    {
      SettleHoldsAt(l.heap, p.holds, complete, invalid, |p.holds|, r);
    }
    if p.holds != [] {
      assert p.holds[0].ref in l.heap;
    }
  }

  lemma TotalOwedAppend(permits: seq<Permit>, p: Permit, r: Ref)
    ensures TotalOwed(permits + [p], r) == TotalOwed(permits, r) + Owed(p, r)
  {
    assert (permits + [p])[..|permits|] == permits;
  }

  /** Every hold is on its own object, and the objects exist. */
  ghost predicate HoldsIn(holds: seq<Hold>, heap: map<Ref, MoneyState>) {
    DistinctRefs(holds) && forall j | 0 <= j < |holds| :: holds[j].ref in heap
  }

  ghost predicate NoneFrozen(holds: seq<Hold>, heap: map<Ref, MoneyState>) {
    forall j | 0 <= j < |holds| && holds[j].ref in heap :: !heap[holds[j].ref].frozen
  }

  /** One object, when distinct holds are granted on unfrozen objects. */
  lemma GrantBalanced(heap: map<Ref, MoneyState>, permits: seq<Permit>, p: Permit, r: Ref)
    requires r in heap && Balanced(heap[r], TotalOwed(permits, r)) && !p.released
    requires HoldsIn(p.holds, heap) && NoneFrozen(p.holds, heap)
    ensures r in AddHolds(heap, p.holds, |p.holds|) && Balanced(AddHolds(heap, p.holds, |p.holds|)[r], TotalOwed(permits + [p], r))
  {
    AddHoldsAt(heap, p.holds, |p.holds|, r);
    TotalOwedAppend(permits, p, r);
    hide TotalOwed, AddHolds;
    if j :| 0 <= j < |p.holds| && p.holds[j].ref == r {
      AmountOnPresent(p.holds, j);
    } else {
      AmountOnAbsent(p.holds, r);
    }
  }

  /** Granting distinct holds on unfrozen objects keeps the balance of every object. */
  lemma GrantConserved(l: Ledger, permits: seq<Permit>, p: Permit)
    requires Conserved(l, permits) && !p.released && HoldsIn(p.holds, l.heap) && NoneFrozen(p.holds, l.heap)
    ensures Conserved(l.(heap := AddHolds(l.heap, p.holds, |p.holds|)), permits + [p])
  {
    var heap := AddHolds(l.heap, p.holds, |p.holds|);
    AddHoldsEnds(l.heap, p.holds, |p.holds|);
    hide Balanced, TotalOwed, AddHolds, DistinctRefs, NoneFrozen;
    forall r | r in l.heap
      ensures Balanced(heap[r], TotalOwed(permits + [p], r))
    {
      GrantBalanced(l.heap, permits, p, r);
    }
    forall i | 0 <= i < |permits + [p]|
      ensures HoldsIn((permits + [p])[i].holds, heap)
    {
      if i < |permits| {
        assert (permits + [p])[i] == permits[i] && HoldsIn(permits[i].holds, l.heap);
      }
    }
  }

  lemma {:induction false} AddHoldsEnds(heap: map<Ref, MoneyState>, holds: seq<Hold>, n: nat)
    requires n <= |holds|
    ensures AddHolds(heap, holds, n).Keys == heap.Keys
    ensures forall r | r in heap :: AddHolds(heap, holds, n)[r].ends == heap[r].ends
  {
    if n > 0 {
      AddHoldsEnds(heap, holds, n - 1);
    }
  }

  lemma {:induction false} SettleHoldsEnds(heap: map<Ref, MoneyState>, holds: seq<Hold>, complete: bool, invalid: bool, n: nat)
    requires n <= |holds|
    ensures SettleHolds(heap, holds, complete, invalid, n).Keys == heap.Keys
    ensures forall r | r in heap :: SettleHolds(heap, holds, complete, invalid, n)[r].ends == heap[r].ends
  {
    if n > 0 {
      SettleHoldsEnds(heap, holds, complete, invalid, n - 1);
    }
  }

  /** A reservation keeps the liabilities balanced; refused or not, no hold changes except the granted ones. */
  lemma ReserveConserves(l: Ledger, permits: seq<Permit>, scopes: seq<Scope>, bound: int64, bounded: bool, answers: seq<StoreAnswer>, t: Time)
    requires |answers| == |scopes| && Conserved(l, permits) && DistinctKeys(scopes)
    ensures var res := Reserve(l, scopes, bound, bounded, answers, t);
            match res
            case Granted(l', p) => Conserved(l', permits + [p]) && !p.finished && !p.released && p.scopes == scopes
            case Refused(l') => Conserved(l', permits) && Extends(l.heap, l'.heap)
            case Ungoverned(l') => l' == l
  {
    if scopes != [] && 0 <= bound {
      CleanedConserved(l, permits, t);
      var l1 := if |l.cur| + |scopes| > MAX_STATES then Cleaned(l, t) else l;
      ProbeConserved(l1, permits, scopes, bound, bounded, answers, |scopes|);
      var p := ProbeScopes(l1, scopes, bound, bounded, answers, |scopes|);
      if |l1.cur| + |scopes| <= MAX_STATES && p.ok {
        ProbeFresh(l1, permits, scopes, bound, bounded, answers, |scopes|);
        GrantConserved(p.ledger, permits, Permit(p.holds, scopes, false, false));
      }
    }
  }

  /** Finishing a permit keeps every object balanced; only the permit's own objects change. */
  lemma FinishConserves(l: Ledger, permits: seq<Permit>, i: nat, complete: bool, invalid: bool)
    requires Conserved(l, permits) && i < |permits| && (permits[i].released ==> permits[i].finished)
    ensures Conserved(FinishedLedger(l, permits[i], complete, invalid), permits[i := FinishedPermit(permits[i], complete, invalid)])
    ensures FinishedLedger(l, permits[i], complete, invalid).cur == l.cur
    ensures forall r | r in l.heap && (forall j | 0 <= j < |permits[i].holds| :: permits[i].holds[j].ref != r)
              :: r in FinishedLedger(l, permits[i], complete, invalid).heap && FinishedLedger(l, permits[i], complete, invalid).heap[r] == l.heap[r]
  {
    var p := permits[i];
    var q := FinishedPermit(p, complete, invalid);
    assert permits[i := p] == permits;
    if !p.finished {
      var heap := SettleHolds(l.heap, p.holds, complete, invalid, |p.holds|);
      SettleHoldsEnds(l.heap, p.holds, complete, invalid, |p.holds|);
      forall r | r in l.heap
        ensures Balanced(heap[r], TotalOwed(permits[i := q], r))
        ensures (forall j | 0 <= j < |p.holds| :: p.holds[j].ref != r) ==> heap[r] == l.heap[r]
      {
        SettleHoldsAt(l.heap, p.holds, complete, invalid, |p.holds|, r);
        TotalOwedUpdate(permits, i, q, r);
        TotalOwedAtLeast(permits, i, r);
        if j :| 0 <= j < |p.holds| && p.holds[j].ref == r {
          AmountOnPresent(p.holds, j);
        } else {
          AmountOnAbsent(p.holds, r);
        }
      }
    }
  }

  /** A permit from an ended window leaves the hold of the window that replaced it alone. */
  lemma OldWindowCannotTouchNew(l: Ledger, permits: seq<Permit>, i: nat, key: string, complete: bool, invalid: bool)
    requires Conserved(l, permits) && i < |permits| && (permits[i].released ==> permits[i].finished) && key in l.cur
    requires forall j | 0 <= j < |permits[i].holds| && permits[i].holds[j].ref.key == key
               :: l.heap[permits[i].holds[j].ref].ends != l.heap[l.cur[key]].ends
    ensures var l' := FinishedLedger(l, permits[i], complete, invalid);
            l'.cur[key] == l.cur[key] && l'.cur[key] in l'.heap && l'.heap[l'.cur[key]] == l.heap[l.cur[key]]
  {
    FinishConserves(l, permits, i, complete, invalid);
  }
}
