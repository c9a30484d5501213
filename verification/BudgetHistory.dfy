/**
 Whole histories of the spend store: the swept, bounded store answers like a map that is never
 swept, and that map counts exactly the money debited in the current calendar window.
 */
module BudgetHistory {
  import opened Basics
  import opened Int64s
  import opened BudgetStore

  datatype Op =
    | CheckOp(estimate: int64, limit: int64)
    | DebitOp(actual: int64)
    | SpentOp
    | ResetsAtOp

  /** One call on the store. */
  datatype Call = Call(at: Time, key: string, w: Window, op: Op)

  datatype Answer = Decided(decision: Decision) | Done | Amount(spent: money) | Instant(at: Time)

  /** Does the call look its counter up at all? */
  predicate Touches(c: Call) {
    match c.op
    case CheckOp(estimate, limit) => 0 <= estimate && 0 < limit
    case DebitOp(actual) => 0 <= actual
    case _ => true
  }

  function CounterAt(m: Buckets, c: Call, we: WindowEnd): Bucket {
    Current(m, c.key, c.w, c.at, we)
  }

  // ---- The store that is never swept and never full ---------------------------

  function RefNext(m: Buckets, c: Call, we: WindowEnd): Buckets {
    if !Touches(c) then m
    else
      var b := CounterAt(m, c, we);
      m[c.key := if c.op.DebitOp? then b.(spent := SaturatingAdd(b.spent, c.op.actual)) else b]
  }

  function RefAnswer(m: Buckets, c: Call, we: WindowEnd): Answer {
    match c.op
    case CheckOp(estimate, limit) =>
      Decided(if estimate < 0 then Block else if limit <= 0 then Allow else Decide(CounterAt(m, c, we).spent, estimate, limit))
    case DebitOp(_) => Done
    case SpentOp => Amount(CounterAt(m, c, we).spent)
    case ResetsAtOp => Instant(CounterAt(m, c, we).windowEnd)
  }

  function Reference(calls: seq<Call>, we: WindowEnd): Buckets {
    if calls == [] then map[] else RefNext(Reference(calls[..|calls| - 1], we), calls[|calls| - 1], we)
  }

  predicate InOrder(calls: seq<Call>) {
    forall i, j | 0 <= i < j < |calls| :: calls[i].at <= calls[j].at
  }

  /** Answers and later views depend only on the counters that are still live. */
  lemma OnlyTheViewMatters(a: Buckets, b: Buckets, c: Call, we: WindowEnd)
    requires View(a, c.at) == View(b, c.at)
    ensures CounterAt(a, c, we) == CounterAt(b, c, we)
    ensures View(RefNext(a, c, we), c.at) == View(RefNext(b, c, we), c.at)
  {
    assert c.key in View(a, c.at) <==> c.key in View(b, c.at);
    assert c.key in View(a, c.at) ==> View(a, c.at)[c.key] == View(b, c.at)[c.key];
    var x := CounterAt(a, c, we);
    ViewUpdate(a, b, c.key, x, c.at);
    ViewUpdate(a, b, c.key, if c.op.DebitOp? && 0 <= c.op.actual then x.(spent := SaturatingAdd(x.spent, c.op.actual)) else x, c.at);
  }

  lemma ViewLater(a: Buckets, b: Buckets, t: Time, u: Time)
    requires View(a, t) == View(b, t) && t <= u
    ensures View(a, u) == View(b, u)
  {
    assert View(View(a, t), u) == View(a, u);
    assert View(View(b, t), u) == View(b, u);
  }

  /** One admitted call, against any never-swept store with the same live counters. */
  method Perform(store: Memory, c: Call, ghost ref: Buckets) returns (answer: Answer)
    requires store.Valid() && (Touches(c) ==> store.Admits(c.key, c.at))
    requires View(store.m, c.at) == View(ref, c.at)
    modifies store
    ensures store.Valid()
    ensures answer == RefAnswer(ref, c, store.windowEnd)
    ensures View(store.m, c.at) == View(RefNext(ref, c, store.windowEnd), c.at)
  {
    OnlyTheViewMatters(store.m, ref, c, store.windowEnd);
    match c.op
    case CheckOp(estimate, limit) =>
      var d := store.Check(c.key, estimate, limit, c.w, c.at);
      answer := Decided(d);
    case DebitOp(actual) =>
      store.Debit(c.key, actual, c.w, c.at);
      answer := Done;
    case SpentOp =>
      var spent := store.Spent(c.key, c.w, c.at);
      answer := Amount(spent);
    case ResetsAtOp =>
      var ends := store.ResetsAt(c.key, c.w, c.at);
      answer := Instant(ends);
  }

  /** The answers of the never-swept store. */
  ghost function RefAnswers(calls: seq<Call>, we: WindowEnd): (answers: seq<Answer>)
    ensures |answers| == |calls|
  {
    seq(|calls|, i requires 0 <= i < |calls| => RefAnswer(Reference(calls[..i], we), calls[i], we))
  }

  lemma RefAnswersNext(calls: seq<Call>, n: nat, we: WindowEnd)
    requires n < |calls|
    ensures Reference(calls[..n + 1], we) == RefNext(Reference(calls[..n], we), calls[n], we)
    ensures RefAnswers(calls[..n + 1], we) == RefAnswers(calls[..n], we) + [RefAnswer(Reference(calls[..n], we), calls[n], we)]
  {
    assert calls[..n + 1][..n] == calls[..n];
    forall i | 0 <= i < n
      ensures RefAnswers(calls[..n + 1], we)[i] == RefAnswers(calls[..n], we)[i]
    {
      assert calls[..n + 1][..i] == calls[..n][..i];
    }
  }

  /** The live counters of m are those of the never-swept store after the first n calls. */
  ghost predicate InStep(m: Buckets, calls: seq<Call>, n: nat, we: WindowEnd)
    requires n <= |calls|
  {
    if n == 0 then m == map[] else View(m, calls[n - 1].at) == View(Reference(calls[..n], we), calls[n - 1].at)
  }

  lemma InStepAtNextCall(m: Buckets, calls: seq<Call>, n: nat, we: WindowEnd)
    requires InOrder(calls) && n < |calls| && InStep(m, calls, n, we)
    ensures View(m, calls[n].at) == View(Reference(calls[..n], we), calls[n].at)
  {
    if n > 0 {
      ViewLater(m, Reference(calls[..n], we), calls[n - 1].at, calls[n].at);
    }
  }

  lemma InStepAfterCall(m: Buckets, calls: seq<Call>, n: nat, we: WindowEnd)
    requires n < |calls| && View(m, calls[n].at) == View(RefNext(Reference(calls[..n], we), calls[n], we), calls[n].at)
    ensures InStep(m, calls, n + 1, we)
  {
    RefAnswersNext(calls, n, we);
  }

  /** The n-th call looks nothing up, asks for a live counter, or finds fewer live counters than the store can hold. */
  ghost predicate HasRoom(calls: seq<Call>, n: nat, maxEntries: nat, we: WindowEnd)
    requires n < |calls|
  {
    var live := View(Reference(calls[..n], we), calls[n].at);
    !Touches(calls[n]) || calls[n].key in live || |live| < maxEntries
  }

  /**
   Any client: as long as the live counters never fill the store when a new one is asked for, every answer over
   the whole history is that of the store that is never swept, however many counters have died meanwhile.
   */
  method Replay(store: Memory, calls: seq<Call>) returns (answers: seq<Answer>)
    requires store.Valid() && store.m == map[] && InOrder(calls)
    requires forall n | 0 <= n < |calls| :: HasRoom(calls, n, store.maxEntries, store.windowEnd)
    modifies store
    ensures answers == RefAnswers(calls, store.windowEnd)
  {
    answers := [];
    var n := 0;
    assert InStep(store.m, calls, n, store.windowEnd);
    hide RefAnswer, RefNext, RefAnswers, InStep, Reference, HasRoom, Touches;
    while n < |calls|
      invariant 0 <= n <= |calls|
      invariant store.Valid()
      invariant answers == RefAnswers(calls[..n], store.windowEnd)
      invariant InStep(store.m, calls, n, store.windowEnd)
    {
      InStepAtNextCall(store.m, calls, n, store.windowEnd);
      RoomMeansAdmitted(store, calls, n);
      RefAnswersNext(calls, n, store.windowEnd);
      var answer := Perform(store, calls[n], Reference(calls[..n], store.windowEnd));
      InStepAfterCall(store.m, calls, n, store.windowEnd);
      answers := answers + [answer];
      n := n + 1;
    }
    assert calls[..n] == calls;
  }

  lemma RoomMeansAdmitted(store: Memory, calls: seq<Call>, n: nat)
    requires n < |calls| && HasRoom(calls, n, store.maxEntries, store.windowEnd)
    requires View(store.m, calls[n].at) == View(Reference(calls[..n], store.windowEnd), calls[n].at)
    ensures Touches(calls[n]) ==> store.Admits(calls[n].key, calls[n].at)
  {
    assert calls[n].key in View(store.m, calls[n].at) ==> calls[n].key in store.m;
  }

  // ---- What the never-swept store counts --------------------------------------

  /** Windows of a calendar kind tile time: every instant of a window ends at the same moment. */
  ghost predicate Calendar(we: WindowEnd, w: Window) {
    && (forall t :: t < we(t, w))
    && forall t, u | t <= u < we(t, w) :: we(u, w) == we(t, w)
  }

  /** The exact money debited to key in the window that ends at e. */
  function Debited(calls: seq<Call>, key: string, e: Time, we: WindowEnd): nat {
    if calls == [] then 0
    else
      var c := calls[|calls| - 1];
      Debited(calls[..|calls| - 1], key, e, we)
      + if c.key == key && c.op.DebitOp? && 0 <= c.op.actual && we(c.at, c.w) == e then c.op.actual else 0
  }

  /** All calls on key name the same window kind: the key carries its window's tag. */
  predicate OneWindow(calls: seq<Call>, key: string, w: Window) {
    forall i | 0 <= i < |calls| && calls[i].key == key :: calls[i].w == w
  }

  predicate Until(calls: seq<Call>, now: Time) {
    forall i | 0 <= i < |calls| :: calls[i].at <= now
  }

  /** key's counter holds what was debited in its window, which was opened by now; no later window holds anything. */
  ghost predicate Counts(m: Buckets, calls: seq<Call>, key: string, w: Window, we: WindowEnd, now: Time) {
    if key !in m then forall e :: Debited(calls, key, e, we) == 0
    else
      && m[key].spent == Min(MAX_INT64, Debited(calls, key, m[key].windowEnd, we))
      && (forall e | m[key].windowEnd < e :: Debited(calls, key, e, we) == 0)
      && exists start :: start <= now && we(start, w) == m[key].windowEnd
  }

  /** Whatever counter an access finds or opens at t is the one for t's window, with everything debited in it. */
  lemma CurrentCounts(m: Buckets, calls: seq<Call>, key: string, w: Window, we: WindowEnd, t: Time)
    requires Counts(m, calls, key, w, we, t) && Calendar(we, w)
    ensures var b := Current(m, key, w, t, we);
            b.windowEnd == we(t, w) && b.spent == Min(MAX_INT64, Debited(calls, key, we(t, w), we))
    ensures forall e | we(t, w) < e :: Debited(calls, key, e, we) == 0
  {
    if key in m && t < m[key].windowEnd {
      var start :| start <= t && we(start, w) == m[key].windowEnd;
      assert start <= t < we(start, w);
    }
  }

  lemma {:induction false} ReferenceCounts(calls: seq<Call>, key: string, w: Window, we: WindowEnd, now: Time)
    requires InOrder(calls) && Until(calls, now) && Calendar(we, w) && OneWindow(calls, key, w)
    ensures Counts(Reference(calls, we), calls, key, w, we, now)
    decreases |calls|
  {
    if calls != [] {
      var n := |calls| - 1;
      var c := calls[n];
      var before := calls[..n];
      ReferenceCounts(before, key, w, we, c.at);
      if c.key == key && Touches(c) {
        CurrentCounts(Reference(before, we), before, key, w, we, c.at);
        assert c.at <= now && we(c.at, w) == Reference(calls, we)[key].windowEnd;
      }
    }
  }

  /**
   The budget a caller sees: after any history, the spend reported at t is the exact sum, saturated at the
   largest int64, of what was debited to that key in the calendar window of t.
   */
  lemma SpentIsTheWindowsDebits(calls: seq<Call>, key: string, w: Window, we: WindowEnd, t: Time)
    requires InOrder(calls) && Until(calls, t) && Calendar(we, w) && OneWindow(calls, key, w)
    ensures RefAnswer(Reference(calls, we), Call(t, key, w, SpentOp), we)
         == Amount(Min(MAX_INT64, Debited(calls, key, we(t, w), we)))
  {
    ReferenceCounts(calls, key, w, we, t);
    CurrentCounts(Reference(calls, we), calls, key, w, we, t);
  }
}
