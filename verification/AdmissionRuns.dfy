/**
 The life of one admitted request (internal/governance/admission.go, internal/governance/governance.go): any
 sequence of settlements, closes, cancellations and marks on its handle, through the governor's own settlement.
 */
module AdmissionRuns {
  import opened Basics
  import opened Int64s
  import opened BudgetStore
  import opened BudgetKeys
  import opened Admissions
  import opened Governors

  datatype Op =
    | CloseOp | CancelOp | CancelUndispatchedOp
    | MarkDispatchedOp | OwnLocalMoneyOp
    | SettleOp(at: Time, s: Subject, kp: KeyPolicy, u: Usage)

  /** Would operation n finish the reservations if nothing had finished them before? */
  predicate Finalises(ops: seq<Op>, n: nat, dispatched: bool)
    requires n < |ops|
  {
    match ops[n]
    case CloseOp | CancelOp | SettleOp(_, _, _, _) => true
    case CancelUndispatchedOp => !dispatched && MarkDispatchedOp !in ops[..n]
    case MarkDispatchedOp | OwnLocalMoneyOp => false
  }

  /** Operation n is the one that takes effect. */
  predicate TakesEffect(ops: seq<Op>, n: nat, dispatched: bool)
    requires n < |ops|
  {
    Finalises(ops, n, dispatched) && forall i | 0 <= i < n :: !Finalises(ops, i, dispatched)
  }

  /** What a finalising operation tells the limiter. */
  function Tells(op: Op, estimate: int64, shared: bool): Option<int64> {
    match op
    case CancelOp | CancelUndispatchedOp => Some(0)
    case SettleOp(_, _, _, u) => RateOutcome(u, estimate, shared)
    case _ => None
  }

  /** Does operation n debit, if it takes effect? Not if a permit owns the money by then. */
  predicate Debits(ops: seq<Op>, n: nat, owned: bool)
    requires n < |ops|
  {
    ops[n].SettleOp? && ops[n].u.tokens.Some? && !owned && OwnLocalMoneyOp !in ops[..n]
  }

  /** The settlement's price was charged to its team, key and user, and nothing else changed in the store. */
  ghost predicate Pays(g: Policies, op: Op, before: Buckets, after: Buckets, we: WindowEnd)
    requires op.SettleOp?
  {
    var price := if op.u.price.Some? then op.u.price.value else 0;
    Charges(g, before, after, op.s, op.kp, price, op.at, we) && Landed(before, after, g.Scopes(op.s, op.kp), price, 0, op.at, we)
  }

  /** One operation on the handle. */
  method Perform(g: Governor, a: Admission, op: Op)
    requires g.bud.Valid() && a.Valid()
    modifies g.bud, a, a.rates
    ensures g.bud.Valid() && a.Valid() && a.rates == old(a.rates)
    ensures a.dispatched == (old(a.dispatched) || op.MarkDispatchedOp?) && a.moneyOwned == (old(a.moneyOwned) || op.OwnLocalMoneyOp?)
    ensures var effective := !old(a.once) && Finalises([op], 0, old(a.dispatched));
            && a.once == (old(a.once) || effective)
            && a.outcome == (if effective then Tells(op, a.estimate, g.policies.shared) else old(a.outcome))
            && if effective && Debits([op], 0, old(a.moneyOwned))
               then old(g.bud.rejected) <= g.bud.rejected
                    && (g.bud.rejected == old(g.bud.rejected) ==> Pays(g.policies, op, old(g.bud.m), g.bud.m, g.bud.windowEnd))
               else g.bud.m == old(g.bud.m) && g.bud.rejected == old(g.bud.rejected)
  {
    match op {
      case CloseOp => a.Close();
      case CancelOp => a.Cancel();
      case CancelUndispatchedOp => a.CancelUndispatched();
      case MarkDispatchedOp => a.MarkDispatched();
      case OwnLocalMoneyOp => a.OwnLocalMoney();
      case SettleOp(at, s, kp, u) => var _, _ := g.Settle(s, kp, u, a, at);
    }
  }

  /**
   Any sequence of operations on an open handle. If none finalises, nothing is finished and nothing is spent.
   Otherwise the first that does finishes every reservation, exactly once and with what it says, and only if it
   is a settlement with usable usage whose money no permit owns is anything debited: its cost, on its scopes.
   */
  method Drive(g: Governor, a: Admission, ops: seq<Op>)
    requires g.bud.Valid() && a.Valid() && !a.once
    modifies g.bud, a, a.rates
    ensures g.bud.Valid() && a.Valid() && a.rates == old(a.rates) && old(g.bud.rejected) <= g.bud.rejected
    ensures a.once <==> exists n | 0 <= n < |ops| :: Finalises(ops, n, old(a.dispatched))
    ensures !a.once ==> (forall r | r in a.rates :: r.finishes == []) && g.bud.m == old(g.bud.m)
    ensures forall n | 0 <= n < |ops| && TakesEffect(ops, n, old(a.dispatched)) ::
              && (forall r | r in a.rates :: r.finishes == [Tells(ops[n], a.estimate, g.policies.shared)])
              && if Debits(ops, n, old(a.moneyOwned))
                 then g.bud.rejected == old(g.bud.rejected) ==> Pays(g.policies, ops[n], old(g.bud.m), g.bud.m, g.bud.windowEnd)
                 else g.bud.m == old(g.bud.m)
  {
    ghost var first := 0;
    ghost var dispatched, owned, m, rejected, all := a.dispatched, a.moneyOwned, g.bud.m, g.bud.rejected, g.policies;
    hide Pays, Memory.Valid, Tells;
    var n := 0;
    while n < |ops|
      invariant 0 <= n <= |ops| && g.bud.Valid() && a.Valid() && a.rates == old(a.rates) && rejected <= g.bud.rejected
      invariant a.dispatched == (dispatched || MarkDispatchedOp in ops[..n]) && a.moneyOwned == (owned || OwnLocalMoneyOp in ops[..n])
      invariant a.once ==> 0 <= first < n && TakesEffect(ops, first, dispatched) && a.outcome == Tells(ops[first], a.estimate, all.shared)
      invariant !a.once ==> forall i | 0 <= i < n :: !Finalises(ops, i, dispatched)
      invariant if a.once && Debits(ops, first, owned)
                then g.bud.rejected == rejected ==> Pays(all, ops[first], m, g.bud.m, g.bud.windowEnd)
                else g.bud.m == m && g.bud.rejected == rejected
    {
      assert ops[..n + 1] == ops[..n] + [ops[n]];
      if !a.once {
        first := n;
      }
      Perform(g, a, ops[n]);
      n := n + 1;
    }
    assert ops[..n] == ops;
  }
}
