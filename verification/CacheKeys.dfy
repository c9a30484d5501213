/**
 What a verdict cache key is taken of (internal/classifier/cache.go): the team, the entry, the policies that apply
 and the window's text, as length-prefixed fields. Strings and numbers are written by abstract one-to-one functions.
 */
module CacheKeys {
  import opened Basics
  import opened VerdictCache
  import opened ClassifierRun

  datatype Writing = Writing(text: string -> Bytes, number: int -> Bytes) {
    ghost predicate OneToOne() {
      && (forall a, b | text(a) == text(b) :: a == b) && (forall a, b | number(a) == number(b) :: a == b)
      && (forall a :: |text(a)| < Limit(8)) && forall a :: |number(a)| < Limit(8)
    }
  }

  /** Three fields for each of the first n policies. */
  function PolicyFields(wr: Writing, policies: seq<(string, int, string)>, n: nat): seq<Bytes>
    requires n <= |policies|
  {
    if n == 0 then []
    else PolicyFields(wr, policies, n - 1) + [wr.text(policies[n - 1].0), wr.number(policies[n - 1].1), wr.text(policies[n - 1].2)]
  }

  function QueryFields(wr: Writing, q: Query): seq<Bytes> {
    [wr.text(q.context.team), wr.text(q.context.name), wr.text(q.context.settings), wr.number(|q.context.policies|)]
    + PolicyFields(wr, q.context.policies, |q.context.policies|) + [wr.text(q.text)]
  }

  /** The digest's input. */
  function KeyInput(wr: Writing, q: Query): Bytes {
    Fields(QueryFields(wr, q))
  }

  lemma {:induction false} PolicyFieldsShape(wr: Writing, policies: seq<(string, int, string)>, n: nat)
    requires n <= |policies| && wr.OneToOne()
    ensures |PolicyFields(wr, policies, n)| == 3 * n && Short(PolicyFields(wr, policies, n))
  {
    if n > 0 {
      PolicyFieldsShape(wr, policies, n - 1);
      var last := [wr.text(policies[n - 1].0), wr.number(policies[n - 1].1), wr.text(policies[n - 1].2)];
      hide Limit;
      var generation: int := policies[n - 1].1;
      assert |wr.number(generation)| < Limit(8);
      assert |last[0]| < Limit(8) && |last[1]| < Limit(8) && |last[2]| < Limit(8);
      assert Short(last);
      hide Writing.OneToOne;
      ShortConcat(PolicyFields(wr, policies, n - 1), last);
    }
  }

  predicate Short(fs: seq<Bytes>) {
    forall i | 0 <= i < |fs| :: |fs[i]| < Limit(8)
  }

  lemma ShortConcat(a: seq<Bytes>, b: seq<Bytes>)
    requires Short(a) && Short(b)
    ensures Short(a + b)
  {
    hide Limit;
  }

  lemma Uncouple<T>(a: seq<T>, x: seq<T>, b: seq<T>, y: seq<T>)
    requires |a| == |b| && a + x == b + y
    ensures a == b && x == y
  {
    assert a == (a + x)[..|a|] && b == (b + y)[..|b|];
    assert x == (a + x)[|a|..] && y == (b + y)[|b|..];
  }

  lemma PrefixNext<T>(a: seq<T>, b: seq<T>, n: nat)
    requires 0 < n <= |a| && n <= |b| && a[..n - 1] == b[..n - 1] && a[n - 1] == b[n - 1]
    ensures a[..n] == b[..n]
  {
    assert a[..n] == a[..n - 1] + [a[n - 1]] && b[..n] == b[..n - 1] + [b[n - 1]];
  }

  lemma OnePolicyTells(wr: Writing, p: (string, int, string), q: (string, int, string))
    requires wr.OneToOne() && [wr.text(p.0), wr.number(p.1), wr.text(p.2)] == [wr.text(q.0), wr.number(q.1), wr.text(q.2)]
    ensures p == q
  {
    var x, y := [wr.text(p.0), wr.number(p.1), wr.text(p.2)], [wr.text(q.0), wr.number(q.1), wr.text(q.2)];
    assert x[0] == y[0] && x[1] == y[1] && x[2] == y[2];
    assert p.0 == q.0 && p.1 == q.1 && p.2 == q.2;
  }

  lemma {:induction false} PolicyFieldsTell(wr: Writing, a: seq<(string, int, string)>, b: seq<(string, int, string)>, n: nat)
    requires n <= |a| && n <= |b| && wr.OneToOne() && PolicyFields(wr, a, n) == PolicyFields(wr, b, n)
    ensures a[..n] == b[..n]
  {
    if n > 0 {
      PolicyFieldsShape(wr, a, n - 1);
      PolicyFieldsShape(wr, b, n - 1);
      var x := [wr.text(a[n - 1].0), wr.number(a[n - 1].1), wr.text(a[n - 1].2)];
      var y := [wr.text(b[n - 1].0), wr.number(b[n - 1].1), wr.text(b[n - 1].2)];
      Uncouple(PolicyFields(wr, a, n - 1), x, PolicyFields(wr, b, n - 1), y);
      OnePolicyTells(wr, a[n - 1], b[n - 1]);
      hide Short, Writing.OneToOne;
      PolicyFieldsTell(wr, a, b, n - 1);
      hide PolicyFields;
      PrefixNext(a, b, n);
    }
  }

  lemma QueryFieldsTell(wr: Writing, q: Query, r: Query)
    requires wr.OneToOne() && QueryFields(wr, q) == QueryFields(wr, r)
    ensures q == r
  {
    var m, n := |q.context.policies|, |r.context.policies|;
    var a := [wr.text(q.context.team), wr.text(q.context.name), wr.text(q.context.settings), wr.number(m)];
    var b := [wr.text(r.context.team), wr.text(r.context.name), wr.text(r.context.settings), wr.number(n)];
    var x, y := PolicyFields(wr, q.context.policies, m), PolicyFields(wr, r.context.policies, n);
    assert QueryFields(wr, q) == a + (x + [wr.text(q.text)]) && QueryFields(wr, r) == b + (y + [wr.text(r.text)]);
    Uncouple(a, x + [wr.text(q.text)], b, y + [wr.text(r.text)]);
    assert a[0] == b[0] && a[1] == b[1] && a[2] == b[2] && a[3] == b[3];
    assert m == n;
    PolicyFieldsShape(wr, q.context.policies, m);
    PolicyFieldsShape(wr, r.context.policies, n);
    Uncouple(x, [wr.text(q.text)], y, [wr.text(r.text)]);
    assert [wr.text(q.text)][0] == [wr.text(r.text)][0];
    PolicyFieldsTell(wr, q.context.policies, r.context.policies, n);
    assert q.context.policies == q.context.policies[..n] && r.context.policies == r.context.policies[..n];
  }

  lemma QueryFieldsShort(wr: Writing, q: Query)
    requires wr.OneToOne()
    ensures Short(QueryFields(wr, q))
  {
    var n := |q.context.policies|;
    var a := [wr.text(q.context.team), wr.text(q.context.name), wr.text(q.context.settings), wr.number(n)];
    assert Short(a) && Short([wr.text(q.text)]);
    hide Limit, Writing.OneToOne, Short;
    PolicyFieldsShape(wr, q.context.policies, n);
    ShortConcat(a, PolicyFields(wr, q.context.policies, n));
    ShortConcat(a + PolicyFields(wr, q.context.policies, n), [wr.text(q.text)]);
  }

  /**
   Two cache keys are taken of the same input only for the same team, the same entry with the same settings, the
   same applicable policies in the same generation, and the same text.
   */
  lemma CacheKeysTell(wr: Writing, e: Entry, req: Request, w: Text, e': Entry, req': Request, w': Text)
    requires wr.OneToOne() && KeyInput(wr, Query(ContextOf(e, req), w)) == KeyInput(wr, Query(ContextOf(e', req'), w'))
    ensures req.team == req'.team && e.name == e'.name && e.settings == e'.settings && req.policies == req'.policies && w == w'
  {
    var q, r := Query(ContextOf(e, req), w), Query(ContextOf(e', req'), w');
    QueryFieldsShort(wr, q);
    QueryFieldsShort(wr, r);
    hide Limit, Fields, QueryFields;
    FieldsNeverRunTogether(QueryFields(wr, q), QueryFields(wr, r));
    QueryFieldsTell(wr, q, r);
  }
}
