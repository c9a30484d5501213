/**
 Classifying a request with cached clear verdicts (internal/classifier/run.go). Other requests may use the
 cache between any two accesses; the digest and the classifier are abstract functions.
 */
module ClassifierRun {
  import opened Basics
  import opened VerdictCache

  type Text = string

  datatype Verdict = ClearVerdict | FlaggedVerdict | AbstainVerdict | Malformed
  datatype Outcome = OutcomeFlagged | OutcomeClear | OutcomeAbstain | OutcomeError | OutcomeSkipped

  /** All that a cache key covers besides the window's text: team, entry and applicable policies. */
  datatype Context = Context(team: string, name: string, settings: string, policies: seq<(string, int, string)>)
  datatype Query = Query(context: Context, text: Text)
  type Digester = Query -> Digest

  /** What a classifier answered for some windows. */
  datatype Answer = Answer(verdicts: seq<Verdict>, failed: bool)
  type Scorer = seq<Text> -> Answer

  /** Cache hits: for each window, when its entry was stored and when it was found. */
  type Hits = map<Text, (Time, Time)>

  /** The outcome of a batch: a malformed verdict spoils it, and flagged beats abstain beats clear. */
  function Fold(vs: seq<Verdict>): Outcome {
    if Malformed in vs then OutcomeError
    else if FlaggedVerdict in vs then OutcomeFlagged
    else if AbstainVerdict in vs then OutcomeAbstain
    else OutcomeClear
  }

  /** The distinct non-empty windows among the first n, in order. */
  function Distinct(ws: seq<Text>, n: nat): seq<Text>
    requires n <= |ws|
  {
    if n == 0 then []
    else if ws[n - 1] == "" || ws[n - 1] in Distinct(ws, n - 1) then Distinct(ws, n - 1)
    else Distinct(ws, n - 1) + [ws[n - 1]]
  }

  /** What the entry makes of a batch. */
  function Judged(score: Scorer, pending: seq<Text>, cancelled: bool): Outcome {
    if pending == [] then OutcomeClear
    else
      var a := score(pending);
      if a.failed || cancelled || |a.verdicts| != |pending| then OutcomeError else Fold(a.verdicts)
  }

  /** The classifier answered, in time, with one well-formed verdict for each window of the batch. */
  predicate Usable(score: Scorer, pending: seq<Text>, cancelled: bool) {
    var a := score(pending);
    !a.failed && !cancelled && |a.verdicts| == |pending| && forall i | 0 <= i < |a.verdicts| :: a.verdicts[i] != Malformed
  }

  /** Some window of the batch got this verdict. */
  predicate Given(score: Scorer, pending: seq<Text>, v: Verdict) {
    exists i | 0 <= i < |score(pending).verdicts| :: score(pending).verdicts[i] == v
  }

  /** An unusable answer is an error; in a usable one a flag is never hidden, nor an abstention by clear windows. */
  lemma JudgedMeans(score: Scorer, pending: seq<Text>, cancelled: bool)
    requires pending != []
    ensures Judged(score, pending, cancelled) ==
              if !Usable(score, pending, cancelled) then OutcomeError
              else if Given(score, pending, FlaggedVerdict) then OutcomeFlagged
              else if Given(score, pending, AbstainVerdict) then OutcomeAbstain
              else OutcomeClear
  {
  }

  /** The keys of the windows judged clear in a usable batch. */
  function ClearKeys(d: Digester, ctx: Context, pending: seq<Text>, vs: seq<Verdict>, n: nat): seq<Digest>
    requires n <= |pending| == |vs|
  {
    if n == 0 then []
    else ClearKeys(d, ctx, pending, vs, n - 1) + if vs[n - 1] == ClearVerdict then [d(Query(ctx, pending[n - 1]))] else []
  }

  lemma {:induction false} ClearKeysHave(d: Digester, ctx: Context, pending: seq<Text>, vs: seq<Verdict>, n: nat)
    requires n <= |pending| == |vs|
    ensures forall i | 0 <= i < n && vs[i] == ClearVerdict :: d(Query(ctx, pending[i])) in ClearKeys(d, ctx, pending, vs, n)
  {
    if n > 0 {
      ClearKeysHave(d, ctx, pending, vs, n - 1);
    }
  }

  /** The other requests' accesses. */
  method Interfere(cache: VerdictCache, touches: seq<Touch>)
    requires cache.Valid()
    modifies cache
    ensures cache.Valid() && old(cache.stores) <= cache.stores
    ensures forall e | e in cache.stores && e !in old(cache.stores) :: Put(e.0, e.1) in touches
  {
    var i := 0;
    while i < |touches|
      invariant cache.Valid() && old(cache.stores) <= cache.stores
      invariant forall e | e in cache.stores && e !in old(cache.stores) :: Put(e.0, e.1) in touches
    {
      match touches[i] {
        case Look(k, at) => var _ := cache.Clear(k, at);
        case Put(k, at) => cache.Store(k, at);
      }
      i := i + 1;
    }
  }

  /** Each hit was stored at its first time, and found at its second, a reading of the clock less than ttl later. */
  ghost predicate Live(stores: set<(Digest, Time)>, ttl: Time, now: nat -> Time, d: Digester, ctx: Context, hits: Hits) {
    forall w | w in hits :: (d(Query(ctx, w)), hits[w].0) in stores && hits[w].1 - hits[w].0 < ttl && ReadAt(now, hits[w].1)
  }

  ghost predicate ReadAt(now: nat -> Time, t: Time) {
    exists i: nat :: now(i) == t
  }

  /** The windows before the i-th are either found in the cache or still to be classified, never both. */
  ghost predicate Sorted(ws: seq<Text>, n: nat, pending: seq<Text>, hits: Hits)
    requires n <= |ws|
  {
    && (forall w :: w in Distinct(ws, n) <==> w in pending || w in hits)
    && (forall w :: w in pending ==> w !in hits)
  }

  datatype Result = Result(outcome: Outcome, hits: nat, misses: nat, clear: seq<Digest>)

  /** Every store made meanwhile is one of the others'. */
  ghost predicate ByOthers(before: set<(Digest, Time)>, after: set<(Digest, Time)>, others: nat -> seq<Touch>) {
    before <= after && forall e | e in after && e !in before :: PutBy(others, e)
  }

  ghost predicate PutBy(others: nat -> seq<Touch>, e: (Digest, Time)) {
    exists i: nat :: Put(e.0, e.1) in others(i)
  }

  /** One lookup, after whatever others did first. */
  method Lookup(cache: VerdictCache, k: Digest, i: nat, now: nat -> Time, others: nat -> seq<Touch>) returns (hit: bool, ghost at: Time)
    requires cache.Valid()
    modifies cache
    ensures cache.Valid() && ByOthers(old(cache.stores), cache.stores, others)
    ensures hit ==> (k, at) in cache.stores && now(i) - at < cache.ttl && ReadAt(now, now(i))
  {
    Interfere(cache, others(i));
    at := if k in cache.items then cache.items[k] else 0;
    hit := cache.Clear(k, now(i));
  }

  lemma SortedNext(ws: seq<Text>, i: nat, pending: seq<Text>, hits: Hits, times: (Time, Time))
    requires i < |ws| && Sorted(ws, i, pending, hits)
    ensures ws[i] !in Distinct(ws, i) ==> |hits[ws[i] := times]| == |hits| + 1
    ensures ws[i] == "" || ws[i] in Distinct(ws, i) ==> Sorted(ws, i + 1, pending, hits)
    ensures ws[i] != "" && ws[i] !in Distinct(ws, i) ==> Sorted(ws, i + 1, pending, hits[ws[i] := times]) && Sorted(ws, i + 1, pending + [ws[i]], hits)
  {
    if ws[i] !in Distinct(ws, i) {
      assert hits[ws[i] := times].Keys == hits.Keys + {ws[i]};
    }
  }

  ghost predicate KeysFor(d: Digester, ctx: Context, pending: seq<Text>, keys: seq<Digest>) {
    |keys| == |pending| && forall j | 0 <= j < |keys| :: keys[j] == d(Query(ctx, pending[j]))
  }

  /** The first i windows are sorted, seen are the distinct ones among them, and found counts the hits. */
  ghost predicate Sifted(ws: seq<Text>, i: nat, pending: seq<Text>, hits: Hits, found: nat, seen: set<Text>, cached: bool)
    requires i <= |ws|
  {
    && Sorted(ws, i, pending, hits) && found == |hits| && (forall w :: w in seen <==> w in Distinct(ws, i))
    && (!cached ==> hits == map[] && pending == Distinct(ws, i))
  }

  /** What was done to the cache and read from it is as it should be. */
  ghost predicate Consulted(before: set<(Digest, Time)>, after: set<(Digest, Time)>, ttl: Time, now: nat -> Time, others: nat -> seq<Touch>,
                            d: Digester, ctx: Context, pending: seq<Text>, keys: seq<Digest>, hits: Hits) {
    ByOthers(before, after, others) && Live(after, ttl, now, d, ctx, hits) && KeysFor(d, ctx, pending, keys)
  }

  /** Every distinct non-empty window is looked up once, and the misses are put aside. */
  method Sift(cache: VerdictCache?, d: Digester, ctx: Context, windows: seq<Text>, now: nat -> Time, others: nat -> seq<Touch>)
    returns (pending: seq<Text>, keys: seq<Digest>, found: nat, ghost hits: Hits)
    requires cache != null ==> cache.Valid()
    modifies cache
    ensures cache != null ==>
              cache.Valid() && Consulted(old(cache.stores), cache.stores, cache.ttl, now, others, d, ctx, pending, keys, hits)
    ensures Sorted(windows, |windows|, pending, hits) && found == |hits|
    ensures cache == null ==> hits == map[] && pending == Distinct(windows, |windows|)
  {
    pending, keys, hits, found := [], [], map[], 0;
    var seen: set<Text> := {};
    var i := 0;
    assert Sifted(windows, 0, [], map[], 0, {}, cache != null);
    if cache != null {
      NothingYet(cache.stores, cache.ttl, now, d, ctx, others);
    }
    hide Sifted, Consulted, ByOthers;
    while i < |windows|
      invariant 0 <= i <= |windows| && Sifted(windows, i, pending, hits, found, seen, cache != null)
      invariant cache != null ==>
                  cache.Valid() && Consulted(old(cache.stores), cache.stores, cache.ttl, now, others, d, ctx, pending, keys, hits)
    {
      var w := windows[i];
      ghost var times := (0, now(i));
      if w == "" || w in seen {
        SiftedSkip(windows, i, pending, hits, found, seen, cache != null);
        i := i + 1;
        continue;
      }
      if cache != null {
        var k := d(Query(ctx, w));
        ghost var stores := cache.stores;
        var hit, at := Lookup(cache, k, i, now, others);
        times := (at, now(i));
        ConsultedNext(old(cache.stores), stores, cache.stores, cache.ttl, now, others, d, ctx, pending, keys, hits, w, times);
        if hit {
          SiftedHit(windows, i, pending, hits, found, seen, times);
          seen, i, found, hits := seen + {w}, i + 1, found + 1, hits[w := times];
          continue;
        }
        keys := keys + [k];
      }
      SiftedMiss(windows, i, pending, hits, found, seen, cache != null);
      seen, i, pending := seen + {w}, i + 1, pending + [w];
    }
    SiftedAll(windows, pending, hits, found, seen, cache != null);
  }

  lemma SiftedSkip(ws: seq<Text>, i: nat, pending: seq<Text>, hits: Hits, found: nat, seen: set<Text>, cached: bool)
    requires i < |ws| && Sifted(ws, i, pending, hits, found, seen, cached) && (ws[i] == "" || ws[i] in seen)
    ensures Sifted(ws, i + 1, pending, hits, found, seen, cached)
  {
  }

  lemma SiftedHit(ws: seq<Text>, i: nat, pending: seq<Text>, hits: Hits, found: nat, seen: set<Text>, times: (Time, Time))
    requires i < |ws| && Sifted(ws, i, pending, hits, found, seen, true) && ws[i] != "" && ws[i] !in seen
    ensures Sifted(ws, i + 1, pending, hits[ws[i] := times], found + 1, seen + {ws[i]}, true)
  {
    SortedNext(ws, i, pending, hits, times);
    hide Sorted;
  }

  lemma SiftedMiss(ws: seq<Text>, i: nat, pending: seq<Text>, hits: Hits, found: nat, seen: set<Text>, cached: bool)
    requires i < |ws| && Sifted(ws, i, pending, hits, found, seen, cached) && ws[i] != "" && ws[i] !in seen
    ensures Sifted(ws, i + 1, pending + [ws[i]], hits, found, seen + {ws[i]}, cached)
  {
    SortedNext(ws, i, pending, hits, (0, 0));
    hide Sorted;
  }

  lemma SiftedAll(ws: seq<Text>, pending: seq<Text>, hits: Hits, found: nat, seen: set<Text>, cached: bool)
    requires Sifted(ws, |ws|, pending, hits, found, seen, cached)
    ensures Sorted(ws, |ws|, pending, hits) && found == |hits| && (!cached ==> hits == map[] && pending == Distinct(ws, |ws|))
  {
    hide Sorted, Distinct;
  }

  /** One more window was looked up, after whatever others did. */
  lemma ConsultedNext(before: set<(Digest, Time)>, midway: set<(Digest, Time)>, after: set<(Digest, Time)>, ttl: Time, now: nat -> Time,
                      others: nat -> seq<Touch>, d: Digester, ctx: Context, pending: seq<Text>, keys: seq<Digest>, hits: Hits, w: Text, times: (Time, Time))
    requires Consulted(before, midway, ttl, now, others, d, ctx, pending, keys, hits) && ByOthers(midway, after, others)
    ensures (d(Query(ctx, w)), times.0) in after && times.1 - times.0 < ttl && ReadAt(now, times.1) ==>
              Consulted(before, after, ttl, now, others, d, ctx, pending, keys, hits[w := times])
    ensures Consulted(before, after, ttl, now, others, d, ctx, pending + [w], keys + [d(Query(ctx, w))], hits)
  {
    MoreByOthers(before, midway, after, others);
    hide ByOthers;
    LiveLater(midway, after, ttl, now, d, ctx, hits);
    hide Live, KeysFor;
    KeysNext(d, ctx, pending, keys, w);
    if (d(Query(ctx, w)), times.0) in after && times.1 - times.0 < ttl && ReadAt(now, times.1) {
      LiveHit(after, ttl, now, d, ctx, hits, w, times);
    }
  }

  lemma KeysNext(d: Digester, ctx: Context, pending: seq<Text>, keys: seq<Digest>, w: Text)
    requires KeysFor(d, ctx, pending, keys)
    ensures KeysFor(d, ctx, pending + [w], keys + [d(Query(ctx, w))])
  {
  }

  lemma NothingYet(stores: set<(Digest, Time)>, ttl: Time, now: nat -> Time, d: Digester, ctx: Context, others: nat -> seq<Touch>)
    ensures Consulted(stores, stores, ttl, now, others, d, ctx, [], [], map[])
  {
  }

  lemma MoreByOthers(a: set<(Digest, Time)>, b: set<(Digest, Time)>, c: set<(Digest, Time)>, others: nat -> seq<Touch>)
    requires ByOthers(a, b, others) && ByOthers(b, c, others)
    ensures ByOthers(a, c, others) && b <= c
  {
  }

  lemma LiveHit(stores: set<(Digest, Time)>, ttl: Time, now: nat -> Time, d: Digester, ctx: Context, hits: Hits, w: Text, times: (Time, Time))
    requires Live(stores, ttl, now, d, ctx, hits)
    requires (d(Query(ctx, w)), times.0) in stores && times.1 - times.0 < ttl && ReadAt(now, times.1)
    ensures Live(stores, ttl, now, d, ctx, hits[w := times])
  {
  }

  lemma LiveLater(before: set<(Digest, Time)>, after: set<(Digest, Time)>, ttl: Time, now: nat -> Time, d: Digester, ctx: Context,
                  hits: Hits)
    requires Live(before, ttl, now, d, ctx, hits) && before <= after
    ensures Live(after, ttl, now, d, ctx, hits)
  {
  }

  /**
   One entry. Whatever others do to the cache meanwhile, every distinct non-empty window is either a live hit or
   in the batch the classifier sees, and the outcome is the batch's.
   */
  method RunEntry(cache: VerdictCache?, d: Digester, ctx: Context, windows: seq<Text>, score: Scorer, cancelled: bool,
                  now: nat -> Time, others: nat -> seq<Touch>)
    returns (res: Result, pending: seq<Text>, ghost hits: Hits)
    requires cache != null ==> cache.Valid()
    modifies cache
    ensures cache != null ==>
              cache.Valid() && ByOthers(old(cache.stores), cache.stores, others) && Live(cache.stores, cache.ttl, now, d, ctx, hits)
    ensures Sorted(windows, |windows|, pending, hits)
    ensures cache == null ==> hits == map[] && pending == Distinct(windows, |windows|)
    ensures res.outcome == Judged(score, pending, cancelled) && res.hits == |hits| && res.misses == |pending|
    ensures res.clear == if cache == null || pending == [] || res.outcome == OutcomeError then []
                         else ClearKeys(d, ctx, pending, score(pending).verdicts, |pending|)
  {
    hide Sorted, ByOthers, Live;
    var keys, found;
    pending, keys, found, hits := Sift(cache, d, ctx, windows, now, others);
    res := Result(OutcomeClear, found, |pending|, []);
    if |pending| == 0 {
      return;
    }
    var out := score(pending);
    if out.failed || cancelled || |out.verdicts| != |pending| {
      res := res.(outcome := OutcomeError);
      return;
    }
    var o, spoiled := FoldVerdicts(out.verdicts);
    res := res.(outcome := o);
    if spoiled || cache == null {
      return;
    }
    var clear: seq<Digest> := [];
    var i := 0;
    while i < |out.verdicts|
      invariant 0 <= i <= |out.verdicts| && clear == ClearKeys(d, ctx, pending, out.verdicts, i)
    {
      if out.verdicts[i] == ClearVerdict {
        clear := clear + [keys[i]];
      }
      i := i + 1;
    }
    res := res.(clear := clear);
  }

  method FoldVerdicts(vs: seq<Verdict>) returns (o: Outcome, spoiled: bool)
    ensures o == Fold(vs) && spoiled == (o == OutcomeError)
  {
    o := OutcomeClear;
    var i := 0;
    while i < |vs|
      invariant 0 <= i <= |vs| && o == Fold(vs[..i]) && Malformed !in vs[..i]
    {
      assert vs[..i + 1] == vs[..i] + [vs[i]];
      match vs[i] {
        case ClearVerdict =>
        case FlaggedVerdict => o := OutcomeFlagged;
        case AbstainVerdict =>
          if o == OutcomeClear {
            o := OutcomeAbstain;
          }
        case Malformed =>
          return OutcomeError, true;
      }
      i := i + 1;
    }
    assert vs[..i] == vs;
    return o, false;
  }

  // ---- What a clear outcome means ---------------------------------------------------------------

  /** The classifier judged w clear in this very batch. */
  ghost predicate JudgedClear(score: Scorer, pending: seq<Text>, w: Text) {
    var vs := score(pending).verdicts;
    |vs| == |pending| && exists j | 0 <= j < |vs| :: pending[j] == w && vs[j] == ClearVerdict
  }

  /** Every window that counts was judged clear in this call, or was a live hit. */
  ghost predicate Justified(windows: seq<Text>, score: Scorer, pending: seq<Text>, hits: Hits) {
    forall i | 0 <= i < |windows| && windows[i] != "" :: windows[i] in hits || JudgedClear(score, pending, windows[i])
  }

  lemma {:induction false} DistinctMembers(ws: seq<Text>, n: nat)
    requires n <= |ws|
    ensures forall i | 0 <= i < n && ws[i] != "" :: ws[i] in Distinct(ws, n)
    ensures forall w | w in Distinct(ws, n) :: w != ""
  {
    if n > 0 {
      DistinctMembers(ws, n - 1);
    }
  }

  /** A clear outcome leaves no window unjudged. */
  lemma ClearMeansJudged(windows: seq<Text>, score: Scorer, cancelled: bool, pending: seq<Text>, hits: Hits)
    requires Sorted(windows, |windows|, pending, hits) && Judged(score, pending, cancelled) == OutcomeClear
    ensures Justified(windows, score, pending, hits)
  {
    DistinctMembers(windows, |windows|);
    forall i | 0 <= i < |windows| && windows[i] != "" && windows[i] !in hits
      ensures JudgedClear(score, pending, windows[i])
    {
      var w := windows[i];
      assert w in Distinct(windows, |windows|);
      var j :| 0 <= j < |pending| && pending[j] == w;
      var vs := score(pending).verdicts;
      assert vs[j] in vs;
    }
  }

  // ---- The cache does not change an answer ---------------------------------------------------------

  type Judge = Query -> Verdict

  function Verdicts(judge: Judge, ctx: Context, ws: seq<Text>): (vs: seq<Verdict>)
    ensures |vs| == |ws| && forall i | 0 <= i < |ws| :: vs[i] == judge(Query(ctx, ws[i]))
  {
    seq(|ws|, i requires 0 <= i < |ws| => judge(Query(ctx, ws[i])))
  }

  /** The classifier's verdict on a window depends on the window alone. */
  ghost predicate Deterministic(score: Scorer, ctx: Context, judge: Judge) {
    forall ws: seq<Text> :: score(ws) == Answer(Verdicts(judge, ctx, ws), false)
  }

  /** k is the digest of one of the known queries. */
  ghost predicate KnownKey(d: Digester, known: set<Query>, k: Digest) {
    exists q :: q in known && d(q) == k
  }

  /** Everything stored is the digest of a known query, and those are all clear. */
  ghost predicate Honest(d: Digester, judge: Judge, known: set<Query>, stores: set<(Digest, Time)>) {
    (forall q | q in known :: judge(q) == ClearVerdict) && forall e | e in stores :: KnownKey(d, known, e.0)
  }

  /** One of the windows shares its digest with a different query that was judged clear before. */
  ghost predicate Collides(d: Digester, ctx: Context, ws: seq<Text>, known: set<Query>) {
    exists i, q :: 0 <= i < |ws| && q in known && q != Query(ctx, ws[i]) && d(q) == d(Query(ctx, ws[i]))
  }

  lemma HonestHit(d: Digester, ctx: Context, judge: Judge, known: set<Query>, stores: set<(Digest, Time)>, ws: seq<Text>, i: nat)
    requires Honest(d, judge, known, stores) && i < |ws| && KnownKey(d, known, d(Query(ctx, ws[i]))) && !Collides(d, ctx, ws, known)
    ensures judge(Query(ctx, ws[i])) == ClearVerdict
  {
    var q :| q in known && d(q) == d(Query(ctx, ws[i]));
    assert q == Query(ctx, ws[i]);
  }

  /** The queries of a batch that were judged clear. */
  function ClearQueries(judge: Judge, ctx: Context, ws: seq<Text>): set<Query> {
    set i | 0 <= i < |ws| && judge(Query(ctx, ws[i])) == ClearVerdict :: Query(ctx, ws[i])
  }

  lemma {:induction false} ClearKeysAreKnown(d: Digester, ctx: Context, judge: Judge, pending: seq<Text>, n: nat, k: Digest)
    requires n <= |pending| && k in ClearKeys(d, ctx, pending, Verdicts(judge, ctx, pending), n)
    ensures KnownKey(d, ClearQueries(judge, ctx, pending), k)
  {
    var vs := Verdicts(judge, ctx, pending);
    if k in ClearKeys(d, ctx, pending, vs, n - 1) {
      ClearKeysAreKnown(d, ctx, judge, pending, n - 1, k);
    } else {
      assert Query(ctx, pending[n - 1]) in ClearQueries(judge, ctx, pending);
    }
  }

  /** Leaving out windows whose verdict is clear does not change the outcome. */
  lemma ClearIsTheIdentity(judge: Judge, ctx: Context, all: seq<Text>, pending: seq<Text>)
    requires forall w | w in pending :: w in all
    requires forall w | w in all && w !in pending :: judge(Query(ctx, w)) == ClearVerdict
    ensures Fold(Verdicts(judge, ctx, all)) == Fold(Verdicts(judge, ctx, pending))
  {
    var a, p := Verdicts(judge, ctx, all), Verdicts(judge, ctx, pending);
    forall v: Verdict | v != ClearVerdict
      ensures v in a <==> v in p
    {
      if v in a {
        var i :| 0 <= i < |a| && a[i] == v;
        assert all[i] in all && all[i] in pending;
        var j :| 0 <= j < |pending| && pending[j] == all[i];
        assert p[j] == v;
      }
      if v in p {
        var j :| 0 <= j < |p| && p[j] == v;
        assert pending[j] in pending && pending[j] in all;
        var i :| 0 <= i < |all| && all[i] == pending[j];
        assert a[i] == v;
      }
    }
  }

  /**
   With a deterministic classifier the outcome is the one without a cache, unless a window shares its digest
   with a different query that was judged clear.
   */
  lemma CacheIsTransparent(stores: set<(Digest, Time)>, ttl: Time, now: nat -> Time, d: Digester, ctx: Context, judge: Judge, known: set<Query>,
                           windows: seq<Text>, score: Scorer, pending: seq<Text>, hits: Hits)
    requires Deterministic(score, ctx, judge) && Honest(d, judge, known, stores)
    requires Sorted(windows, |windows|, pending, hits) && Live(stores, ttl, now, d, ctx, hits)
    ensures Collides(d, ctx, Distinct(windows, |windows|), known)
         || Judged(score, pending, false) == Judged(score, Distinct(windows, |windows|), false)
  {
    var all := Distinct(windows, |windows|);
    if !Collides(d, ctx, all, known) {
      forall w | w in all && w !in pending
        ensures judge(Query(ctx, w)) == ClearVerdict
      {
        assert (d(Query(ctx, w)), hits[w].0) in stores;
        var i :| 0 <= i < |all| && all[i] == w;
        HonestHit(d, ctx, judge, known, stores, all, i);
      }
      ClearIsTheIdentity(judge, ctx, all, pending);
      assert Fold([]) == OutcomeClear;
    }
  }

  // ---- The whole run ---------------------------------------------------------------------------------

  datatype Mode = Shadow | Enforce

  /** One entry: its own windows of the segments, its classifier, its mode. */
  datatype Entry = Entry(name: string, settings: string, mode: Mode, windows: seq<Text> -> seq<Text>, score: Scorer)

  /** What the schedule does to an entry: the clock at its lookups, the others' accesses, whether its answer came in time. */
  datatype Fate = Fate(now: nat -> Time, others: nat -> seq<Touch>, cancelled: bool, inTime: bool, acceptedAt: Time)

  datatype Request = Request(team: string, policies: seq<(string, int, string)>, segments: seq<Text>)

  function ContextOf(e: Entry, req: Request): Context {
    Context(req.team, e.name, e.settings, req.policies)
  }

  /** Every stored key came from another request or from an answer that was accepted. */
  ghost predicate Accounted(before: set<(Digest, Time)>, after: set<(Digest, Time)>, fate: Fate, clear: seq<Digest>) {
    before <= after && forall e | e in after && e !in before :: PutBy(fate.others, e) || (fate.inTime && e.0 in clear)
  }

  /** Stores the keys of an accepted answer. */
  method Accept(cache: VerdictCache, keys: seq<Digest>, at: Time)
    requires cache.Valid()
    modifies cache
    ensures cache.Valid() && old(cache.stores) <= cache.stores
    ensures forall s | s in cache.stores && s !in old(cache.stores) :: s.0 in keys
    ensures forall k | k in keys :: (k, at) in cache.stores
  {
    var i := 0;
    while i < |keys|
      invariant 0 <= i <= |keys| && cache.Valid() && old(cache.stores) <= cache.stores
      invariant forall s | s in cache.stores && s !in old(cache.stores) :: s.0 in keys
      invariant forall j | 0 <= j < i :: (keys[j], at) in cache.stores
    {
      cache.Store(keys[i], at);
      i := i + 1;
    }
  }

  /** Each window judged clear is now in the cache, as of when the answer was accepted. */
  ghost predicate Warmed(stores: set<(Digest, Time)>, d: Digester, ctx: Context, pending: seq<Text>, score: Scorer, at: Time) {
    var vs := score(pending).verdicts;
    forall i | 0 <= i < |pending| && i < |vs| && vs[i] == ClearVerdict :: (d(Query(ctx, pending[i])), at) in stores
  }

  /**
   One entry of a run: a late answer is an error and stores nothing; what a usable one in time judged clear is
   stored, even when another window was flagged.
   */
  method RunAndAccept(cache: VerdictCache?, d: Digester, e: Entry, req: Request, fate: Fate)
    returns (outcome: Outcome, pending: seq<Text>, ghost hits: Hits, ghost clear: seq<Digest>)
    requires cache != null ==> cache.Valid()
    modifies cache
    ensures var ws := e.windows(req.segments);
            && Sorted(ws, |ws|, pending, hits)
            && outcome == (if fate.inTime then Judged(e.score, pending, fate.cancelled) else OutcomeError)
            && (cache == null ==> hits == map[] && pending == Distinct(ws, |ws|))
    ensures cache != null ==>
              && cache.Valid() && Live(cache.stores, cache.ttl, fate.now, d, ContextOf(e, req), hits)
              && Accounted(old(cache.stores), cache.stores, fate, clear)
    ensures clear == [] || (pending != [] && |e.score(pending).verdicts| == |pending|
                            && clear == ClearKeys(d, ContextOf(e, req), pending, e.score(pending).verdicts, |pending|))
    ensures cache != null && fate.inTime && pending != [] && Usable(e.score, pending, fate.cancelled) ==>
              Warmed(cache.stores, d, ContextOf(e, req), pending, e.score, fate.acceptedAt)
  {
    hide Sorted, Distinct, ClearKeys, Fold;
    var res;
    res, pending, hits := RunEntry(cache, d, ContextOf(e, req), e.windows(req.segments), e.score, fate.cancelled, fate.now, fate.others);
    clear := res.clear;
    if !fate.inTime {
      return OutcomeError, pending, hits, clear;
    }
    outcome := res.outcome;
    if cache != null {
      Accept(cache, res.clear, fate.acceptedAt);
      assert Live(cache.stores, cache.ttl, fate.now, d, ContextOf(e, req), hits);
      if pending != [] && Usable(e.score, pending, fate.cancelled) {
        JudgedMeans(e.score, pending, fate.cancelled);
        ClearKeysHave(d, ContextOf(e, req), pending, e.score(pending).verdicts, |pending|);
      }
    }
  }

  function TotalLength(segments: seq<Text>): nat {
    if segments == [] then 0 else TotalLength(segments[..|segments| - 1]) + |segments[|segments| - 1]|
  }

  /** The length of all segments together. */
  lemma {:induction false} TotalLengthAdds(a: seq<Text>, b: seq<Text>)
    ensures TotalLength(a + b) == TotalLength(a) + TotalLength(b)
    decreases |b|
  {
    if b == [] {
      assert a + b == a;
    } else {
      var n := |b| - 1;
      assert (a + b)[..|a| + n] == a + b[..n];
      TotalLengthAdds(a, b[..n]);
    }
  }

  lemma TotalLengthOfOne(t: Text)
    ensures TotalLength([]) == 0 && TotalLength([t]) == |t|
  {
    assert [t][..0] == [];
  }

  /** The outcome of an entry without a cache or a deadline. */
  function CacheFree(e: Entry, req: Request): Outcome {
    Judged(e.score, Distinct(e.windows(req.segments), |e.windows(req.segments)|), false)
  }

  /** The classifiers are deterministic, and what is or gets stored by others was judged clear. */
  ghost predicate Orderly(d: Digester, judge: Judge, known: set<Query>, stores: set<(Digest, Time)>, entries: seq<Entry>, fates: seq<Fate>, req: Request) {
    && Honest(d, judge, known, stores)
    && (forall i | 0 <= i < |entries| :: Deterministic(entries[i].score, ContextOf(entries[i], req), judge))
    && forall i | 0 <= i < |fates| :: PutsKnown(d, known, fates[i])
  }

  ghost predicate PutsKnown(d: Digester, known: set<Query>, fate: Fate) {
    forall j: nat, k, at | Put(k, at) in fate.others(j) :: KnownKey(d, known, k)
  }

  /** A timely, uncancelled entry answered as without a cache, collisions aside. */
  ghost predicate Transparent(d: Digester, known: set<Query>, e: Entry, fate: Fate, req: Request, outcome: Outcome) {
    fate.inTime && !fate.cancelled ==>
      outcome == CacheFree(e, req) || Collides(d, ContextOf(e, req), Distinct(e.windows(req.segments), |e.windows(req.segments)|), known)
  }

  lemma HonestAfter(d: Digester, judge: Judge, known: set<Query>, before: set<(Digest, Time)>, after: set<(Digest, Time)>,
                    e: Entry, fate: Fate, req: Request, pending: seq<Text>, clear: seq<Digest>)
    requires Honest(d, judge, known, before) && Deterministic(e.score, ContextOf(e, req), judge) && PutsKnown(d, known, fate)
    requires Accounted(before, after, fate, clear)
    requires clear == [] || (pending != [] && |e.score(pending).verdicts| == |pending|
                             && clear == ClearKeys(d, ContextOf(e, req), pending, e.score(pending).verdicts, |pending|))
    ensures Honest(d, judge, known + ClearQueries(judge, ContextOf(e, req), pending), after)
  {
    var ctx := ContextOf(e, req);
    var more := known + ClearQueries(judge, ctx, pending);
    hide ClearKeys, ClearQueries;
    forall s | s in after
      ensures KnownKey(d, more, s.0)
    {
      if s in before {
        KnownMore(d, known, more, s.0);
      } else if s.0 in clear {
        ClearKeysAreKnown(d, ctx, judge, pending, |pending|, s.0);
        KnownMore(d, ClearQueries(judge, ctx, pending), more, s.0);
      } else {
        var j: nat :| Put(s.0, s.1) in fate.others(j);
        KnownMore(d, known, more, s.0);
      }
    }
    ClearQueriesAreClear(judge, ctx, pending);
  }

  lemma ClearQueriesAreClear(judge: Judge, ctx: Context, ws: seq<Text>)
    ensures forall q | q in ClearQueries(judge, ctx, ws) :: judge(q) == ClearVerdict
  {
  }

  lemma KnownMore(d: Digester, known: set<Query>, more: set<Query>, k: Digest)
    requires KnownKey(d, known, k) && known <= more
    ensures KnownKey(d, more, k)
  {
    var q :| q in known && d(q) == k;
    assert q in more;
  }

  lemma TransparentMore(d: Digester, known: set<Query>, more: set<Query>, e: Entry, fate: Fate, req: Request, outcome: Outcome)
    requires Transparent(d, known, e, fate, req, outcome) && known <= more
    ensures Transparent(d, more, e, fate, req, outcome)
  {
    var ctx, ws := ContextOf(e, req), Distinct(e.windows(req.segments), |e.windows(req.segments)|);
    hide Distinct, CacheFree;
    if Collides(d, ctx, ws, known) {
      var i, q :| 0 <= i < |ws| && q in known && q != Query(ctx, ws[i]) && d(q) == d(Query(ctx, ws[i]));
      assert q in more;
    }
  }

  /**
   What one entry's outcome says, whatever the classifier is like: pending is the batch that was sent, hits the
   cache hits; together they are the entry's windows, and the outcome is the batch's. Without a cache stores is empty.
   */
  ghost predicate Means(stores: set<(Digest, Time)>, ttl: Time, d: Digester, e: Entry, fate: Fate, req: Request,
                        outcome: Outcome, pending: seq<Text>, hits: Hits) {
    var ws := e.windows(req.segments);
    && Sorted(ws, |ws|, pending, hits) && Live(stores, ttl, fate.now, d, ContextOf(e, req), hits)
    && outcome == (if fate.inTime then Judged(e.score, pending, fate.cancelled) else OutcomeError)
    && (outcome == OutcomeClear ==> Justified(ws, e.score, pending, hits))
  }

  lemma MeansMore(stores: set<(Digest, Time)>, more: set<(Digest, Time)>, ttl: Time, d: Digester, e: Entry, fate: Fate, req: Request,
                  outcome: Outcome, pending: seq<Text>, hits: Hits)
    requires Means(stores, ttl, d, e, fate, req, outcome, pending, hits) && stores <= more
    ensures Means(more, ttl, d, e, fate, req, outcome, pending, hits)
  {
    hide Justified, Sorted, Judged;
    LiveLater(stores, more, ttl, fate.now, d, ContextOf(e, req), hits);
  }

  ghost function StoresOf(cache: VerdictCache?): set<(Digest, Time)>
    reads cache
  {
    if cache == null then {} else cache.stores
  }

  ghost function TtlOf(cache: VerdictCache?): Time {
    if cache == null then 0 else cache.ttl
  }

  /** One entry, with what both kinds of classifier promise. */
  method RunNext(cache: VerdictCache?, d: Digester, e: Entry, req: Request, fate: Fate, ghost judge: Judge, ghost known: set<Query>)
    returns (outcome: Outcome, pending: seq<Text>, ghost hits: Hits, ghost more: set<Query>)
    requires cache != null ==> cache.Valid()
    modifies cache
    ensures Means(StoresOf(cache), TtlOf(cache), d, e, fate, req, outcome, pending, hits) && known <= more
    ensures old(StoresOf(cache)) <= StoresOf(cache) && (cache != null ==> cache.Valid())
    ensures Deterministic(e.score, ContextOf(e, req), judge) ==>
              if cache == null then Transparent(d, more, e, fate, req, outcome)
              else Honest(d, judge, known, old(cache.stores)) && PutsKnown(d, known, fate) ==>
                     Honest(d, judge, more, cache.stores) && Transparent(d, more, e, fate, req, outcome)
  {
    ghost var before := StoresOf(cache);
    ghost var clear;
    outcome, pending, hits, clear := RunAndAccept(cache, d, e, req, fate);
    ghost var ctx, ws := ContextOf(e, req), e.windows(req.segments);
    more := known + ClearQueries(judge, ctx, pending);
    if outcome == OutcomeClear {
      ClearMeansJudged(ws, e.score, fate.cancelled, pending, hits);
    }
    hide Sorted, Live, Deterministic, Honest, PutsKnown, Accounted, ClearKeys, ClearQueries, Distinct, Collides, Justified;
    if cache != null && Deterministic(e.score, ctx, judge) && Honest(d, judge, known, before) && PutsKnown(d, known, fate) {
      HonestAfter(d, judge, known, before, cache.stores, e, fate, req, pending, clear);
      if fate.inTime && !fate.cancelled {
        CacheIsTransparent(cache.stores, cache.ttl, fate.now, d, ctx, judge, more, ws, e.score, pending, hits);
      }
    }
  }

  /** Every entry's outcome so far is as Means says. */
  ghost predicate AllMean(stores: set<(Digest, Time)>, ttl: Time, d: Digester, entries: seq<Entry>, fates: seq<Fate>, req: Request,
                          results: seq<Outcome>, sent: seq<seq<Text>>, found: seq<Hits>) {
    && |results| == |sent| == |found| <= |entries| == |fates|
    && forall i | 0 <= i < |results| :: Means(stores, ttl, d, entries[i], fates[i], req, results[i], sent[i], found[i])
  }

  ghost predicate AllTransparent(d: Digester, known: set<Query>, entries: seq<Entry>, fates: seq<Fate>, req: Request, results: seq<Outcome>) {
    |results| <= |entries| == |fates| && forall i | 0 <= i < |results| :: Transparent(d, known, entries[i], fates[i], req, results[i])
  }

  lemma AllMeanNext(before: set<(Digest, Time)>, after: set<(Digest, Time)>, ttl: Time, d: Digester, entries: seq<Entry>, fates: seq<Fate>,
                    req: Request, results: seq<Outcome>, sent: seq<seq<Text>>, found: seq<Hits>, o: Outcome, pending: seq<Text>, hits: Hits)
    requires AllMean(before, ttl, d, entries, fates, req, results, sent, found) && before <= after && |results| < |entries|
    requires Means(after, ttl, d, entries[|results|], fates[|results|], req, o, pending, hits)
    ensures AllMean(after, ttl, d, entries, fates, req, results + [o], sent + [pending], found + [hits])
  {
    hide Means;
    forall i | 0 <= i < |results|
      ensures Means(after, ttl, d, entries[i], fates[i], req, results[i], sent[i], found[i])
    {
      MeansMore(before, after, ttl, d, entries[i], fates[i], req, results[i], sent[i], found[i]);
    }
  }

  lemma AllTransparentNext(d: Digester, known: set<Query>, more: set<Query>, entries: seq<Entry>, fates: seq<Fate>, req: Request,
                           results: seq<Outcome>, o: Outcome)
    requires AllTransparent(d, known, entries, fates, req, results) && known <= more && |results| < |entries|
    requires Transparent(d, more, entries[|results|], fates[|results|], req, o)
    ensures AllTransparent(d, more, entries, fates, req, results + [o])
  {
    hide Transparent;
    forall i | 0 <= i < |results|
      ensures Transparent(d, more, entries[i], fates[i], req, results[i])
    {
      TransparentMore(d, known, more, entries[i], fates[i], req, results[i]);
    }
  }

  /** How much there is to classify, and is it anything at all? */
  method Measure(segments: seq<Text>) returns (total: nat, empty: bool)
    ensures total == TotalLength(segments) && (empty <==> forall i | 0 <= i < |segments| :: segments[i] == "")
  {
    total, empty := 0, true;
    for i := 0 to |segments|
      invariant total == TotalLength(segments[..i]) && (empty <==> forall j | 0 <= j < i :: segments[j] == "")
    {
      assert segments[..i + 1][..i] == segments[..i];
      total := total + |segments[i]|;
      empty := empty && segments[i] == "";
    }
    assert segments[..|segments|] == segments;
  }

  /**
   A whole run. Each outcome is as Means says of the batch that was sent and the hits that were found; and with
   deterministic classifiers every entry that finished in time answers as it would without a cache, unless
   digests collide.
   */
  method Run(cache: VerdictCache?, d: Digester, entries: seq<Entry>, req: Request, maxInputBytes: nat, fates: seq<Fate>,
             ghost judge: Judge, ghost known: set<Query>)
    returns (results: seq<Outcome>, sent: seq<seq<Text>>, ghost found: seq<Hits>, ghost more: set<Query>)
    requires |fates| == |entries| && (cache != null ==> cache.Valid())
    modifies cache
    ensures |results| == |entries| && known <= more && (cache != null ==> cache.Valid())
    ensures var empty := forall i | 0 <= i < |req.segments| :: req.segments[i] == "";
            if empty then forall i | 0 <= i < |results| :: results[i] == OutcomeSkipped
            else if TotalLength(req.segments) > maxInputBytes then forall i | 0 <= i < |results| :: results[i] == OutcomeAbstain
            else
              && AllMean(StoresOf(cache), TtlOf(cache), d, entries, fates, req, results, sent, found)
              && (cache != null && Orderly(d, judge, known, old(cache.stores), entries, fates, req) ==>
                    Honest(d, judge, more, cache.stores) && AllTransparent(d, more, entries, fates, req, results))
  {
    more := known;
    var total, empty := Measure(req.segments);
    results, sent, found := [], [], [];
    if |entries| == 0 {
      return;
    }
    if empty || total > maxInputBytes {
      results := seq(|entries|, i => if empty then OutcomeSkipped else OutcomeAbstain);
      return;
    }
    ghost var before := StoresOf(cache);
    ghost var orderly := cache != null && Orderly(d, judge, known, before, entries, fates, req);
    assert AllMean(before, TtlOf(cache), d, entries, fates, req, [], [], []) && AllTransparent(d, more, entries, fates, req, []);
    hide Means, Transparent, Honest, Deterministic, PutsKnown, TotalLength, AllMean, AllTransparent;
    while |results| < |entries|
      invariant |results| == |sent| == |found| <= |entries| && known <= more && (cache != null ==> cache.Valid())
      invariant AllMean(StoresOf(cache), TtlOf(cache), d, entries, fates, req, results, sent, found)
      invariant orderly ==> Honest(d, judge, more, cache.stores) && AllTransparent(d, more, entries, fates, req, results)
    {
      var i := |results|;
      ghost var was, stores := more, StoresOf(cache);
      var outcome, pending;
      ghost var hits;
      if orderly {
        PutsKnownMore(d, known, more, fates[i]);
      }
      outcome, pending, hits, more := RunNext(cache, d, entries[i], req, fates[i], judge, more);
      AllMeanNext(stores, StoresOf(cache), TtlOf(cache), d, entries, fates, req, results, sent, found, outcome, pending, hits);
      if orderly {
        AllTransparentNext(d, was, more, entries, fates, req, results, outcome);
      }
      results, sent, found := results + [outcome], sent + [pending], found + [hits];
    }
  }

  lemma PutsKnownMore(d: Digester, known: set<Query>, more: set<Query>, fate: Fate)
    requires PutsKnown(d, known, fate) && known <= more
    ensures PutsKnown(d, more, fate)
  {
    hide KnownKey;
    forall j: nat, k, at | Put(k, at) in fate.others(j)
      ensures KnownKey(d, more, k)
    {
      KnownMore(d, known, more, k);
    }
  }

  /** Only enforced entries count: one flag classifies, one failure makes uninspectable, independently. */
  method Combine(entries: seq<Entry>, results: seq<Outcome>) returns (classified: bool, uninspectable: bool)
    requires |entries| == |results|
    ensures classified <==> exists i | 0 <= i < |results| :: entries[i].mode == Enforce && results[i] == OutcomeFlagged
    ensures uninspectable <==> exists i | 0 <= i < |results| :: entries[i].mode == Enforce && results[i] in {OutcomeAbstain, OutcomeError}
  {
    classified, uninspectable := false, false;
    for i := 0 to |results|
      invariant classified <==> exists j | 0 <= j < i :: entries[j].mode == Enforce && results[j] == OutcomeFlagged
      invariant uninspectable <==> exists j | 0 <= j < i :: entries[j].mode == Enforce && results[j] in {OutcomeAbstain, OutcomeError}
    {
      if entries[i].mode != Enforce {
        continue;
      }
      match results[i] {
        case OutcomeFlagged => classified := true;
        case OutcomeAbstain => uninspectable := true;
        case OutcomeError => uninspectable := true;
        case _ =>
      }
    }
  }
}
