/**
 The writer against the verifier, over whole lives of a gateway (internal/audit/writer.go,
 internal/audit/verify.go): what the writers of successive processes leave behind passes verification and
 restarts.
 */
module AuditRuns {
  import opened Basics
  import opened AuditFormat
  import opened AuditChain
  import opened AuditWriter

  // ---- What verification makes of a writer's lines --------------------------------------

  /** What is said about line i of a stream does not depend on what follows it. */
  lemma {:induction false} PrefixSame(c: Codec, ls: seq<Line>, more: seq<Line>, i: nat)
    requires i < |ls|
    ensures InstanceAt(c, ls + more, i) == InstanceAt(c, ls, i) && Begins(c, ls + more, i) == Begins(c, ls, i)
    ensures LinkedAt(c, ls + more, i) == LinkedAt(c, ls, i) && Length(c, ls + more, i) == Length(c, ls, i)
  {
    assert (ls + more)[i] == ls[i];
    if i > 0 {
      assert (ls + more)[i - 1] == ls[i - 1];
      PrefixSame(c, ls, more, i - 1);
    }
  }

  lemma {:induction false} PrefixInstances(c: Codec, ls: seq<Line>, more: seq<Line>, n: nat)
    requires n <= |ls|
    ensures Instances(c, ls + more, n) == Instances(c, ls, n)
  {
    if n > 0 {
      PrefixInstances(c, ls, more, n - 1);
      PrefixSame(c, ls, more, n - 1);
      assert (ls + more)[n - 1] == ls[n - 1];
    }
  }

  /** The next writer's segment begins where the prior stream ends. */
  ghost predicate Fresh(c: Codec, ls: seq<Line>, instance: string) {
    ls != [] ==> InstanceAt(c, ls, |ls| - 1) != instance
  }

  lemma SpunFacts(c: Codec, instance: string, chain: seq<Line>, k: nat)
    requires Spun(c, instance, chain) && k < |chain|
    ensures c.parse(chain[k]).Some? && c.parse(chain[k]).value.instance == instance
    ensures c.parse(chain[k]).value.prevHash == if k == 0 then GENESIS else c.hash(chain[k - 1])
  {
    hide Clean;
    if k > 0 {
      assert chain[..k][k - 1] == chain[k - 1];
    }
  }

  /** A line of the same instance as the line before it, naming that line's hash, continues the segment. */
  lemma Continues(c: Codec, ls: seq<Line>, i: nat)
    requires 0 < i < |ls| && c.parse(ls[i]).Some? && c.parse(ls[i]).value.instance == InstanceAt(c, ls, i - 1)
    requires c.parse(ls[i]).value.prevHash == c.hash(ls[i - 1])
    ensures LinkedAt(c, ls, i) && InstanceAt(c, ls, i) == InstanceAt(c, ls, i - 1) && Length(c, ls, i) == Length(c, ls, i - 1) + 1
  {
  }

  /** A line that names the genesis and differs in instance from what precedes it begins a segment. */
  lemma StartsAnew(c: Codec, prior: seq<Line>, chain: seq<Line>)
    requires chain != [] && c.parse(chain[0]).Some? && c.parse(chain[0]).value.prevHash == GENESIS
    requires Fresh(c, prior, c.parse(chain[0]).value.instance)
    ensures var ls, i := prior + chain, |prior|;
            LinkedAt(c, ls, i) && InstanceAt(c, ls, i) == c.parse(chain[0]).value.instance && Length(c, ls, i) == 1
  {
    if prior != [] {
      PrefixSame(c, prior, chain, |prior| - 1);
    }
  }

  /** Line k of a writer's chain, appended to a prior stream. */
  lemma {:induction false} SpunAt(c: Codec, prior: seq<Line>, chain: seq<Line>, instance: string, k: nat)
    requires Spun(c, instance, chain) && Fresh(c, prior, instance) && k < |chain|
    ensures var ls, i := prior + chain, |prior| + k;
            && ls[i] == chain[k] && LinkedAt(c, ls, i) && InstanceAt(c, ls, i) == instance && Length(c, ls, i) == k + 1
  {
    hide Spun, Fresh, LinkedAt, InstanceAt, Length;
    SpunFacts(c, instance, chain, k);
    if k > 0 {
      SpunAt(c, prior, chain, instance, k - 1);
      Continues(c, prior + chain, |prior| + k);
    } else {
      StartsAnew(c, prior, chain);
    }
  }

  lemma {:induction false} SpunInstances(c: Codec, prior: seq<Line>, chain: seq<Line>, instance: string, k: nat)
    requires Spun(c, instance, chain) && Fresh(c, prior, instance) && k <= |chain|
    ensures Instances(c, prior + chain, |prior| + k)
         == if k == 0 then Instances(c, prior, |prior|) else Instances(c, prior, |prior|)[instance := Segment(c.hash(chain[k - 1]), k)]
  {
    hide Spun, Fresh, LinkedAt, InstanceAt, Length;
    if k == 0 {
      PrefixInstances(c, prior, chain, |prior|);
    } else {
      SpunInstances(c, prior, chain, instance, k - 1);
      SpunAt(c, prior, chain, instance, k - 1);
    }
  }

  /**
   A writer's lines, appended to an intact stream that did not end in the same instance, are intact; Verify
   reports the writer's own hash and count; and unless the instance was there before, HeadAtCount finds the
   hash of each record at its count.
   */
  lemma WriterVerifies(c: Codec, prior: seq<Line>, chain: seq<Line>, instance: string)
    requires Spun(c, instance, chain) && Fresh(c, prior, instance) && Chained(c, prior, |prior|)
    ensures var ls := prior + chain;
            && Chained(c, ls, |ls|)
            && Instances(c, ls, |ls|) == (if chain == [] then Instances(c, prior, |prior|)
                                          else Instances(c, prior, |prior|)[instance := Segment(HeadOf(c, chain), |chain|)])
            && (instance !in Instances(c, prior, |prior|) ==>
                  forall k | 1 <= k <= |chain| :: FirstReach(c, ls, instance, k, |ls|) == Some(|prior| + k - 1))
  {
    var ls := prior + chain;
    hide Spun, Fresh, LinkedAt, InstanceAt, Length, FirstReach, Instances;
    SpunInstances(c, prior, chain, instance, |chain|);
    forall i | 0 <= i < |ls|
      ensures LinkedAt(c, ls, i)
    {
      if i < |prior| {
        PrefixSame(c, prior, chain, i);
      } else {
        SpunAt(c, prior, chain, instance, i - |prior|);
      }
    }
    if instance !in Instances(c, prior, |prior|) {
      forall k | 1 <= k <= |chain|
        ensures FirstReach(c, ls, instance, k, |ls|) == Some(|prior| + k - 1)
      {
        ReachInOwnSegment(c, prior, chain, instance, k);
      }
    }
  }

  lemma {:induction false} NotAmong(c: Codec, ls: seq<Line>, instance: string, n: nat, i: nat)
    requires i < n <= |ls| && instance !in Instances(c, ls, n)
    ensures InstanceAt(c, ls, i) != instance
  {
    if i < n - 1 {
      NotAmong(c, ls, instance, n - 1, i);
    }
  }

  lemma ReachInOwnSegment(c: Codec, prior: seq<Line>, chain: seq<Line>, instance: string, k: nat)
    requires Spun(c, instance, chain) && Fresh(c, prior, instance) && instance !in Instances(c, prior, |prior|) && 1 <= k <= |chain|
    ensures var ls := prior + chain; FirstReach(c, ls, instance, k, |ls|) == Some(|prior| + k - 1)
  {
    var ls := prior + chain;
    hide Spun, Fresh, LinkedAt, InstanceAt, Length, FirstReach, Instances;
    forall i | 0 <= i < |prior| + k
      ensures Reaches(c, ls, i, instance, k) <==> i == |prior| + k - 1
    {
      if i < |prior| {
        PrefixSame(c, prior, chain, i);
        NotAmong(c, prior, instance, |prior|, i);
      } else {
        SpunAt(c, prior, chain, instance, i - |prior|);
      }
    }
    hide Reaches;
    assert Reaches(c, ls, |prior| + k - 1, instance, k);
  }

  /** The published head is what Verify reports for the instance exactly when no WAL append has failed. */
  lemma HeadAgreesIffNothingWasLost(w: Writer, prior: seq<Line>)
    requires w.Valid() && w.emitted != [] && Fresh(w.c, prior, w.instance) && Chained(w.c, prior, |prior|)
    ensures var ls := prior + w.emitted;
            && w.instance in Instances(w.c, ls, |ls|)
            && (w.HeadHash() == (Instances(w.c, ls, |ls|)[w.instance].head, Instances(w.c, ls, |ls|)[w.instance].count)
                <==> |w.durable| == |w.emitted|)
  {
    WriterVerifies(w.c, prior, w.emitted, w.instance);
    hide Instances, Spun, Chained, Fresh;
  }

  // ---- One stream from many processes ---------------------------------------------------------

  /** One process: its instance id and what its queue received. */
  datatype Life = Life(instance: string, jobs: seq<Job>)

  /** Processes have their own ids; what happens to their records is arbitrary. */
  predicate OwnIds(lives: seq<Life>, sinks: nat) {
    && (forall i, j | 0 <= i < j < |lives| :: lives[i].instance != lives[j].instance)
    && forall i, j | 0 <= i < |lives| && 0 <= j < |lives[i].jobs| :: |lives[i].jobs[j].sinks| == sinks
  }

  /** Sink k takes every record of those of the first n lives that ran. */
  ghost predicate Keeps(lives: seq<Life>, ran: seq<bool>, k: nat)
    requires |ran| <= |lives|
  {
    forall i | 0 <= i < |ran| && ran[i] :: Accepts(lives[i].jobs, |lives[i].jobs|, k)
  }

  /** All instances of an intact stream are among the first n lives. */
  ghost predicate From(c: Codec, ls: seq<Line>, lives: seq<Life>, n: nat)
    requires n <= |lives|
  {
    forall x | x in Instances(c, ls, |ls|) :: exists i | 0 <= i < n :: lives[i].instance == x
  }

  lemma LastIsAmong(c: Codec, ls: seq<Line>)
    requires ls != []
    ensures InstanceAt(c, ls, |ls| - 1) in Instances(c, ls, |ls|)
  {
    hide InstanceAt, Length;
  }

  /** The next life is a new instance for the stream. */
  lemma NewcomerIsFresh(c: Codec, ls: seq<Line>, lives: seq<Life>, n: nat, sinks: nat)
    requires n < |lives| && OwnIds(lives, sinks) && From(c, ls, lives, n)
    ensures Fresh(c, ls, lives[n].instance) && lives[n].instance !in Instances(c, ls, |ls|)
  {
    hide InstanceAt, Instances;
    assert forall i | 0 <= i < n :: lives[i].instance != lives[n].instance;
    if ls != [] {
      LastIsAmong(c, ls);
    }
  }

  lemma FromNext(c: Codec, ls: seq<Line>, chain: seq<Line>, lives: seq<Life>, n: nat)
    requires n < |lives| && From(c, ls, lives, n) && Spun(c, lives[n].instance, chain) && Fresh(c, ls, lives[n].instance)
    ensures From(c, ls + chain, lives, n + 1)
  {
    SpunInstances(c, ls, chain, lives[n].instance, |chain|);
    hide Spun, Fresh, Instances;
    forall x | x in Instances(c, ls + chain, |ls + chain|)
      ensures exists i | 0 <= i < n + 1 :: lives[i].instance == x
    {
      if x in Instances(c, ls, |ls|) {
        var i :| 0 <= i < n && lives[i].instance == x;
      } else {
        assert lives[n].instance == x;
      }
    }
  }

  lemma SpunClean(c: Codec, instance: string, chain: seq<Line>)
    requires Spun(c, instance, chain)
    ensures AllClean(chain)
  {
    hide Clean;
  }

  lemma StreamOf(ls: seq<Line>)
    requires AllClean(ls)
    ensures StreamLines(Encode(ls)) == ls
  {
    LinesReadBack(ls, []);
    assert Encode(ls) + [] == Encode(ls);
  }

  lemma CleanNext(c: Codec, instance: string, ls: seq<Line>, chain: seq<Line>)
    requires AllClean(ls) && Spun(c, instance, chain)
    ensures AllClean(ls + chain)
  {
    SpunClean(c, instance, chain);
    hide Clean, Spun;
  }

  /** Verification reports exactly this chain for its instance, and finds each of its records at its count. */
  ghost predicate Reported(c: Codec, ls: seq<Line>, instance: string, chain: seq<Line>) {
    chain != [] ==>
      && instance in Instances(c, ls, |ls|) && Instances(c, ls, |ls|)[instance] == Segment(HeadOf(c, chain), |chain|)
      && forall k | 0 <= k < |chain| :: Found(c, ls, instance, k, chain[k])
  }

  /** The head at count k + 1 is that of line. */
  ghost predicate Found(c: Codec, ls: seq<Line>, instance: string, k: nat, line: Line) {
    var i := FirstReach(c, ls, instance, k + 1, |ls|);
    i.Some? && ls[i.value] == line
  }

  lemma FoundLater(c: Codec, ls: seq<Line>, more: seq<Line>, instance: string, k: nat, line: Line)
    requires Found(c, ls, instance, k, line)
    ensures Found(c, ls + more, instance, k, line)
  {
    var count := k + 1;
    var i := FirstReach(c, ls, instance, count, |ls|).value;
    var all := ls + more;
    forall j | 0 <= j <= i
      ensures Reaches(c, all, j, instance, count) <==> Reaches(c, ls, j, instance, count)
    {
      PrefixSame(c, ls, more, j);
    }
    hide Reaches, FirstReach;
    assert all[i] == ls[i] && Reaches(c, all, i, instance, count);
    var r := FirstReach(c, all, instance, count, |all|);
    assert r.Some? && r.value == i;
  }

  /** A later process does not change what is reported for an earlier one. */
  lemma ReportedLater(c: Codec, ls: seq<Line>, chain: seq<Line>, instance: string, other: string, earlier: seq<Line>)
    requires Reported(c, ls, other, earlier) && Spun(c, instance, chain) && Fresh(c, ls, instance) && other != instance
    ensures Reported(c, ls + chain, other, earlier)
  {
    hide Spun, Fresh, Instances, FirstReach, Found;
    SpunInstances(c, ls, chain, instance, |chain|);
    if earlier != [] {
      forall k | 0 <= k < |earlier|
        ensures Found(c, ls + chain, other, k, earlier[k])
      {
        FoundLater(c, ls, chain, other, k, earlier[k]);
      }
    }
  }

  lemma ReportedNow(c: Codec, ls: seq<Line>, chain: seq<Line>, instance: string)
    requires Spun(c, instance, chain) && Fresh(c, ls, instance) && instance !in Instances(c, ls, |ls|) && Chained(c, ls, |ls|)
    ensures Reported(c, ls + chain, instance, chain)
  {
    WriterVerifies(c, ls, chain, instance);
    hide Spun, Fresh, Instances, FirstReach, Chained;
  }

  /** Every sink that took all records of the processes that ran holds the history. */
  ghost predicate Held(sinks: seq<FileSink>, lives: seq<Life>, ran: seq<bool>, history: seq<Line>)
    requires |ran| <= |lives|
    reads sinks
  {
    forall k | 0 <= k < |sinks| && Keeps(lives, ran, k) :: sinks[k].bytes == Encode(history)
  }

  lemma KeepsNext(lives: seq<Life>, ran: seq<bool>, now: bool, k: nat)
    requires |ran| < |lives| && Keeps(lives, ran + [now], k)
    ensures Keeps(lives, ran, k) && (now ==> Accepts(lives[|ran|].jobs, |lives[|ran|].jobs|, k))
  {
    hide Accepts;
    assert forall i | 0 <= i < |ran| :: (ran + [now])[i] == ran[i];
    assert (ran + [now])[|ran|] == now;
  }

  /** One intact history, reported chain by chain, that faithful sinks hold. */
  ghost predicate Stands(c: Codec, lives: seq<Life>, history: seq<Line>, chains: seq<seq<Line>>)
    requires |chains| <= |lives|
  {
    && AllClean(history) && Chained(c, history, |history|) && From(c, history, lives, |chains|)
    && forall i | 0 <= i < |chains| :: Reported(c, history, lives[i].instance, chains[i])
  }

  lemma StandsNext(c: Codec, lives: seq<Life>, history: seq<Line>, chains: seq<seq<Line>>, chain: seq<Line>, sinks: nat)
    requires |chains| < |lives| && OwnIds(lives, sinks) && Stands(c, lives, history, chains) && Spun(c, lives[|chains|].instance, chain)
    ensures Stands(c, lives, history + chain, chains + [chain])
  {
    var n := |chains|;
    hide Spun, AllClean, Chained, From, Fresh, Instances, OwnIds, Reported;
    NewcomerIsFresh(c, history, lives, n, sinks);
    WriterVerifies(c, history, chain, lives[n].instance);
    FromNext(c, history, chain, lives, n);
    CleanNext(c, lives[n].instance, history, chain);
    ReportedNow(c, history, chain, lives[n].instance);
    forall i | 0 <= i < n
      ensures Reported(c, history + chain, lives[i].instance, chains[i])
    {
      DifferentIds(lives, i, n, sinks);
      ReportedLater(c, history, chain, lives[n].instance, lives[i].instance, chains[i]);
    }
  }

  lemma DifferentIds(lives: seq<Life>, i: nat, j: nat, sinks: nat)
    requires i < j < |lives| && OwnIds(lives, sinks)
    ensures lives[i].instance != lives[j].instance
  {
  }

  /** One process, which may refuse to boot: what it leaves in the sinks, whatever fails. */
  method OneLife(c: Codec, wal: WAL, sinks: seq<FileSink>, life: Life) returns (ran: bool, ghost chain: seq<Line>)
    requires c.Sound() && Apart(sinks) && forall j | 0 <= j < |life.jobs| :: |life.jobs[j].sinks| == |sinks|
    modifies wal, sinks
    ensures ran <==> old(Terminated(wal.bytes) && Retainable(c, WalLines(wal.bytes)))
    ensures Spun(c, life.instance, chain) && (!ran ==> chain == [])
    ensures forall k | 0 <= k < |sinks| && (ran ==> Accepts(life.jobs, |life.jobs|, k)) :: sinks[k].bytes == old(sinks[k].bytes) + Encode(chain)
  {
    hide WalLines, Retainable, Terminated, Codec.Sound, Resumes, HeadOf, Apart, Lossless, LastInstance;
    var w := NewWriter(c, life.instance, wal, sinks);
    if w == null {
      chain := [];
      return false, chain;
    }
    hide Spun, Encode;
    w.Loop(life.jobs);
    assert w.emitted[0..] == w.emitted;
    return true, w.emitted;
  }

  /**
   Any sequence of processes with their own ids, whatever WAL and sink failures occur: a sink that took every
   record of those that booted holds one stream that verifies, and verification reports for each process
   exactly what it chained.
   */
  method Histories(c: Codec, wal: WAL, sinks: seq<FileSink>, lives: seq<Life>)
    returns (ran: seq<bool>, ghost history: seq<Line>, ghost chains: seq<seq<Line>>)
    requires c.Sound() && Apart(sinks) && OwnIds(lives, |sinks|) && forall k | 0 <= k < |sinks| :: sinks[k].bytes == []
    modifies wal, sinks
    ensures |ran| == |chains| == |lives| && forall i | 0 <= i < |lives| :: Spun(c, lives[i].instance, chains[i]) && (!ran[i] ==> chains[i] == [])
    ensures Chained(c, history, |history|) && forall i | 0 <= i < |lives| :: Reported(c, history, lives[i].instance, chains[i])
    ensures forall k | 0 <= k < |sinks| && Keeps(lives, ran, k) :: StreamLines(sinks[k].bytes) == history
  {
    ran, history, chains := [], [], [];
    assert Stands(c, lives, [], []) && Held(sinks, lives, [], []);
    hide Spun, AllClean, Chained, From, Reported, Encode, Keeps, StreamLines, Accepts, Stands, Apart, Codec.Sound;
    while |ran| < |lives|
      invariant |ran| == |chains| <= |lives| && Stands(c, lives, history, chains) && Held(sinks, lives, ran, history)
      invariant forall i | 0 <= i < |ran| :: Spun(c, lives[i].instance, chains[i]) && (!ran[i] ==> chains[i] == [])
    {
      var n := |ran|;
      var r;
      ghost var chain;
      r, chain := OneLife(c, wal, sinks, lives[n]);
      StandsNext(c, lives, history, chains, chain, |sinks|);
      EncodeConcat(history, chain);
      forall k | 0 <= k < |sinks| && Keeps(lives, ran + [r], k)
        ensures sinks[k].bytes == Encode(history + chain)
      {
        KeepsNext(lives, ran, r, k);
      }
      ran, history, chains := ran + [r], history + chain, chains + [chain];
    }
    StandingMeans(c, lives, history, chains);
  }

  lemma StandingMeans(c: Codec, lives: seq<Life>, history: seq<Line>, chains: seq<seq<Line>>)
    requires |chains| == |lives| && Stands(c, lives, history, chains)
    ensures Chained(c, history, |history|) && StreamLines(Encode(history)) == history
    ensures forall i | 0 <= i < |lives| :: Reported(c, history, lives[i].instance, chains[i])
  {
    hide Chained, From, Reported, Encode, StreamLines;
    StreamOf(history);
  }
}
