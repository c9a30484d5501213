/**
 Restarts (internal/audit/writer.go): what successive processes leave in one WAL file, and which of them the
 next process accepts.
 */
module AuditRestarts {
  import opened Basics
  import opened AuditFormat
  import opened AuditChain
  import opened AuditWriter
  import opened AuditRuns

  lemma AppendedJoins(c: Codec, ls: seq<Line>, l: Line)
    requires Retainable(c, ls) && ls != [] && Plausible(c, l)
    ensures Retainable(c, ls + [l]) <==> Joins(c, ls[|ls| - 1], l)
  {
    hide Plausible, Joins;
    assert (ls + [l])[..|ls|] == ls && (ls + [l])[..|ls| + 1] == ls + [l];
    RetainableNext(c, ls + [l], |ls|);
  }

  /** A genesis-linked record of the last retained instance, or one without an instance, breaks the backlog. */
  lemma ReusedIdIsRejected(c: Codec, ls: seq<Line>, l: Line)
    requires c.Sound() && Retainable(c, ls) && ls != [] && c.parse(l).Some? && c.parse(l).value.prevHash == GENESIS
    requires c.parse(l).value.instance == "" || c.parse(l).value.instance == c.parse(ls[|ls| - 1]).value.instance
    ensures !Retainable(c, ls + [l])
  {
    assert (ls + [l])[|ls|] == l;
    if Plausible(c, l) {
      AppendedJoins(c, ls, l);
      assert IsDigest(c.hash(ls[|ls| - 1]));
    }
  }

  lemma RetainablePrefix(c: Codec, ls: seq<Line>, more: seq<Line>)
    requires Retainable(c, ls + more)
    ensures Retainable(c, ls)
  {
    assert forall i | 0 <= i < |ls| :: (ls + more)[i] == ls[i] && Plausible(c, (ls + more)[i]);
    hide Joins;
    forall i | 0 < i < |ls|
      ensures Joins(c, ls[i - 1], ls[i])
    {
      assert Joins(c, (ls + more)[i - 1], (ls + more)[i]);
    }
  }

  /** A file that grows from one with a broken backlog stays unacceptable. */
  lemma BrokenForGood(c: Codec, s: Bytes, t: Bytes)
    requires Terminated(s) && !Retainable(c, WalLines(s)) && s <= t
    ensures !Retainable(c, WalLines(t))
  {
    assert t == s + t[|s|..];
    PiecesAppend(s, t[|s|..]);
    NonEmptyConcat(Pieces(s), Pieces(t[|s|..]));
    hide Retainable, Pieces, NonEmpty;
    if Retainable(c, WalLines(t)) {
      RetainablePrefix(c, WalLines(s), WalLines(t[|s|..]));
    }
  }

  /**
   A backlog is refused for one line that is no record, has no event or instance, or names neither the genesis
   nor a digest of 64 hexadecimal digits.
   */
  lemma MalformedLineIsRejected(c: Codec, ls: seq<Line>, i: nat)
    requires i < |ls|
    requires match c.parse(ls[i])
             case None => true
             case Some(h) =>
               || h.event == "" || h.instance == ""
               || (h.prevHash != "sha256:genesis"
                   && (|h.prevHash| != 7 + 64 || h.prevHash[..7] != "sha256:" || exists k | 7 <= k < |h.prevHash| :: !IsHex(h.prevHash[k])))
    ensures !Retainable(c, ls)
  {
    assert !Plausible(c, ls[i]);
  }

  /**
   Within the records of one process no retained line can be exchanged for another one without the restart check
   noticing, unless the two have the same hash.
   */
  lemma EditedBacklogIsRejected(c: Codec, ls: seq<Line>, i: nat, l: Line)
    requires c.Sound() && Retainable(c, ls) && i + 1 < |ls| && Retainable(c, ls[i := l])
    requires c.parse(ls[i]).Some? && c.parse(ls[i + 1]).Some? && c.parse(ls[i]).value.instance == c.parse(ls[i + 1]).value.instance
    ensures c.hash(l) == c.hash(ls[i])
  {
    assert Joins(c, ls[i], ls[i + 1]) && Plausible(c, ls[i := l][i]);
    assert ls[i := l][i] == l && ls[i := l][i + 1] == ls[i + 1];
    assert Joins(c, ls[i := l][i], ls[i := l][i + 1]);
    assert IsDigest(c.hash(ls[i]));
  }

  /** The last record of a process is not covered by what follows it in the next one's. */
  lemma LastRecordMayBeExchanged(c: Codec, ls: seq<Line>, i: nat, l: Line)
    requires Retainable(c, ls) && i + 1 < |ls| && Plausible(c, l) && (i > 0 ==> c.parse(ls[i - 1]).Some? && Joins(c, ls[i - 1], l))
    requires c.parse(ls[i]).Some? && c.parse(ls[i + 1]).Some? && c.parse(l).Some?
    requires c.parse(ls[i + 1]).value.instance !in {c.parse(ls[i]).value.instance, c.parse(l).value.instance}
    ensures Retainable(c, ls[i := l])
  {
    assert Joins(c, ls[i], ls[i + 1]);
    var edited := ls[i := l];
    assert forall j | 0 <= j < |edited| :: Plausible(c, edited[j]);
    forall j | 0 < j < |edited|
      ensures Joins(c, edited[j - 1], edited[j])
    {
    }
  }

  /**
   A process that boots on a backlog and writes a record leaves, then and after whatever it writes later, a WAL
   that a restart accepts exactly when its instance id is not empty and not that of the last retained record.
   A rejection is final whatever fails later; an acceptance lasts while appends succeed.
   */
  method WriteThenRestart(c: Codec, instance: string, wal: WAL, sinks: seq<FileSink>, job: Job, later: seq<Job>) returns (accepted: bool)
    requires c.Sound() && Apart(sinks) && Terminated(wal.bytes) && Retainable(c, WalLines(wal.bytes)) && WalLines(wal.bytes) != []
    requires |job.sinks| == |sinks| && forall j | 0 <= j < |later| :: |later[j].sinks| == |sinks|
    requires Lossless(job) && c.canon(Record(job.event, job.body, instance, GENESIS)).Some?
    modifies wal, sinks
    ensures var reused := instance == "" || old(LastInstance(c, wal.bytes)) == Some(instance);
            && (reused ==> !accepted)
            && (!reused && (forall j | 0 <= j < |later| :: Lossless(later[j])) ==> accepted)
  {
    ghost var before := wal.bytes;
    var w := NewWriter(c, instance, wal, sinks);
    assert HeadOf(c, []) == GENESIS;
    hide WalLines, Terminated, Delivers, Apart, HeadOf, Resumes, Codec.Sound, Spun, Retainable, LastInstance, Lossless, Atomic, Latch;
    LosslessIsWhole(job);
    w.Step(job);
    ghost var line := c.canon(Record(job.event, job.body, instance, GENESIS)).value;
    if instance == "" || LastInstance(c, before) == Some(instance) {
      ReusedStep(c, instance, before, line, job.event, job.body);
      assert wal.bytes == before + Framed(line);
    }
    ghost var middle := wal.bytes;
    w.Loop(later);
    var retained := RetainedRecords(c, wal);
    accepted := retained.Some?;
    if instance == "" || LastInstance(c, before) == Some(instance) {
      BrokenForGood(c, middle, wal.bytes);
    } else if forall j | 0 <= j < |later| :: Lossless(later[j]) {
      LinkedRestarts(w);
    }
  }

  lemma LosslessIsWhole(job: Job)
    ensures Lossless(job) ==> job.wal.Whole?
  {
  }

  lemma LinkedRestarts(w: Writer)
    requires w.Valid() && w.linked
    ensures Terminated(w.wal.bytes) && Retainable(w.c, WalLines(w.wal.bytes))
  {
    hide WalLines, Retainable;
  }

  lemma ReusedStep(c: Codec, instance: string, before: Bytes, line: Line, event: string, body: string)
    requires c.Sound() && Terminated(before) && Retainable(c, WalLines(before)) && WalLines(before) != []
    requires c.canon(Record(event, body, instance, GENESIS)) == Option.Some(line)
    requires instance == "" || LastInstance(c, before) == Some(instance)
    ensures Terminated(before + Framed(line)) && !Retainable(c, WalLines(before + Framed(line)))
  {
    AppendedLine(before, line);
    hide WalLines, Retainable;
    ReusedIdIsRejected(c, WalLines(before), line);
  }

  /** The WAL's last record, if any, was written by one of the first n lives. */
  ghost predicate LeftBy(c: Codec, s: Bytes, lives: seq<Life>, n: nat)
    requires n <= |lives|
  {
    LastInstance(c, s).Some? ==> exists i | 0 <= i < n :: lives[i].instance == LastInstance(c, s).value
  }

  lemma LeftByNext(c: Codec, before: Bytes, after: Bytes, lives: seq<Life>, n: nat, emitted: seq<Line>)
    requires n < |lives| && LeftBy(c, before, lives, n)
    requires Spun(c, lives[n].instance, emitted) && Resumes(c, lives[n].instance, WalLines(after), emitted)
    requires emitted == [] ==> after == before
    ensures LeftBy(c, after, lives, n + 1)
  {
    if emitted != [] {
      SpunFacts(c, lives[n].instance, emitted, |emitted| - 1);
    }
  }

  /** Processes whose appends are durable and whose truncations are atomic; what sinks do is arbitrary. */
  predicate Ready(lives: seq<Life>, sinks: nat) {
    OwnIds(lives, sinks) && forall i | 0 <= i < |lives| :: lives[i].instance != "" && AllLossless(lives[i].jobs)
  }

  predicate AllLossless(jobs: seq<Job>) {
    forall j | 0 <= j < |jobs| :: Lossless(jobs[j])
  }

  /** One process, from boot to whatever its last record was. */
  method DurableLife(c: Codec, wal: WAL, sinks: seq<FileSink>, life: Life) returns (booted: nat, left: nat, ghost chain: seq<Line>)
    requires c.Sound() && Apart(sinks) && Terminated(wal.bytes) && Retainable(c, WalLines(wal.bytes))
    requires life.instance != "" && LastInstance(c, wal.bytes) != Some(life.instance)
    requires AllLossless(life.jobs) && forall j | 0 <= j < |life.jobs| :: |life.jobs[j].sinks| == |sinks|
    modifies wal, sinks
    ensures booted == |WalLines(old(wal.bytes))| && left == |WalLines(wal.bytes)| && Terminated(wal.bytes)
    ensures Spun(c, life.instance, chain) && Resumes(c, life.instance, WalLines(wal.bytes), chain)
    ensures chain == [] ==> wal.bytes == old(wal.bytes)
  {
    hide WalLines, Retainable, Spun, Terminated, Codec.Sound, Resumes, Encode, HeadOf, Apart, Lossless, LastInstance;
    var w := NewWriter(c, life.instance, wal, sinks);
    booted := w.pending;
    w.Loop(life.jobs);
    left, chain := w.pending, w.emitted;
  }

  /** What the last process left, if there was one. */
  function Backlog(left: seq<nat>): nat {
    if left == [] then 0 else left[|left| - 1]
  }

  /** Each process booted with exactly what the one before it left. */
  predicate HandedOver(booted: seq<nat>, left: seq<nat>) {
    |booted| == |left| && forall i | 0 <= i < |booted| :: booted[i] == Backlog(left[..i])
  }

  lemma HandedOn(booted: seq<nat>, left: seq<nat>, b: nat, l: nat)
    requires HandedOver(booted, left) && b == Backlog(left)
    ensures HandedOver(booted + [b], left + [l]) && Backlog(left + [l]) == l
  {
    forall i | 0 <= i < |booted + [b]|
      ensures (booted + [b])[i] == Backlog((left + [l])[..i])
    {
      assert i < |left| ==> (left + [l])[..i] == left[..i];
      assert i == |left| ==> (left + [l])[..i] == left;
    }
  }

  /**
   Any sequence of processes with their own ids on one WAL: each boots, with exactly the backlog the last one
   left.
   */
  method Lives(c: Codec, wal: WAL, sinks: seq<FileSink>, lives: seq<Life>) returns (booted: seq<nat>, left: seq<nat>)
    requires c.Sound() && Apart(sinks) && Ready(lives, |sinks|) && wal.bytes == []
    modifies wal, sinks
    ensures |left| == |lives| && HandedOver(booted, left)
    ensures Terminated(wal.bytes) && Retainable(c, WalLines(wal.bytes)) && |WalLines(wal.bytes)| == Backlog(left)
  {
    booted, left := [], [];
    WalLinesNone();
    assert Retainable(c, []) && LeftBy(c, [], lives, 0);
    hide WalLines, Codec.Sound, Apart, Retainable, Terminated, HandedOver, LeftBy, LastInstance, Spun, Resumes, Lossless;
    HandedNone();
    while |left| < |lives|
      invariant |left| <= |lives| && HandedOver(booted, left)
      invariant Terminated(wal.bytes) && Retainable(c, WalLines(wal.bytes)) && LeftBy(c, wal.bytes, lives, |left|)
      invariant |WalLines(wal.bytes)| == Backlog(left)
    {
      var n := |left|;
      ghost var bytes := wal.bytes;
      NewcomerToWal(c, bytes, lives, n, |sinks|);
      var b, l, chain := DurableLife(c, wal, sinks, lives[n]);
      LeftByNext(c, bytes, wal.bytes, lives, n, chain);
      ResumesRestarts(c, lives[n].instance, WalLines(wal.bytes), chain);
      HandedOn(booted, left, b, l);
      booted, left := booted + [b], left + [l];
    }
  }

  lemma HandedNone()
    ensures HandedOver([], [])
  {
  }

  lemma NewcomerToWal(c: Codec, s: Bytes, lives: seq<Life>, n: nat, sinks: nat)
    requires n < |lives| && Ready(lives, sinks) && LeftBy(c, s, lives, n)
    ensures LastInstance(c, s) != Some(lives[n].instance) && lives[n].instance != "" && AllLossless(lives[n].jobs)
    ensures forall j | 0 <= j < |lives[n].jobs| :: |lives[n].jobs[j].sinks| == sinks
  {
    hide LastInstance, Lossless;
    assert forall i | 0 <= i < n :: lives[i].instance != lives[n].instance;
  }

  lemma ResumesRestarts(c: Codec, instance: string, ls: seq<Line>, emitted: seq<Line>)
    requires Resumes(c, instance, ls, emitted)
    ensures Retainable(c, ls)
  {
  }
}
