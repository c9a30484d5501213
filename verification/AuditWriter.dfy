/**
 The audit writer (internal/audit/writer.go) and the files it appends to (internal/audit/wal.go,
 internal/audit/sink.go). What the disk and the sinks do to each record is part of the job: an append that
 fails may leave any part of the record behind, and a failed truncation may or may not have emptied the file.
 */
module AuditWriter {
  import opened Basics
  import opened AuditFormat
  import opened AuditChain

  const QUEUE_CAPACITY := 1024
  const BLOCKED_BUFFER := 1
  const BLOCKED_WAL := 2
  const BLOCKED_RECORD := 3

  datatype Fate = Whole | Torn(keep: nat)
  datatype Truncation = Emptied | Untouched | EmptiedWithError

  /** One queued record, and what will happen to it. */
  datatype Job = Job(event: string, body: string, wal: Fate, sinks: seq<Fate>, truncation: Truncation)

  /** What reaches the file. */
  function Written(rec: Line, fate: Fate): Bytes {
    match fate
    case Whole => Framed(rec)
    case Torn(keep) => if keep < |Framed(rec)| then Framed(rec)[..keep] else Framed(rec)
  }

  // ---- Files ---------------------------------------------------------------------------

  /** Only whole lines so far. */
  predicate Terminated(s: Bytes) {
    s == [] || s[|s| - 1] == LF
  }

  lemma {:induction false} PiecesAppend(s: Bytes, t: Bytes)
    requires Terminated(s)
    ensures Pieces(s + t) == Pieces(s) + Pieces(t)
    decreases |s|
  {
    if s == [] {
      assert s + t == t;
    } else {
      var i := FirstLF(s);
      assert i < |s| by {
        assert s[|s| - 1] == LF;
      }
      var l, tail := s[..i], s[i + 1..];
      assert s == l + [LF] + tail && s + t == l + [LF] + (tail + t);
      assert LF !in l;
      hide Pieces, FirstLF;
      PiecesOfFramed(l, tail);
      PiecesOfFramed(l, tail + t);
      PiecesAppend(tail, t);
      Regroup([l], Pieces(tail), Pieces(t));
    }
  }

  lemma {:induction false} NonEmptyConcat(a: seq<Line>, b: seq<Line>)
    ensures NonEmpty(a + b) == NonEmpty(a) + NonEmpty(b)
  {
    if a == [] {
      assert a + b == b;
    } else {
      assert (a + b)[1..] == a[1..] + b;
      NonEmptyConcat(a[1..], b);
      Regroup(if a[0] == [] then [] else [a[0]], NonEmpty(a[1..]), NonEmpty(b));
    }
  }

  lemma OneLine(l: Line)
    requires Clean(l)
    ensures Encode([l]) == Framed(l) && WalLines(Framed(l)) == [l]
  {
    LinesReadBack([l], []);
    assert Encode([]) + Framed(l) == Framed(l) && Framed(l) + [] == Framed(l);
    hide Pieces, Clean;
  }

  /** A whole append adds exactly the record to what a replay delivers. */
  lemma AppendedLine(s: Bytes, l: Line)
    requires Terminated(s) && Clean(l)
    ensures Terminated(s + Framed(l)) && WalLines(s + Framed(l)) == WalLines(s) + [l]
  {
    OneLine(l);
    PiecesAppend(s, Framed(l));
    hide Pieces, Clean, NonEmpty;
    NonEmptyConcat(Pieces(s), Pieces(Framed(l)));
  }

  class WAL {
    var bytes: Bytes

    constructor (bytes: Bytes)
      ensures this.bytes == bytes
    {
      this.bytes := bytes;
    }

    method Append(rec: Line, fate: Fate) returns (ok: bool)
      modifies this
      ensures bytes == old(bytes) + Written(rec, fate) && ok == fate.Whole?
    {
      match fate
      case Whole =>
        bytes := bytes + rec;
        bytes := bytes + [LF];
        assert bytes == old(bytes) + Framed(rec);
        ok := true;
      case Torn(_) =>
        bytes := bytes + Written(rec, fate);
        ok := false;
    }

    /** The buffered records, in order. */
    method Replay() returns (lines: seq<Line>)
      ensures lines == WalLines(bytes)
    {
      hide Pieces, FirstLF, WalLines, Chunk, Piece;
      var r := new Reader(bytes, Eof);
      lines := [];
      var err: Option<ReadEnd> := None;
      ghost var all := WalLines(bytes);
      ReplayFirst(bytes);
      while err.None?
        invariant r.Valid() && r.content == bytes && r.end == Eof
        invariant all == lines + WalLines(r.content[r.pos..])
        invariant err.Some? ==> r.content[r.pos..] == []
        decreases |r.content[r.pos..]|, err.None?
      {
        ghost var left, before := r.content[r.pos..], lines;
        var chunk;
        chunk, err := r.ReadBytes();
        if |chunk| > 0 {
          var line := DropNewline(chunk);
          if |line| > 0 {
            lines := lines + [line];
          }
        }
        ReplayNext(all, before, left, chunk);
        assert lines == before + Yield(chunk);
      }
      ReplayFirst([]);
    }

    method Truncate(truncation: Truncation) returns (ok: bool)
      modifies this
      ensures bytes == (if truncation.Untouched? then old(bytes) else []) && ok == truncation.Emptied?
    {
      if truncation.Untouched? {
        return false;
      }
      bytes := [];
      return truncation.Emptied?;
    }
  }

  lemma WalLinesNone()
    ensures WalLines([]) == []
  {
  }

  lemma ReplayFirst(s: Bytes)
    ensures WalLines(s) == [] + WalLines(s[0..]) && (s == [] ==> WalLines(s) == [])
  {
    assert s[0..] == s;
  }

  method DropNewline(chunk: Bytes) returns (line: Line)
    requires chunk != []
    ensures line == Piece(chunk)
  {
    line := chunk;
    if line[|line| - 1] == LF {
      line := line[..|line| - 1];
    }
  }

  /** What a chunk contributes: its piece, unless that is empty. */
  function Yield(chunk: Bytes): seq<Line> {
    if chunk == [] || Piece(chunk) == [] then [] else [Piece(chunk)]
  }

  lemma WalLinesNext(left: Bytes, chunk: Bytes)
    requires chunk == Chunk(left)
    ensures |chunk| <= |left| && WalLines(left) == Yield(chunk) + WalLines(left[|chunk|..])
    ensures chunk == [] ==> left == [] && FirstLF(left) == |left|
    ensures FirstLF(left) >= |left| ==> left[|chunk|..] == []
  {
    if left != [] {
      FirstPiece(left, chunk);
      var tail := Pieces(left[|chunk|..]);
      hide Pieces, FirstLF, Piece;
      assert ([Piece(chunk)] + tail)[1..] == tail;
    }
  }

  lemma ReplayNext(all: seq<Line>, before: seq<Line>, left: Bytes, chunk: Bytes)
    requires all == before + WalLines(left) && chunk == Chunk(left)
    ensures |chunk| <= |left| && all == (before + Yield(chunk)) + WalLines(left[|chunk|..])
    ensures chunk == [] ==> left == [] && FirstLF(left) == |left|
    ensures FirstLF(left) >= |left| ==> left[|chunk|..] == []
  {
    hide WalLines, Chunk, FirstLF, Yield;
    WalLinesNext(left, chunk);
    Regroup(before, Yield(chunk), WalLines(left[|chunk|..]));
  }

  /** A sink that writes lines to a file. */
  class FileSink {
    const required: bool
    var bytes: Bytes

    constructor (required: bool, bytes: Bytes)
      ensures this.required == required && this.bytes == bytes
    {
      this.required, this.bytes := required, bytes;
    }

    method Write(rec: Line, fate: Fate) returns (ok: bool)
      modifies this
      ensures bytes == old(bytes) + Written(rec, fate) && ok == fate.Whole?
    {
      bytes := bytes + Written(rec, fate);
      ok := fate.Whole?;
    }
  }

  // ---- What a restart accepts -------------------------------------------------------------

  /** A line that retention could have written. */
  predicate Plausible(c: Codec, l: Line) {
    match c.parse(l)
    case None => false
    case Some(h) => h.event != "" && h.instance != "" && (h.prevHash == GENESIS || IsDigest(h.prevHash))
  }

  /** Does line b continue a WAL whose last line is a? */
  predicate Joins(c: Codec, a: Line, b: Line)
    requires c.parse(a).Some? && c.parse(b).Some?
  {
    c.parse(b).value.prevHash == if c.parse(b).value.instance != c.parse(a).value.instance then GENESIS else c.hash(a)
  }

  /** Plausible lines that link up; the first may follow history that was delivered and dropped. */
  predicate Retainable(c: Codec, ls: seq<Line>) {
    && (forall i | 0 <= i < |ls| :: Plausible(c, ls[i]))
    && forall i | 0 < i < |ls| :: Joins(c, ls[i - 1], ls[i])
  }

  /** Validates and counts the retained records; nothing is replayed into sinks. */
  method RetainedRecords(c: Codec, wal: WAL) returns (count: Option<nat>)
    ensures count == if Terminated(wal.bytes) && Retainable(c, WalLines(wal.bytes)) then Some(|WalLines(wal.bytes)|) else None
  {
    hide WalLines;
    WalLinesNone();
    if |wal.bytes| == 0 {
      return Some(0);
    }
    if wal.bytes[|wal.bytes| - 1] != LF {
      return None;
    }
    var lines := wal.Replay();
    var n, instance, expected := 0, "", "";
    while n < |lines|
      invariant n <= |lines| && Retainable(c, lines[..n])
      invariant n > 0 ==> c.parse(lines[n - 1]).Some? && instance == c.parse(lines[n - 1]).value.instance && expected == c.hash(lines[n - 1])
    {
      var line := lines[n];
      var rec := c.parse(line);
      RetainableNext(c, lines, n);
      if rec.None? || rec.value.event == "" || rec.value.instance == "" || rec.value.prevHash == "" {
        return None;
      }
      if rec.value.prevHash != GENESIS && !IsDigest(rec.value.prevHash) {
        return None;
      }
      if n > 0 {
        if rec.value.instance != instance {
          expected := GENESIS;
        }
        if rec.value.prevHash != expected {
          return None;
        }
      }
      instance, expected := rec.value.instance, c.hash(line);
      n := n + 1;
    }
    assert lines[..n] == lines;
    return Some(n);
  }

  lemma RetainableNext(c: Codec, ls: seq<Line>, n: nat)
    requires n < |ls| && Retainable(c, ls[..n])
    ensures Retainable(c, ls[..n + 1]) <==> Plausible(c, ls[n]) && (n > 0 ==> Joins(c, ls[n - 1], ls[n]))
    ensures Retainable(c, ls) ==> Retainable(c, ls[..n + 1])
  {
    hide Plausible, Joins;
    assert forall i | 0 <= i < n :: ls[..n][i] == ls[i];
    assert forall i | 0 <= i < n + 1 :: ls[..n + 1][i] == ls[i];
    if n > 0 {
      assert Plausible(c, ls[..n][n - 1]);
    }
  }

  // ---- The writer --------------------------------------------------------------------------

  /** Each line is of this instance and names the one before it. */
  ghost predicate Spun(c: Codec, instance: string, ls: seq<Line>) {
    forall i | 0 <= i < |ls| ::
      && Clean(ls[i]) && c.parse(ls[i]).Some? && c.parse(ls[i]).value.instance == instance
      && c.parse(ls[i]).value.prevHash == HeadOf(c, ls[..i])
  }

  /** What the next record will name. */
  function HeadOf(c: Codec, ls: seq<Line>): string {
    if ls == [] then GENESIS else c.hash(ls[|ls| - 1])
  }

  /** No sink is listed twice. */
  predicate Apart(sinks: seq<FileSink>) {
    forall i, j | 0 <= i < j < |sinks| :: sinks[i] != sinks[j]
  }

  /** Does every required sink take the record? */
  predicate Delivers(sinks: seq<FileSink>, fates: seq<Fate>)
    requires |sinks| == |fates|
  {
    forall k | 0 <= k < |sinks| :: sinks[k].required ==> fates[k].Whole?
  }

  /** A latch takes its first cause and keeps it. */
  function Latch(blocked: nat, cause: nat): nat {
    if blocked == 0 then cause else blocked
  }

  /** Nothing that happens to the job leaves the WAL and the pending count apart. */
  predicate Atomic(j: Job) {
    (j.wal.Whole? || j.wal.keep == 0) && !j.truncation.EmptiedWithError?
  }

  /** The job also loses no record, so the WAL stays linked. */
  predicate Lossless(j: Job) {
    j.event != "" && j.wal.Whole? && !j.truncation.EmptiedWithError?
  }

  /** The last retained line's instance. */
  function LastInstance(c: Codec, s: Bytes): Option<string> {
    var ls := WalLines(s);
    if ls == [] || c.parse(ls[|ls| - 1]).None? then None else Some(c.parse(ls[|ls| - 1]).value.instance)
  }

  /** The retained records would pass a restart, and the next record would join them. */
  ghost predicate Resumes(c: Codec, instance: string, ls: seq<Line>, emitted: seq<Line>) {
    && instance != "" && Retainable(c, ls)
    && (ls != [] ==> if emitted == [] then c.parse(ls[|ls| - 1]).value.instance != instance else ls[|ls| - 1] == emitted[|emitted| - 1])
  }

  class Writer {
    const c: Codec
    const instance: string
    const wal: WAL
    const sinks: seq<FileSink>
    var prevHash: string
    var pending: nat
    var count: nat
    var head: Option<Segment>
    var blocked: nat
    /** Every record this process chained, and those whose WAL append succeeded. */
    ghost var emitted: seq<Line>
    ghost var durable: seq<Line>
    /** pending counts the WAL's records; and they would pass a restart. */
    ghost var counted: bool
    ghost var linked: bool

    ghost predicate Valid()
      reads this, wal
    {
      && c.Sound() && Apart(sinks)
      && Spun(c, instance, emitted) && prevHash == HeadOf(c, emitted) && Witnessed() && Counted()
      && (pending >= QUEUE_CAPACITY ==> blocked != 0)
      && (linked ==> counted && Resumes(c, instance, WalLines(wal.bytes), emitted))
    }

    /** The published head is that of the durable records. */
    ghost predicate Witnessed()
      reads this
    {
      && count == |durable| <= |emitted| && (|durable| == |emitted| ==> durable == emitted)
      && head == if durable == [] then None else Some(Segment(c.hash(durable[|durable| - 1]), |durable|))
    }

    ghost predicate Counted()
      reads this, wal
    {
      counted ==> Terminated(wal.bytes) && pending == |WalLines(wal.bytes)|
    }

    constructor (c: Codec, instance: string, wal: WAL, sinks: seq<FileSink>, retained: nat)
      requires c.Sound() && Apart(sinks)
      requires Terminated(wal.bytes) && Retainable(c, WalLines(wal.bytes)) && retained == |WalLines(wal.bytes)|
      ensures Valid() && this.c == c && this.instance == instance && this.wal == wal && this.sinks == sinks
      ensures pending == retained && blocked == (if retained >= QUEUE_CAPACITY then BLOCKED_BUFFER else 0)
      ensures emitted == [] && durable == [] && counted
      ensures linked == (instance != "" && LastInstance(c, wal.bytes) != Some(instance))
    {
      this.c, this.instance, this.wal, this.sinks := c, instance, wal, sinks;
      prevHash, pending, count, head, blocked := GENESIS, retained, 0, None, 0;
      if retained >= QUEUE_CAPACITY {
        blocked := BLOCKED_BUFFER;
      }
      emitted, durable, counted, linked := [], [], true, instance != "" && LastInstance(c, wal.bytes) != Some(instance);
    }

    /** The head and count that may be witnessed: those of durable records only. */
    function HeadHash(): (r: (string, nat))
      reads this
      ensures head.None? ==> r == ("sha256:genesis", 0)
    {
      match head
      case None => (GENESIS, 0)
      case Some(h) => (h.head, h.count)
    }

    method WalFailure()
      modifies this`blocked
      ensures blocked == Latch(old(blocked), BLOCKED_WAL)
    {
      if blocked == 0 {
        blocked := BLOCKED_WAL;
      }
    }

    /** Offers the record to every sink; a failure of one does not keep it from the others. */
    method FanOut(line: Line, fates: seq<Fate>) returns (flushedAll: bool)
      requires |fates| == |sinks| && Apart(sinks)
      modifies sinks
      ensures flushedAll == Delivers(sinks, fates)
      ensures forall k | 0 <= k < |sinks| :: sinks[k].bytes == old(sinks[k].bytes) + Written(line, fates[k])
    {
      flushedAll := true;
      var k := 0;
      while k < |sinks|
        invariant 0 <= k <= |sinks|
        invariant flushedAll == forall i | 0 <= i < k :: sinks[i].required ==> fates[i].Whole?
        invariant forall i | 0 <= i < |sinks| :: sinks[i].bytes == old(sinks[i].bytes) + if i < k then Written(line, fates[i]) else []
      {
        var ok := sinks[k].Write(line, fates[k]);
        if !ok && sinks[k].required {
          flushedAll := false;
        }
        k := k + 1;
      }
    }

    /** Durability first: the record goes to the WAL, and only then may the head name it. */
    method Persist(line: Line, fate: Fate) returns (ok: bool)
      requires Clean(line) && Counted() && count == |durable| < |emitted| && emitted[|emitted| - 1] == line && prevHash == c.hash(line)
      requires |durable| + 1 == |emitted| ==> durable == emitted[..|durable|]
      requires head == if durable == [] then None else Some(Segment(c.hash(durable[|durable| - 1]), |durable|))
      modifies this`pending, this`count, this`head, this`durable, this`blocked, this`counted, wal
      ensures Witnessed() && Counted() && ok == fate.Whole?
      ensures wal.bytes == old(wal.bytes) + Written(line, fate)
      ensures pending == old(pending) + (if ok then 1 else 0) && durable == old(durable) + if ok then [line] else []
      ensures blocked == Latch(old(blocked), if ok then 0 else BLOCKED_WAL)
      ensures old(counted) && (ok || fate.keep == 0) ==> counted
      ensures old(counted) && ok ==> WalLines(wal.bytes) == WalLines(old(wal.bytes)) + [line]
    {
      if counted {
        AppendedLine(wal.bytes, line);
      }
      ghost var before := wal.bytes;
      hide WalLines, Clean, Terminated;
      ok := wal.Append(line, fate);
      if ok {
        pending := pending + 1;
        count := count + 1;
        head := Some(Segment(prevHash, count));
        durable := durable + [line];
      } else {
        WalFailure();
        counted := counted && fate.keep == 0;
        assert fate.keep == 0 ==> wal.bytes == before;
      }
    }

    /** Empties the WAL after its only record was delivered. */
    method Release(truncation: Truncation)
      requires Counted()
      modifies this`pending, this`blocked, this`counted, wal
      ensures Counted() && wal.bytes == if truncation.Untouched? then old(wal.bytes) else []
      ensures pending == (if truncation.Emptied? then 0 else old(pending))
      ensures blocked == Latch(old(blocked), if truncation.Emptied? then 0 else BLOCKED_WAL)
      ensures old(counted) && !truncation.EmptiedWithError? ==> counted
    {
      WalLinesNone();
      hide WalLines;
      var ok := wal.Truncate(truncation);
      if ok {
        pending := 0;
      } else {
        WalFailure();
        counted := counted && truncation.Untouched?;
      }
    }

    /** What one chained record does to the WAL, the sinks and the latch. */
    method Deliver(line: Line, job: Job)
      requires |job.sinks| == |sinks| && Apart(sinks)
      requires Clean(line) && Counted() && count == |durable| < |emitted| && emitted[|emitted| - 1] == line && prevHash == c.hash(line)
      requires |durable| + 1 == |emitted| ==> durable == emitted[..|durable|]
      requires head == if durable == [] then None else Some(Segment(c.hash(durable[|durable| - 1]), |durable|))
      modifies this`pending, this`count, this`head, this`durable, this`blocked, this`counted, wal, sinks
      ensures Witnessed() && Counted()
      ensures forall k | 0 <= k < |sinks| :: sinks[k].bytes == old(sinks[k].bytes) + Written(line, job.sinks[k])
      ensures durable == old(durable) + if job.wal.Whole? then [line] else []
      ensures var p := old(pending) + if job.wal.Whole? then 1 else 0;
              var clears := job.wal.Whole? && Delivers(sinks, job.sinks) && p == 1;
              var failed := !job.wal.Whole? || (clears && !job.truncation.Emptied?);
              && wal.bytes == (if clears && !job.truncation.Untouched? then [] else old(wal.bytes) + Written(line, job.wal))
              && pending == (if clears && job.truncation.Emptied? then 0 else p)
              && blocked == Latch(Latch(old(blocked), if failed then BLOCKED_WAL else 0), if pending >= QUEUE_CAPACITY then BLOCKED_BUFFER else 0)
      ensures old(counted) && Atomic(job) ==> counted
      ensures old(counted) && job.wal.Whole? ==> WalLines(wal.bytes) == WalLines(old(wal.bytes)) + [line] || WalLines(wal.bytes) == []
    {
      hide WalLines, Terminated, Delivers, Clean, Written;
      WalLinesNone();
      var walOk := Persist(line, job.wal);
      var flushedAll := FanOut(line, job.sinks);
      if walOk && flushedAll && pending == 1 {
        Release(job.truncation);
      }
      if pending >= QUEUE_CAPACITY && blocked == 0 {
        blocked := BLOCKED_BUFFER;
      }
    }

    /**
     One record: chained, appended to the WAL, offered to the sinks, and dropped from the WAL only when it was
     delivered and is the only one there.
     */
    method Step(job: Job)
      requires Valid() && |job.sinks| == |sinks|
      modifies this, wal, sinks
      ensures Valid()
      ensures var r := c.canon(Record(job.event, job.body, instance, old(prevHash)));
              if r.None? then
                && emitted == old(emitted) && durable == old(durable) && pending == old(pending) && wal.bytes == old(wal.bytes)
                && (forall k | 0 <= k < |sinks| :: sinks[k].bytes == old(sinks[k].bytes))
                && blocked == Latch(old(blocked), BLOCKED_RECORD)
              else
                var appended := old(wal.bytes) + Written(r.value, job.wal);
                var p := old(pending) + if job.wal.Whole? then 1 else 0;
                var clears := job.wal.Whole? && Delivers(sinks, job.sinks) && p == 1;
                var failed := !job.wal.Whole? || (clears && !job.truncation.Emptied?);
                && emitted == old(emitted) + [r.value] && durable == old(durable) + (if job.wal.Whole? then [r.value] else [])
                && (forall k | 0 <= k < |sinks| :: sinks[k].bytes == old(sinks[k].bytes) + Written(r.value, job.sinks[k]))
                && wal.bytes == (if clears && !job.truncation.Untouched? then [] else appended)
                && pending == (if clears && job.truncation.Emptied? then 0 else p)
                && blocked == Latch(Latch(old(blocked), if failed then BLOCKED_WAL else 0), if pending >= QUEUE_CAPACITY then BLOCKED_BUFFER else 0)
      ensures old(counted) && Atomic(job) ==> counted
      ensures old(linked) && Lossless(job) ==> linked
    {
      hide Spun, WalLines, Resumes, Clean, Written, Codec.Sound, Terminated, HeadOf, Delivers, Apart;
      var rec := Record(job.event, job.body, instance, prevHash);
      var canon := c.canon(rec);
      if canon.None? {
        if blocked == 0 {
          blocked := BLOCKED_RECORD;
        }
        return;
      }
      var line := canon.value;
      ChainsNext(c, instance, emitted, rec, line);
      ghost var joins := linked && Lossless(job);
      if joins {
        JoinsNext(c, instance, emitted, WalLines(wal.bytes), line, job.event);
      }
      prevHash := c.hash(line);
      emitted := emitted + [line];
      linked := joins;
      Deliver(line, job);
    }

    /**
     The whole queue, whatever happens to each record. From any state on: a set latch stays as it is; a WAL
     that retains a record only grows; and a sink that takes every record holds exactly the chained lines.
     */
    method Loop(jobs: seq<Job>)
      requires Valid() && forall j | 0 <= j < |jobs| :: |jobs[j].sinks| == |sinks|
      modifies this, wal, sinks
      ensures Valid() && old(emitted) <= emitted
      ensures old(blocked) != 0 ==> blocked == old(blocked)
      ensures old(pending) > 0 ==> old(wal.bytes) <= wal.bytes && old(pending) <= pending
      ensures forall k | 0 <= k < |sinks| && Accepts(jobs, |jobs|, k) :: sinks[k].bytes == old(sinks[k].bytes) + Encode(emitted[|old(emitted)|..])
      ensures emitted == old(emitted) ==> wal.bytes == old(wal.bytes)
      ensures old(counted) && (forall j | 0 <= j < |jobs| :: Atomic(jobs[j])) ==> counted
      ensures old(linked) && (forall j | 0 <= j < |jobs| :: Lossless(jobs[j])) ==> linked
      ensures |emitted| - |durable| == |old(emitted)| - |old(durable)| || exists j | 0 <= j < |jobs| :: jobs[j].wal.Torn?
    {
      var n := 0;
      hide Resumes, Spun, Codec.Sound, WalLines, Terminated, Delivers, Apart, Atomic, Lossless, Witnessed, Encode, HeadOf;
      EncodeNone(emitted);
      while n < |jobs|
        invariant 0 <= n <= |jobs| && Valid() && old(emitted) <= emitted
        invariant old(blocked) != 0 ==> blocked == old(blocked)
        invariant old(pending) > 0 ==> old(wal.bytes) <= wal.bytes && old(pending) <= pending
        invariant forall k | 0 <= k < |sinks| && Accepts(jobs, n, k) :: sinks[k].bytes == old(sinks[k].bytes) + Encode(emitted[|old(emitted)|..])
        invariant emitted == old(emitted) ==> wal.bytes == old(wal.bytes)
        invariant old(counted) && (forall j | 0 <= j < n :: Atomic(jobs[j])) ==> counted
        invariant old(linked) && (forall j | 0 <= j < n :: Lossless(jobs[j])) ==> linked
        invariant |emitted| - |durable| == |old(emitted)| - |old(durable)| || exists j | 0 <= j < n :: jobs[j].wal.Torn?
      {
        ghost var was := emitted;
        Step(jobs[n]);
        EncodeNext(was, emitted, |old(emitted)|);
        n := n + 1;
      }
    }

    /** A durable record that some required sink refused is in the WAL from then on, whatever comes later. */
    method RefusedRecordStays(job: Job, later: seq<Job>) returns (ghost kept: Bytes)
      requires Valid() && |job.sinks| == |sinks| && forall j | 0 <= j < |later| :: |later[j].sinks| == |sinks|
      requires c.canon(Record(job.event, job.body, instance, prevHash)).Some? && job.wal.Whole?
      requires exists k :: 0 <= k < |sinks| && sinks[k].required && !job.sinks[k].Whole?
      modifies this, wal, sinks
      ensures Valid() && kept == old(wal.bytes) + Framed(c.canon(Record(job.event, job.body, instance, old(prevHash))).value)
      ensures kept <= wal.bytes && pending > 0
    {
      assert !Delivers(sinks, job.sinks);
      hide Delivers;
      Step(job);
      kept := wal.bytes;
      hide Resumes, Spun, Codec.Sound, WalLines, Terminated, Delivers, Apart, Atomic, Lossless, Witnessed, HeadOf;
      Loop(later);
    }

    /**
     While the WAL works and every required sink takes every record, whatever the optional ones do, nothing is
     left behind: the WAL is empty, nothing is pending, and neither of them ever blocks the writer.
     */
    method DeliveredRecordsGo(jobs: seq<Job>)
      requires Valid() && pending == 0 && wal.bytes == [] && forall j | 0 <= j < |jobs| :: |jobs[j].sinks| == |sinks|
      requires forall j | 0 <= j < |jobs| :: jobs[j].wal.Whole? && jobs[j].truncation.Emptied?
      requires forall j, k | 0 <= j < |jobs| && 0 <= k < |sinks| && sinks[k].required :: jobs[j].sinks[k].Whole?
      modifies this, wal, sinks
      ensures Valid() && wal.bytes == [] && pending == 0 && (blocked == old(blocked) || blocked == 3)
    {
      var n := 0;
      while n < |jobs|
        invariant 0 <= n <= |jobs| && Valid() && wal.bytes == [] && pending == 0 && (blocked == old(blocked) || blocked == 3)
      {
        assert Delivers(sinks, jobs[n].sinks);
        hide Resumes, Spun, Codec.Sound, WalLines, Terminated, Delivers, Apart, Atomic, Lossless, Witnessed, HeadOf, Written;
        Step(jobs[n]);
        n := n + 1;
      }
    }

    /**
     Undelivered records alone block the writer only once they fill the queue: while the WAL works and fewer than
     1024 records are retained, it stays open whatever the sinks do.
     */
    method OpenUntilFull(jobs: seq<Job>)
      requires Valid() && blocked == 0 && pending + |jobs| < 1024 && forall j | 0 <= j < |jobs| :: |jobs[j].sinks| == |sinks|
      requires forall j | 0 <= j < |jobs| :: jobs[j].wal.Whole? && jobs[j].truncation.Emptied?
      modifies this, wal, sinks
      ensures Valid() && pending <= old(pending) + |jobs| && (blocked == 0 || blocked == 3)
    {
      var n := 0;
      hide Resumes, Spun, Codec.Sound, WalLines, Terminated, Delivers, Apart, Atomic, Lossless, Witnessed, HeadOf, Written;
      while n < |jobs|
        invariant 0 <= n <= |jobs| && Valid() && pending <= old(pending) + n && (blocked == 0 || blocked == 3)
      {
        Step(jobs[n]);
        n := n + 1;
      }
    }

    /**
     The first failure of an open writer is the one it reports for good: a record that has no canonical form, a
     WAL that failed to append or to empty, or as many retained records as the queue holds.
     */
    method FirstFailureStays(job: Job, later: seq<Job>)
      requires Valid() && |job.sinks| == |sinks| && blocked == 0 && forall j | 0 <= j < |later| :: |later[j].sinks| == |sinks|
      modifies this, wal, sinks
      ensures c.canon(Record(job.event, job.body, instance, old(prevHash))).None? ==> blocked == 3
      ensures c.canon(Record(job.event, job.body, instance, old(prevHash))).Some? ==>
                var delivered := forall k | 0 <= k < |sinks| && sinks[k].required :: job.sinks[k].Whole?;
                && (job.wal.Torn? ==> blocked == 2)
                && (job.wal.Whole? && delivered && old(pending) == 0 && !job.truncation.Emptied? ==> blocked == 2)
                && (job.wal.Whole? && (!delivered || old(pending) > 0) && old(pending) == 1023 ==> blocked == 1)
    {
      ghost var delivered := forall k | 0 <= k < |sinks| && sinks[k].required :: job.sinks[k].Whole?;
      assert delivered == Delivers(sinks, job.sinks);
      hide Resumes, Spun, Codec.Sound, WalLines, Terminated, Delivers, Apart, Atomic, Lossless, Witnessed, HeadOf, Written;
      Step(job);
      Loop(later);
    }
  }

  /** Sink k takes each of the first n records. */
  predicate Accepts(jobs: seq<Job>, n: nat, k: nat)
    requires n <= |jobs|
  {
    forall j | 0 <= j < n && k < |jobs[j].sinks| :: jobs[j].sinks[k].Whole?
  }

  lemma EncodeNone(ls: seq<Line>)
    ensures Encode(ls[|ls|..]) == []
  {
  }

  lemma EncodeNext(was: seq<Line>, now: seq<Line>, from: nat)
    requires from <= |was| && was <= now && |now| <= |was| + 1
    ensures Encode(now[from..]) == Encode(was[from..]) + if |now| == |was| then [] else Framed(now[|was|])
  {
    if |now| == |was| {
      assert now == was;
    } else {
      assert now[from..][..|was| - from] == was[from..];
    }
  }

  /** Opens the writer of a new process on the WAL the last one left, or refuses. */
  method NewWriter(c: Codec, instance: string, wal: WAL, sinks: seq<FileSink>) returns (w: Writer?)
    requires c.Sound() && Apart(sinks)
    ensures w != null <==> Terminated(wal.bytes) && Retainable(c, WalLines(wal.bytes))
    ensures w != null ==>
              && fresh(w) && w.Valid() && w.c == c && w.instance == instance && w.wal == wal && w.sinks == sinks
              && w.pending == |WalLines(wal.bytes)| && w.blocked == (if w.pending >= QUEUE_CAPACITY then BLOCKED_BUFFER else 0)
              && w.emitted == [] && w.durable == [] && w.counted
              && w.linked == (instance != "" && LastInstance(c, wal.bytes) != Some(instance))
  {
    var retained := RetainedRecords(c, wal);
    if retained.None? {
      return null;
    }
    w := new Writer(c, instance, wal, sinks, retained.value);
  }

  /** The canonical line of a record is the chain's next line. */
  lemma ChainsNext(c: Codec, instance: string, emitted: seq<Line>, rec: Record, line: Line)
    requires c.Sound() && Spun(c, instance, emitted) && rec.instance == instance && rec.prevHash == HeadOf(c, emitted)
    requires c.canon(rec) == Some(line)
    ensures Clean(line) && c.parse(line) == Some(Header(rec.event, instance, HeadOf(c, emitted)))
    ensures Spun(c, instance, emitted + [line]) && HeadOf(c, emitted + [line]) == c.hash(line)
  {
    hide Spun;
    SpunNext(c, instance, emitted, line);
  }

  lemma SpunNext(c: Codec, instance: string, ls: seq<Line>, l: Line)
    requires Spun(c, instance, ls) && Clean(l) && c.parse(l).Some?
    requires c.parse(l).value.instance == instance && c.parse(l).value.prevHash == HeadOf(c, ls)
    ensures Spun(c, instance, ls + [l])
  {
    hide Clean;
    forall i | 0 <= i < |ls + [l]|
      ensures Clean((ls + [l])[i]) && c.parse((ls + [l])[i]).Some? && c.parse((ls + [l])[i]).value.instance == instance
      ensures c.parse((ls + [l])[i]).value.prevHash == HeadOf(c, (ls + [l])[..i])
    {
      if i < |ls| {
        assert (ls + [l])[..i] == ls[..i];
      } else {
        assert (ls + [l])[..i] == ls;
      }
    }
  }

  /** The record after a retained backlog joins it. */
  lemma JoinsNext(c: Codec, instance: string, emitted: seq<Line>, ls: seq<Line>, l: Line, event: string)
    requires c.Sound() && Resumes(c, instance, ls, emitted) && Spun(c, instance, emitted) && event != ""
    requires c.parse(l) == Some(Header(event, instance, HeadOf(c, emitted)))
    ensures Resumes(c, instance, ls + [l], emitted + [l]) && Resumes(c, instance, [], emitted + [l])
  {
    if emitted != [] {
      assert IsDigest(c.hash(emitted[|emitted| - 1]));
      assert c.parse(emitted[|emitted| - 1]).value.instance == instance;
    }
    assert Plausible(c, l);
    assert (ls + [l])[..|ls|] == ls && (ls + [l])[..|ls| + 1] == ls + [l];
    hide Codec.Sound, Plausible, Spun;
    if ls != [] {
      RetainableParts(c, ls);
      assert Joins(c, ls[|ls| - 1], l);
    }
    RetainableNext(c, ls + [l], |ls|);
    hide Retainable;
  }

  lemma RetainableParts(c: Codec, ls: seq<Line>)
    requires Retainable(c, ls) && ls != []
    ensures c.parse(ls[|ls| - 1]).Some?
  {
    assert Plausible(c, ls[|ls| - 1]);
  }
}
