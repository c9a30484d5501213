/**
 The chain rules and their verifier (internal/audit/verify.go). Each line names the hash of the line before
 it; the first line of a run of one instance names the genesis instead.
 */
module AuditChain {
  import opened Basics
  import opened AuditFormat

  /** The head hash and length of one instance's latest segment. */
  datatype Segment = Segment(head: string, count: nat)

  function InstanceAt(c: Codec, ls: seq<Line>, i: nat): string
    requires i < |ls|
  {
    match c.parse(ls[i])
    case Some(h) => h.instance
    case None => ""
  }

  /** Does line i begin a segment? */
  predicate Begins(c: Codec, ls: seq<Line>, i: nat)
    requires i < |ls|
  {
    i == 0 || InstanceAt(c, ls, i) != InstanceAt(c, ls, i - 1)
  }

  /** What line i must name as its predecessor. */
  function PrevOf(c: Codec, ls: seq<Line>, i: nat): string
    requires i < |ls|
  {
    if Begins(c, ls, i) then GENESIS else c.hash(ls[i - 1])
  }

  predicate LinkedAt(c: Codec, ls: seq<Line>, i: nat)
    requires i < |ls|
  {
    c.parse(ls[i]).Some? && c.parse(ls[i]).value.prevHash == PrevOf(c, ls, i)
  }

  /** The first n lines are an intact chain. */
  predicate Chained(c: Codec, ls: seq<Line>, n: nat)
    requires n <= |ls|
  {
    forall i | 0 <= i < n :: LinkedAt(c, ls, i)
  }

  /** How many lines of i's segment there are, up to i. */
  function Length(c: Codec, ls: seq<Line>, i: nat): (n: nat)
    requires i < |ls|
    ensures 1 <= n <= i + 1
  {
    if Begins(c, ls, i) then 1 else Length(c, ls, i - 1) + 1
  }

  /** Every instance seen in the first n lines, with the segment it was last seen in. */
  function Instances(c: Codec, ls: seq<Line>, n: nat): map<string, Segment>
    requires n <= |ls|
  {
    if n == 0 then map[]
    else Instances(c, ls, n - 1)[InstanceAt(c, ls, n - 1) := Segment(c.hash(ls[n - 1]), Length(c, ls, n - 1))]
  }

  /** Line i is the count-th line of a segment of instance. */
  predicate Reaches(c: Codec, ls: seq<Line>, i: nat, instance: string, count: int)
    requires i < |ls|
  {
    InstanceAt(c, ls, i) == instance && Length(c, ls, i) == count
  }

  /** The first of the first n lines that is the count-th of a segment of instance. */
  function FirstReach(c: Codec, ls: seq<Line>, instance: string, count: int, n: nat): (i: Option<nat>)
    requires n <= |ls|
    ensures i.Some? ==> i.value < n && Reaches(c, ls, i.value, instance, count) && forall j | 0 <= j < i.value :: !Reaches(c, ls, j, instance, count)
    ensures i.None? ==> forall j | 0 <= j < n :: !Reaches(c, ls, j, instance, count)
  {
    if n == 0 then None
    else
      var before := FirstReach(c, ls, instance, count, n - 1);
      if before.Some? then before else if Reaches(c, ls, n - 1, instance, count) then Some(n - 1) else None
  }

  // ---- Reading ----------------------------------------------------------------------

  datatype ReadEnd = Eof | Failure

  /** Everything up to and including the first newline. */
  function Chunk(s: Bytes): Bytes {
    s[..if FirstLF(s) < |s| then FirstLF(s) + 1 else |s|]
  }

  /** The piece in a chunk: its newline is dropped. */
  function Piece(chunk: Bytes): Line
    requires chunk != []
  {
    if chunk[|chunk| - 1] == LF then chunk[..|chunk| - 1] else chunk
  }

  function Tokens(s: Bytes): seq<Line> {
    Stripped(Pieces(s))
  }

  /** A stream that delivers its content and then ends, or fails. */
  class Reader {
    const content: Bytes
    const end: ReadEnd
    var pos: nat

    ghost predicate Valid()
      reads this
    {
      pos <= |content|
    }

    constructor (content: Bytes, end: ReadEnd)
      ensures Valid() && pos == 0 && this.content == content && this.end == end
    {
      this.content, this.end, pos := content, end, 0;
    }

    /** Everything up to and including the next newline, or all that is left and the reason it stopped. */
    method ReadBytes() returns (chunk: Bytes, err: Option<ReadEnd>)
      requires Valid()
      modifies this
      ensures Valid() && chunk == Chunk(content[old(pos)..]) && content[pos..] == content[old(pos)..][|chunk|..]
      ensures err == if FirstLF(content[old(pos)..]) < |content| - old(pos) then None else Some(end)
    {
      hide FirstLF, Chunk;
      var start := pos;
      while pos < |content| && content[pos] != LF
        invariant start <= pos <= |content|
        invariant forall k | start <= k < pos :: content[k] != LF
      {
        pos := pos + 1;
      }
      ChunkAt(content, start, pos);
      if pos < |content| {
        pos := pos + 1;
        return content[start..pos], None;
      }
      return content[start..pos], Some(end);
    }
  }

  /** The chunk of what is left, when the next newline is at pos or there is none. */
  lemma ChunkAt(content: Bytes, start: nat, pos: nat)
    requires start <= pos <= |content| && (forall k | start <= k < pos :: content[k] != LF) && (pos < |content| ==> content[pos] == LF)
    ensures var left := content[start..];
            var next := if pos < |content| then pos + 1 else pos;
            && FirstLF(left) == pos - start && Chunk(left) == content[start..next] && content[next..] == left[next - start..]
  {
    FirstLFAt(content[start..], pos - start);
    hide FirstLF;
  }

  lemma ChunkIsPiece(s: Bytes, chunk: Bytes)
    requires s != [] && chunk == Chunk(s)
    ensures chunk != [] && Piece(chunk) == s[..FirstLF(s)]
    ensures s[|chunk|..] == s[if FirstLF(s) < |s| then FirstLF(s) + 1 else FirstLF(s)..]
    ensures FirstLF(s) == |s| ==> s[|chunk|..] == []
  {
    var i := FirstLF(s);
    hide FirstLF;
    if i < |s| {
      assert chunk == s[..i + 1] && chunk[i] == LF && chunk[..i] == s[..i];
    } else {
      assert s[..i] == s && chunk[i - 1] == s[i - 1];
    }
  }

  /** The chunk up to and including the first newline is the first piece, and what follows holds the others. */
  lemma FirstPiece(s: Bytes, chunk: Bytes)
    requires s != [] && chunk == Chunk(s)
    ensures chunk != [] && Pieces(s) == [Piece(chunk)] + Pieces(s[|chunk|..])
    ensures Tokens(s) == [StripCR(Piece(chunk))] + Tokens(s[|chunk|..])
    ensures FirstLF(s) == |s| ==> s[|chunk|..] == []
  {
    ChunkIsPiece(s, chunk);
    UnfoldPieces(s);
    hide Pieces, Stripped, FirstLF, Chunk, Piece, StripCR;
    StrippedCons(Piece(chunk), Pieces(s[|chunk|..]));
  }

  lemma UnfoldPieces(s: Bytes)
    requires s != []
    ensures var i := FirstLF(s); Pieces(s) == [s[..i]] + Pieces(s[if i < |s| then i + 1 else i..])
  {
    hide FirstLF;
    if FirstLF(s) == |s| {
      assert s[|s|..] == [];
    }
  }

  lemma StrippedCons(l: Line, rest: seq<Line>)
    ensures Stripped([l] + rest) == [StripCR(l)] + Stripped(rest)
  {
    assert ([l] + rest)[1..] == rest;
  }

  class AuditLines {
    const reader: Reader
    var line: Line
    var err: Option<ReadEnd>

    ghost predicate Valid()
      reads this, reader
    {
      reader.Valid() && (err.Some? ==> err.value == reader.end)
    }

    /** The tokens still to come, empty ones included. */
    ghost function Rest(): seq<Line>
      requires Valid()
      reads this, reader
    {
      if err.Some? then [] else Tokens(reader.content[reader.pos..])
    }

    constructor (r: Reader)
      requires r.Valid()
      ensures Valid() && reader == r && Rest() == Tokens(r.content[r.pos..])
    {
      reader, line, err := r, [], None;
    }

    method Next() returns (ok: bool)
      requires Valid()
      modifies this, reader
      ensures Valid()
      ensures if ok then old(Rest()) == [line] + Rest() else old(Rest()) == [] && err.Some?
    {
      if err.Some? {
        return false;
      }
      ghost var left := reader.content[reader.pos..];
      hide FirstLF, Tokens, Chunk, Pieces, Piece, StripCR;
      var chunk, e := reader.ReadBytes();
      err := e;
      NextToken(left, chunk);
      if |chunk| == 0 {
        return false;
      }
      line := DropDelimiters(chunk);
      return true;
    }
  }

  lemma NextToken(s: Bytes, chunk: Bytes)
    requires chunk == Chunk(s)
    ensures chunk == [] <==> s == []
    ensures Tokens(s) == if chunk == [] then [] else [StripCR(Piece(chunk))] + Tokens(s[|chunk|..])
    ensures FirstLF(s) >= |s| ==> s[|chunk|..] == [] && Tokens(s[|chunk|..]) == []
  {
    if s != [] {
      FirstPiece(s, chunk);
    }
  }

  /** The newline of a chunk goes, and one carriage return before it. */
  method DropDelimiters(chunk: Bytes) returns (line: Line)
    requires chunk != []
    ensures line == StripCR(Piece(chunk))
  {
    line := chunk;
    if line[|line| - 1] == LF {
      line := line[..|line| - 1];
    }
    if |line| > 0 && line[|line| - 1] == CR {
      line := line[..|line| - 1];
    }
  }

  // ---- Verify and HeadAtCount ----------------------------------------------------------

  datatype VerifyResult =
    | Intact(records: nat, instances: map<string, Segment>)
    | Broken(at: nat, unparseable: bool, instances: map<string, Segment>)
    | Unreadable

  /** The variables of a walk: the current segment's instance, head and length. */
  datatype Walk = Walk(first: bool, instance: string, expected: string, count: nat)

  /** The walk's variables after n lines. */
  ghost predicate Tracks(c: Codec, ls: seq<Line>, n: nat, w: Walk)
    requires n <= |ls|
  {
    && w.first == (n == 0)
    && (n > 0 ==> w.instance == InstanceAt(c, ls, n - 1) && w.expected == c.hash(ls[n - 1]) && w.count == Length(c, ls, n - 1))
  }

  /** Checks one line against the walk so far and takes it in. */
  method Follow(c: Codec, w: Walk, ghost ls: seq<Line>, ghost n: nat, line: Line) returns (parsed: bool, linked: bool, w': Walk)
    requires n < |ls| && line == ls[n] && Tracks(c, ls, n, w)
    ensures parsed <==> c.parse(line).Some?
    ensures linked <==> LinkedAt(c, ls, n)
    ensures linked ==> Tracks(c, ls, n + 1, w')
  {
    var rec := c.parse(line);
    w' := w;
    if rec.None? {
      return false, false, w;
    }
    if w.first || rec.value.instance != w.instance {
      w' := Walk(false, rec.value.instance, GENESIS, 0);
    }
    if rec.value.prevHash != w'.expected {
      return true, false, w';
    }
    w' := w'.(expected := c.hash(line), count := w'.count + 1);
    return true, true, w';
  }

  lemma ChainedNext(c: Codec, ls: seq<Line>, n: nat)
    requires n < |ls| && Chained(c, ls, n) && LinkedAt(c, ls, n)
    ensures Chained(c, ls, n + 1)
  {
    hide LinkedAt;
  }

  lemma InstancesNext(c: Codec, ls: seq<Line>, n: nat, w: Walk)
    requires 0 < n <= |ls| && Tracks(c, ls, n, w)
    ensures Instances(c, ls, n) == Instances(c, ls, n - 1)[w.instance := Segment(w.expected, w.count)]
  {
    hide InstanceAt, Length;
  }

  /** The non-empty tokens still to come are the lines from n on. */
  ghost predicate Ahead(ls: seq<Line>, n: nat, rest: seq<Line>) {
    n <= |ls| && ls[n..] == NonEmpty(rest)
  }

  lemma AheadNext(ls: seq<Line>, n: nat, line: Line, rest: seq<Line>)
    requires Ahead(ls, n, [line] + rest)
    ensures if line == [] then Ahead(ls, n, rest) else n < |ls| && ls[n] == line && Ahead(ls, n + 1, rest)
  {
    assert ([line] + rest)[1..] == rest;
    if line != [] {
      assert ls[n..][0] == line && ls[n + 1..] == ls[n..][1..];
    }
  }

  lemma AheadFirst(s: Bytes)
    ensures Ahead(StreamLines(s), 0, Tokens(s[0..]))
  {
    assert s[0..] == s;
  }

  lemma AheadNone(ls: seq<Line>, n: nat)
    requires Ahead(ls, n, [])
    ensures n == |ls|
  {
  }

  /**
   Intact exactly when the stream is readable and its lines are chained; otherwise the first line that breaks
   the chain is named, and the instances are those of the intact part.
   */
  method Verify(c: Codec, r: Reader) returns (v: VerifyResult)
    requires r.Valid() && r.pos == 0
    modifies r
    ensures var ls := StreamLines(r.content);
            match v
            case Intact(records, instances) => r.end == Eof && Chained(c, ls, |ls|) && records == |ls| && instances == Instances(c, ls, |ls|)
            case Broken(at, unparseable, instances) =>
              && 1 <= at <= |ls| && Chained(c, ls, at - 1) && !LinkedAt(c, ls, at - 1)
              && unparseable == c.parse(ls[at - 1]).None? && instances == Instances(c, ls, at - 1)
            case Unreadable => r.end == Failure && Chained(c, ls, |ls|)
  {
    ghost var ls := StreamLines(r.content);
    AheadFirst(r.content);
    var lines := new AuditLines(r);
    var n, w := 0, Walk(true, "", GENESIS, 0);
    var instances: map<string, Segment> := map[];
    assert Tracks(c, ls, 0, w) && Chained(c, ls, 0) && Instances(c, ls, 0) == map[];
    hide StreamLines, Tokens, Ahead, Tracks, Chained, Instances, LinkedAt;
    while true
      invariant lines.Valid() && lines.reader == r && Ahead(ls, n, lines.Rest()) && n <= |ls|
      invariant Chained(c, ls, n) && instances == Instances(c, ls, n) && Tracks(c, ls, n, w)
      decreases |lines.Rest()|
    {
      var more := lines.Next();
      if !more {
        break;
      }
      var line := lines.line;
      AheadNext(ls, n, line, lines.Rest());
      if |line| == 0 {
        continue;
      }
      var parsed, linked, w' := Follow(c, w, ls, n, line);
      n := n + 1;
      if !linked {
        return Broken(n, !parsed, instances);
      }
      ChainedNext(c, ls, n - 1);
      InstancesNext(c, ls, n, w');
      w := w';
      instances := instances[w.instance := Segment(w.expected, w.count)];
    }
    AheadNone(ls, n);
    if lines.err == Some(Failure) {
      return Unreadable;
    }
    return Intact(n, instances);
  }

  datatype Head = At(hash: string) | NotFound | Failed

  lemma ReachedNow(c: Codec, ls: seq<Line>, n: nat, instance: string, count: int)
    requires n < |ls| && Unreached(c, ls, n, instance, count)
    ensures if Reaches(c, ls, n, instance, count) then FirstReach(c, ls, instance, count, |ls|) == Some(n) else Unreached(c, ls, n + 1, instance, count)
  {
    hide Reaches, FirstReach;
  }

  ghost predicate Unreached(c: Codec, ls: seq<Line>, n: nat, instance: string, count: int)
    requires n <= |ls|
  {
    forall j | 0 <= j < n :: !Reaches(c, ls, j, instance, count)
  }

  /** A break before the count is reached means it is never reached on an intact chain. */
  lemma BrokenFirst(c: Codec, ls: seq<Line>, n: nat, instance: string, count: int)
    requires n < |ls| && Unreached(c, ls, n, instance, count) && !LinkedAt(c, ls, n)
    ensures !Chained(c, ls, |ls|)
    ensures var i := FirstReach(c, ls, instance, count, |ls|); i.Some? ==> !Chained(c, ls, i.value + 1)
  {
    hide Reaches, FirstReach, LinkedAt;
  }

  lemma NeverReached(c: Codec, ls: seq<Line>, instance: string, count: int)
    requires Unreached(c, ls, |ls|, instance, count)
    ensures FirstReach(c, ls, instance, count, |ls|).None?
  {
  }

  /** Reaches, in terms of the walk's variables. */
  lemma TracksReaches(c: Codec, ls: seq<Line>, n: nat, w: Walk, instance: string, count: int)
    requires 0 < n <= |ls| && Tracks(c, ls, n, w)
    ensures Reaches(c, ls, n - 1, instance, count) <==> w.instance == instance && w.count == count
  {
  }

  /** The head of instance's segment when it first had count lines, if the stream is intact that far. */
  method HeadAtCount(c: Codec, r: Reader, instance: string, count: int) returns (h: Head)
    requires r.Valid() && r.pos == 0
    modifies r
    ensures var ls := StreamLines(r.content);
            var i := FirstReach(c, ls, instance, count, |ls|);
            && (h.At? <==> i.Some? && Chained(c, ls, i.value + 1)) && (h.At? ==> h.hash == c.hash(ls[i.value]))
            && (h.Failed? <==> i.None? && Chained(c, ls, |ls|) && r.end == Failure)
  {
    ghost var ls := StreamLines(r.content);
    AheadFirst(r.content);
    var lines := new AuditLines(r);
    var w := Walk(true, "", GENESIS, 0);
    ghost var n := 0;
    assert Tracks(c, ls, 0, w) && Chained(c, ls, 0) && Unreached(c, ls, 0, instance, count);
    hide StreamLines, Tokens, Ahead, Tracks, Chained, FirstReach, Reaches, Unreached, LinkedAt;
    while true
      invariant lines.Valid() && lines.reader == r && Ahead(ls, n, lines.Rest()) && n <= |ls|
      invariant Chained(c, ls, n) && Unreached(c, ls, n, instance, count) && Tracks(c, ls, n, w)
      decreases |lines.Rest()|
    {
      var more := lines.Next();
      if !more {
        break;
      }
      var line := lines.line;
      AheadNext(ls, n, line, lines.Rest());
      if |line| == 0 {
        continue;
      }
      var _, linked, w' := Follow(c, w, ls, n, line);
      if !linked {
        BrokenFirst(c, ls, n, instance, count);
        return NotFound;
      }
      w := w';
      ChainedNext(c, ls, n);
      TracksReaches(c, ls, n + 1, w, instance, count);
      ReachedNow(c, ls, n, instance, count);
      n := n + 1;
      if w.instance == instance && w.count == count {
        LastHash(c, ls, n, w);
        return At(w.expected);
      }
    }
    AheadNone(ls, n);
    NeverReached(c, ls, instance, count);
    if lines.err == Some(Failure) {
      return Failed;
    }
    return NotFound;
  }

  lemma LastHash(c: Codec, ls: seq<Line>, n: nat, w: Walk)
    requires 0 < n <= |ls| && Tracks(c, ls, n, w)
    ensures w.expected == c.hash(ls[n - 1])
  {
  }

  // ---- Tamper evidence --------------------------------------------------------------------

  /** The lines of i's segment up to i. */
  function SegmentOf(c: Codec, ls: seq<Line>, i: nat): (segment: seq<Line>)
    requires i < |ls|
    ensures |segment| == Length(c, ls, i)
  {
    ls[i + 1 - Length(c, ls, i)..i + 1]
  }

  /** Two different lines with one hash. */
  ghost predicate Collide(c: Codec, a: seq<Line>, b: seq<Line>) {
    exists i, j | 0 <= i < |a| && 0 <= j < |b| :: a[i] != b[j] && c.hash(a[i]) == c.hash(b[j])
  }

  /** A segment begins exactly where a line names the genesis. */
  lemma BeginsAtGenesis(c: Codec, ls: seq<Line>, i: nat)
    requires c.Sound() && i < |ls| && LinkedAt(c, ls, i)
    ensures Begins(c, ls, i) <==> c.parse(ls[i]).value.prevHash == GENESIS
    ensures !Begins(c, ls, i) ==> c.parse(ls[i]).value.prevHash == c.hash(ls[i - 1])
  {
    if !Begins(c, ls, i) {
      assert IsDigest(c.hash(ls[i - 1]));
    }
  }

  lemma SegmentGrows(c: Codec, ls: seq<Line>, i: nat)
    requires i < |ls| && !Begins(c, ls, i)
    ensures SegmentOf(c, ls, i) == SegmentOf(c, ls, i - 1) + [ls[i]]
  {
    hide InstanceAt;
  }

  /** Equal head hashes mean line-for-line equal segments, or here is a collision. */
  lemma {:induction false} SameHeadSameSegment(c: Codec, a: seq<Line>, i: nat, b: seq<Line>, j: nat)
    requires c.Sound() && i < |a| && j < |b| && Chained(c, a, i + 1) && Chained(c, b, j + 1)
    requires c.hash(a[i]) == c.hash(b[j])
    ensures Collide(c, a, b) || SegmentOf(c, a, i) == SegmentOf(c, b, j)
  {
    if a[i] == b[j] {
      BeginsAtGenesis(c, a, i);
      BeginsAtGenesis(c, b, j);
      if !Begins(c, a, i) {
        SegmentGrows(c, a, i);
        SegmentGrows(c, b, j);
        hide SegmentOf, Length, Codec.Sound, Begins, InstanceAt;
        SameHeadSameSegment(c, a, i - 1, b, j - 1);
      } else {
        hide Codec.Sound, LinkedAt;
      }
    }
  }

  /** The last of the first n lines that belongs to instance. */
  function LastOf(c: Codec, ls: seq<Line>, instance: string, n: nat): (i: Option<nat>)
    requires n <= |ls|
    ensures i.Some? <==> instance in Instances(c, ls, n)
    ensures i.Some? ==> i.value < n && InstanceAt(c, ls, i.value) == instance
    ensures i.Some? ==> Instances(c, ls, n)[instance] == Segment(c.hash(ls[i.value]), Length(c, ls, i.value))
  {
    if n == 0 then None else if InstanceAt(c, ls, n - 1) == instance then Some(n - 1) else LastOf(c, ls, instance, n - 1)
  }

  /**
   Two streams that verify, with the same head for an instance, end that instance in the same segment, line for
   line, or contain a collision.
   */
  lemma VerifyIsTamperEvident(c: Codec, a: seq<Line>, b: seq<Line>, instance: string)
    requires c.Sound() && Chained(c, a, |a|) && Chained(c, b, |b|)
    requires instance in Instances(c, a, |a|) && instance in Instances(c, b, |b|)
    requires Instances(c, a, |a|)[instance].head == Instances(c, b, |b|)[instance].head
    ensures Collide(c, a, b)
         || SegmentOf(c, a, LastOf(c, a, instance, |a|).value) == SegmentOf(c, b, LastOf(c, b, instance, |b|).value)
  {
    SameHeadSameSegment(c, a, LastOf(c, a, instance, |a|).value, b, LastOf(c, b, instance, |b|).value);
  }

  /** All lines are of one instance. */
  ghost predicate Single(c: Codec, ls: seq<Line>, instance: string) {
    forall i | 0 <= i < |ls| :: InstanceAt(c, ls, i) == instance
  }

  lemma {:induction false} SingleLength(c: Codec, ls: seq<Line>, instance: string, i: nat)
    requires Single(c, ls, instance) && i < |ls|
    ensures Length(c, ls, i) == i + 1
  {
    hide InstanceAt;
    if i > 0 {
      SingleLength(c, ls, instance, i - 1);
    }
  }

  lemma SingleSegment(c: Codec, ls: seq<Line>, instance: string, i: nat)
    requires Single(c, ls, instance) && i < |ls|
    ensures SegmentOf(c, ls, i) == ls[..i + 1]
  {
    SingleLength(c, ls, instance, i);
    hide Length;
  }

  lemma SingleReach(c: Codec, ls: seq<Line>, instance: string, n: nat)
    requires Single(c, ls, instance) && 0 < n
    ensures FirstReach(c, ls, instance, n, |ls|) == if n <= |ls| then Some(n - 1) else None
  {
    forall k | 0 <= k < |ls|
      ensures Length(c, ls, k) == k + 1
    {
      SingleLength(c, ls, instance, k);
    }
    if n <= |ls| {
      assert Reaches(c, ls, n - 1, instance, n);
    }
  }

  /** For one instance, equal heads at count n mean the same first n lines: at the end, the same stream. */
  lemma SingleInstanceTamperEvidence(c: Codec, a: seq<Line>, b: seq<Line>, instance: string, n: nat)
    requires c.Sound() && Single(c, a, instance) && Single(c, b, instance) && Chained(c, a, |a|) && Chained(c, b, |b|)
    requires 0 < n && n <= |a| && n <= |b| && c.hash(a[n - 1]) == c.hash(b[n - 1])
    ensures Collide(c, a, b) || a[..n] == b[..n]
  {
    hide Codec.Sound, Single, LinkedAt, SegmentOf, Collide, Length;
    SingleSegment(c, a, instance, n - 1);
    SingleSegment(c, b, instance, n - 1);
    SameHeadSameSegment(c, a, n - 1, b, n - 1);
  }

  lemma SingleHead(c: Codec, ls: seq<Line>, instance: string)
    requires Single(c, ls, instance) && ls != []
    ensures instance in Instances(c, ls, |ls|) && Instances(c, ls, |ls|)[instance] == Segment(c.hash(ls[|ls| - 1]), |ls|)
  {
    SingleLength(c, ls, instance, |ls| - 1);
    hide Length, InstanceAt;
  }

  /** Two streams of one instance that verify with the same head are the same stream, or contain a collision. */
  lemma SameHeadSameStream(c: Codec, a: seq<Line>, b: seq<Line>, instance: string)
    requires c.Sound() && Single(c, a, instance) && Single(c, b, instance) && Chained(c, a, |a|) && Chained(c, b, |b|)
    requires a != [] && b != [] && Instances(c, a, |a|)[instance].head == Instances(c, b, |b|)[instance].head
    ensures Collide(c, a, b) || a == b
  {
    hide Codec.Sound, LinkedAt, SegmentOf, Collide, Length, InstanceAt, Instances;
    SingleHead(c, a, instance);
    SingleHead(c, b, instance);
    SingleSegment(c, a, instance, |a| - 1);
    SingleSegment(c, b, instance, |b| - 1);
    SameHeadSameSegment(c, a, |a| - 1, b, |b| - 1);
    assert a[..|a|] == a && b[..|b|] == b;
  }

  /**
   On an intact stream a head asked for at the count Verify reports is always found. It is Verify's head exactly
   when the first segment of the instance to get that long is the last one, line for line, collisions aside.
   */
  lemma HeadAtVerifiedCount(c: Codec, ls: seq<Line>, instance: string)
    requires c.Sound() && Chained(c, ls, |ls|) && instance in Instances(c, ls, |ls|)
    ensures var final := Instances(c, ls, |ls|)[instance];
            var i := FirstReach(c, ls, instance, final.count, |ls|);
            && i.Some?
            && (SegmentOf(c, ls, i.value) == SegmentOf(c, ls, LastOf(c, ls, instance, |ls|).value) ==> c.hash(ls[i.value]) == final.head)
            && (c.hash(ls[i.value]) == final.head ==>
                  Collide(c, ls, ls) || SegmentOf(c, ls, i.value) == SegmentOf(c, ls, LastOf(c, ls, instance, |ls|).value))
  {
    var final := Instances(c, ls, |ls|)[instance];
    var last := LastOf(c, ls, instance, |ls|).value;
    assert Reaches(c, ls, last, instance, final.count);
    var i := FirstReach(c, ls, instance, final.count, |ls|).value;
    var a, b := SegmentOf(c, ls, i), SegmentOf(c, ls, last);
    assert a[|a| - 1] == ls[i] && b[|b| - 1] == ls[last];
    hide SegmentOf, Length, Instances, LastOf, FirstReach, LinkedAt, Codec.Sound, Collide;
    if c.hash(ls[i]) == final.head {
      SameHeadSameSegment(c, ls, i, ls, last);
    }
  }

  /** An instance that comes back with another chain is where the two disagree. */
  lemma ReappearingInstance(c: Codec, ls: seq<Line>)
    requires |ls| == 3 && Chained(c, ls, 3) && c.hash(ls[0]) != c.hash(ls[2])
    requires InstanceAt(c, ls, 0) == InstanceAt(c, ls, 2) != InstanceAt(c, ls, 1)
    ensures var instance := InstanceAt(c, ls, 0);
            && instance in Instances(c, ls, 3) && Instances(c, ls, 3)[instance] == Segment(c.hash(ls[2]), 1)
            && FirstReach(c, ls, instance, 1, 3) == Some(0)
            && c.hash(ls[0]) != Instances(c, ls, 3)[instance].head
  {
    assert Reaches(c, ls, 0, InstanceAt(c, ls, 0), 1);
  }
}
