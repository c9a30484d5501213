/**
 Audit bytes (internal/audit/wal.go, internal/audit/sink.go, internal/audit/verify.go): records are lines that
 end in a newline. Hashing and JSON are abstract: a codec is any hash with hexadecimal digests and any encoding
 into non-empty, newline-free lines from which event, instance and previous hash read back.
 */
module AuditFormat {
  import opened Basics

  type Line = seq<byte>

  const LF: byte := 10
  const CR: byte := 13
  const GENESIS := "sha256:genesis"

  datatype Record = Record(event: string, body: string, instance: string, prevHash: string)
  datatype Header = Header(event: string, instance: string, prevHash: string)

  predicate IsHex(ch: char) {
    '0' <= ch <= '9' || 'a' <= ch <= 'f' || 'A' <= ch <= 'F'
  }

  predicate IsDigest(s: string) {
    |s| == 71 && s[..7] == "sha256:" && forall i | 7 <= i < |s| :: IsHex(s[i])
  }

  /** A line as the writer emits it. */
  predicate Clean(l: Line) {
    l != [] && LF !in l && l[|l| - 1] != CR
  }

  datatype Codec = Codec(hash: Line -> string, parse: Line -> Option<Header>, canon: Record -> Option<Line>) {
    ghost predicate Sound() {
      && (forall l: Line :: IsDigest(hash(l)))
      && forall r: Record | canon(r).Some? ::
           Clean(canon(r).value) && parse(canon(r).value) == Some(Header(r.event, r.instance, r.prevHash))
    }
  }

  // ---- Framing -------------------------------------------------------------------

  /** The position of the first newline, or the end. */
  function FirstLF(s: Bytes): (i: nat)
    ensures i <= |s| && (forall k | 0 <= k < i :: s[k] != LF) && (i < |s| ==> s[i] == LF)
  {
    if s == [] || s[0] == LF then 0
    else
      FirstLF(s[1..]) + 1
  }

  lemma {:induction false} FirstLFAt(s: Bytes, i: nat)
    requires i <= |s| && (forall k | 0 <= k < i :: s[k] != LF) && (i < |s| ==> s[i] == LF)
    ensures FirstLF(s) == i
  {
    if i > 0 {
      FirstLFAt(s[1..], i - 1);
    }
  }

  /** The pieces between newlines; the last one may be unterminated. */
  function Pieces(s: Bytes): seq<Line>
    decreases |s|
  {
    if s == [] then []
    else
      var i := FirstLF(s);
      [s[..i]] + if i < |s| then Pieces(s[i + 1..]) else []
  }

  function NonEmpty(ls: seq<Line>): seq<Line> {
    if ls == [] then [] else (if ls[0] == [] then [] else [ls[0]]) + NonEmpty(ls[1..])
  }

  function StripCR(l: Line): Line {
    if l != [] && l[|l| - 1] == CR then l[..|l| - 1] else l
  }

  function Stripped(ls: seq<Line>): seq<Line> {
    if ls == [] then [] else [StripCR(ls[0])] + Stripped(ls[1..])
  }

  /** The records a replay of the WAL delivers. */
  function WalLines(s: Bytes): seq<Line> {
    NonEmpty(Pieces(s))
  }

  /** The records the verifier reads from a stream. */
  function StreamLines(s: Bytes): seq<Line> {
    NonEmpty(Stripped(Pieces(s)))
  }

  function Framed(l: Line): Bytes {
    l + [LF]
  }

  /** What appending the lines, in order, leaves in a file. */
  function Encode(ls: seq<Line>): Bytes {
    if ls == [] then [] else Encode(ls[..|ls| - 1]) + Framed(ls[|ls| - 1])
  }

  predicate AllClean(ls: seq<Line>) {
    forall i | 0 <= i < |ls| :: Clean(ls[i])
  }

  lemma {:induction false} FirstLFOfFramed(l: Line, rest: Bytes)
    requires LF !in l
    ensures FirstLF(l + [LF] + rest) == |l|
  {
    if l != [] {
      assert (l + [LF] + rest)[1..] == l[1..] + [LF] + rest;
      FirstLFOfFramed(l[1..], rest);
    }
  }

  lemma {:induction false} EncodeFirst(ls: seq<Line>)
    requires ls != []
    ensures Encode(ls) == Framed(ls[0]) + Encode(ls[1..])
    decreases |ls|
  {
    var n := |ls| - 1;
    if n > 0 {
      EncodeFirst(ls[..n]);
      assert ls[1..][..n - 1] == ls[..n][1..];
    }
  }

  lemma {:induction false} EncodeConcat(a: seq<Line>, b: seq<Line>)
    ensures Encode(a + b) == Encode(a) + Encode(b)
    decreases |b|
  {
    if b == [] {
      assert a + b == a;
    } else {
      var n := |b| - 1;
      assert (a + b)[..|a + b| - 1] == a + b[..n];
      EncodeConcat(a, b[..n]);
    }
  }

  lemma PiecesOfFramed(l: Line, tail: Bytes)
    requires LF !in l
    ensures Pieces(l + [LF] + tail) == [l] + Pieces(tail)
  {
    var s := l + [LF] + tail;
    FirstLFOfFramed(l, tail);
    assert s[..|l|] == l && s[|l| + 1..] == tail;
    hide FirstLF;
  }

  lemma {:induction false} PiecesOfEncoded(ls: seq<Line>, rest: Bytes)
    requires AllClean(ls)
    ensures Pieces(Encode(ls) + rest) == ls + Pieces(rest)
  {
    if ls == [] {
      assert Encode(ls) + rest == rest;
    } else {
      hide Encode, FirstLF, Pieces, AllClean;
      var first, body := ls[0] + [LF], Encode(ls[1..]);
      EncodeFirst(ls);
      Regroup(first, body, rest);
      CleanParts(ls);
      PiecesOfFramed(ls[0], body + rest);
      PiecesOfEncoded(ls[1..], rest);
      Regroup([ls[0]], ls[1..], Pieces(rest));
    }
  }

  lemma CleanParts(ls: seq<Line>)
    requires AllClean(ls) && ls != []
    ensures LF !in ls[0] && ls[0] != [] && AllClean(ls[1..]) && ls == [ls[0]] + ls[1..]
  {
    assert Clean(ls[0]);
  }

  lemma {:induction false} NonEmptyClean(ls: seq<Line>, rest: seq<Line>)
    requires AllClean(ls)
    ensures NonEmpty(ls + rest) == ls + NonEmpty(rest)
  {
    if ls == [] {
      assert ls + rest == rest;
    } else {
      assert (ls + rest)[1..] == ls[1..] + rest && Clean(ls[0]);
      NonEmptyClean(ls[1..], rest);
      assert [ls[0]] + (ls[1..] + NonEmpty(rest)) == ls + NonEmpty(rest);
    }
  }

  lemma {:induction false} StrippedClean(ls: seq<Line>, rest: seq<Line>)
    requires AllClean(ls)
    ensures Stripped(ls + rest) == ls + Stripped(rest)
  {
    if ls == [] {
      assert ls + rest == rest;
    } else {
      assert (ls + rest)[1..] == ls[1..] + rest && Clean(ls[0]);
      StrippedClean(ls[1..], rest);
      assert [ls[0]] + (ls[1..] + Stripped(rest)) == ls + Stripped(rest);
    }
  }

  /** Whatever follows in the file, the verifier and the WAL replay read the writer's lines back exactly. */
  lemma LinesReadBack(ls: seq<Line>, rest: Bytes)
    requires AllClean(ls)
    ensures WalLines(Encode(ls) + rest) == ls + WalLines(rest)
    ensures StreamLines(Encode(ls) + rest) == ls + StreamLines(rest)
  {
    PiecesOfEncoded(ls, rest);
    NonEmptyClean(ls, Pieces(rest));
    StrippedClean(ls, Pieces(rest));
    NonEmptyClean(ls, Stripped(Pieces(rest)));
  }

  /** The verifier reads a line that ends in a carriage return and a newline as the line; a replay keeps the carriage return. */
  lemma CarriageReturns(l: Line, rest: Bytes)
    requires Clean(l)
    ensures StreamLines(l + [CR] + [LF] + rest) == [l] + StreamLines(rest)
    ensures WalLines(l + [CR] + [LF] + rest) == [l + [CR]] + WalLines(rest)
  {
    PiecesOfFramed(l + [CR], rest);
    var ps := [l + [CR]] + Pieces(rest);
    assert StripCR(l + [CR]) == l;
    assert ps[1..] == Pieces(rest) && ps[0] == l + [CR];
    assert ([l] + Stripped(Pieces(rest)))[1..] == Stripped(Pieces(rest));
    hide Pieces;
  }

  /** Blank lines count for neither. */
  lemma BlankLines(rest: Bytes)
    ensures StreamLines([LF] + rest) == StreamLines(rest) && WalLines([LF] + rest) == WalLines(rest)
    ensures StreamLines([CR] + [LF] + rest) == StreamLines(rest)
  {
    PiecesOfFramed([], rest);
    PiecesOfFramed([CR], rest);
    assert [] + [LF] + rest == [LF] + rest;
    assert ([[]] + Pieces(rest))[1..] == Pieces(rest) && ([[CR]] + Pieces(rest))[1..] == Pieces(rest);
    assert ([[]] + Stripped(Pieces(rest)))[1..] == Stripped(Pieces(rest));
    hide Pieces;
  }

  /** A last line needs no newline. */
  lemma LastLine(l: Line)
    requires Clean(l)
    ensures StreamLines(l) == [l] && WalLines(l) == [l]
  {
    FirstLFAt(l, |l|);
    assert l[..|l|] == l && [l] + [] == [l];
    hide FirstLF;
    assert Pieces(l) == [l];
    StrippedClean([l], []);
    NonEmptyClean([l], []);
    assert [l] + [] == [l];
    hide Pieces;
  }
}
