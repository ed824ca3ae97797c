/**
 Cutting a byte stream into lines: what it should mean, and how the Python daemon
 does it from chunks, with its bound on an unfinished line.
 */
module Framing {
  const MAX_LINE: nat := 8192

  /** The most one receive can return. */
  const CHUNK: nat := 4096

  type Bytes = string

  type Chunk = c: Bytes | |c| <= CHUNK

  // ----- The meaning ------------------------------------------------------------

  /** The complete lines of a stream, without their newlines. */
  function Lines(s: Bytes): seq<Bytes> {
    if s == [] then []
    else
      var before := s[..|s| - 1];
      if s[|s| - 1] == '\n' then Lines(before) + [Partial(before)] else Lines(before)
  }

  /** What follows the last newline. */
  function Partial(s: Bytes): Bytes {
    if s == [] then []
    else if s[|s| - 1] == '\n' then []
    else Partial(s[..|s| - 1]) + [s[|s| - 1]]
  }

  function Unsplit(lines: seq<Bytes>, rest: Bytes): Bytes {
    if lines == [] then rest else Unsplit(lines[..|lines| - 1], lines[|lines| - 1] + "\n" + rest)
  }

  lemma {:induction false} UnsplitAppends(lines: seq<Bytes>, rest: Bytes, more: Bytes)
    ensures Unsplit(lines, rest + more) == Unsplit(lines, rest) + more
  {
    if lines != [] {
      var l := lines[|lines| - 1] + "\n";
      UnsplitAppends(lines[..|lines| - 1], l + rest, more);
      assert l + (rest + more) == (l + rest) + more;
    }
  }

  /** `Lines` and `Partial` are the split at newlines: the pieces hold none, and joining them gives the stream back. */
  lemma {:induction false} SplitThenJoin(s: Bytes)
    ensures '\n' !in Partial(s) && forall l :: l in Lines(s) ==> '\n' !in l
    ensures Unsplit(Lines(s), Partial(s)) == s
  {
    if s != [] {
      var before, c := s[..|s| - 1], s[|s| - 1];
      SplitThenJoin(before);
      UnsplitAppends(Lines(before), Partial(before), [c]);
      if c == '\n' {
        assert Lines(s)[..|Lines(before)|] == Lines(before);
        assert Partial(before) + "\n" + [] == Partial(before) + ['\n'];
      }
      assert s == before + [c];
    }
  }

  lemma {:induction false} SplitConcat(a: Bytes, b: Bytes)
    ensures Lines(a + b) == Lines(a) + Lines(Partial(a) + b)
    ensures Partial(a + b) == Partial(Partial(a) + b)
  {
    if b == [] {
      assert a + b == a && Partial(a) + b == Partial(a);
      NoNewlineNoLines(Partial(a));
      SplitThenJoin(a);
    } else {
      var n := |b| - 1;
      SplitConcat(a, b[..n]);
      assert (a + b)[..|a + b| - 1] == a + b[..n];
      assert (Partial(a) + b)[..|Partial(a) + b| - 1] == Partial(a) + b[..n];
    }
  }

  lemma {:induction false} NoNewlineNoLines(s: Bytes)
    ensures '\n' !in s ==> Lines(s) == [] && Partial(s) == s
  {
    if s != [] {
      NoNewlineNoLines(s[..|s| - 1]);
      assert s == s[..|s| - 1] + [s[|s| - 1]];
    }
  }

  /** The first line of a stream with a newline. */
  lemma {:induction false} FirstLine(s: Bytes, i: nat)
    requires i < |s| && s[i] == '\n' && '\n' !in s[..i]
    ensures Lines(s) == [s[..i]] + Lines(s[i + 1..]) && Partial(s) == Partial(s[i + 1..])
  {
    NoNewlineNoLines(s[..i]);
    assert s[..i + 1][..i] == s[..i];
    assert s == s[..i + 1] + s[i + 1..];
    assert [] + s[i + 1..] == s[i + 1..];
    SplitConcat(s[..i + 1], s[i + 1..]);
    assert Partial(s[..i + 1]) == [];
  }

  // ----- The Python reader --------------------------------------------------------

  /** What a reader has handled, what it keeps, and how often it gave up on a long line. */
  datatype Seen = Seen(lines: seq<Bytes>, rbuf: Bytes, dropped: nat)

  /** One received chunk: an unfinished line over the bound is thrown away. */
  function Take(r: Seen, chunk: Chunk): Seen {
    var buf := r.rbuf + chunk;
    if '\n' !in buf && |buf| > MAX_LINE then Seen(r.lines, [], r.dropped + 1)
    else Seen(r.lines + Lines(buf), Partial(buf), r.dropped)
  }

  function TakeAll(chunks: seq<Chunk>): Seen {
    if chunks == [] then Seen([], [], 0)
    else Take(TakeAll(chunks[..|chunks| - 1]), chunks[|chunks| - 1])
  }

  function Concat(chunks: seq<Chunk>): Bytes {
    if chunks == [] then [] else Concat(chunks[..|chunks| - 1]) + chunks[|chunks| - 1]
  }

  /** At no chunk boundary is the stream's unfinished line over the bound. */
  ghost predicate WithinBound(chunks: seq<Chunk>) {
    forall k :: 0 <= k <= |chunks| ==> |Partial(Concat(chunks[..k]))| <= MAX_LINE
  }

  class Reader {
    var lines: seq<Bytes>
    var rbuf: Bytes
    var dropped: nat

    constructor ()
      ensures View() == Seen([], [], 0)
    {
      lines, rbuf, dropped := [], [], 0;
    }

    function View(): Seen
      reads this
    {
      Seen(lines, rbuf, dropped)
    }

    /** Find the first newline. */
    static method Find(s: Bytes) returns (i: nat)
      requires '\n' in s
      ensures i < |s| && s[i] == '\n' && '\n' !in s[..i]
    {
      i := 0;
      while s[i] != '\n'
        invariant i < |s| && '\n' !in s[..i]
        invariant '\n' in s[i..]
        decreases |s| - i
      {
        i := i + 1;
      }
    }

    method OnClientReadable(chunk: Chunk)
      modifies this
      ensures View() == Take(old(View()), chunk)
    {
      rbuf := rbuf + chunk;
      if '\n' !in rbuf && |rbuf| > MAX_LINE {
        rbuf := [];
        dropped := dropped + 1;
        return;
      }
      ghost var before, buf := lines, rbuf;
      while '\n' in rbuf
        invariant lines + Lines(rbuf) == before + Lines(buf) && Partial(rbuf) == Partial(buf)
        invariant dropped == old(dropped)
        decreases |rbuf|
      {
        var i := Find(rbuf);
        FirstLine(rbuf, i);
        lines := lines + [rbuf[..i]];
        rbuf := rbuf[i + 1..];
      }
      NoNewlineNoLines(rbuf);
    }
  }

  // ----- When it is right -----------------------------------------------------------

  ghost predicate Exact(chunks: seq<Chunk>) {
    TakeAll(chunks) == Seen(Lines(Concat(chunks)), Partial(Concat(chunks)), 0)
  }

  /** A reader that has thrown bytes away: it is short of the stream, now or in a line already handled. */
  ghost predicate Behind(r: Seen, lines: seq<Bytes>, rest: Bytes) {
    && |r.lines| == |lines|
    && (|r.rbuf| < |rest| || exists i :: 0 <= i < |lines| && r.lines[i] != lines[i])
  }

  lemma {:induction false} Counts(s: Bytes, t: Bytes, chunk: Bytes)
    requires '\n' !in s && '\n' !in t
    ensures |Lines(s + chunk)| == |Lines(t + chunk)|
    ensures '\n' in chunk ==> Partial(s + chunk) == Partial(t + chunk)
    ensures '\n' in chunk ==> Lines(s + chunk) != [] && Lines(t + chunk) != []
    ensures '\n' in chunk && |s| < |t| ==> |Lines(s + chunk)[0]| < |Lines(t + chunk)[0]|
    ensures '\n' !in chunk ==> Lines(s + chunk) == Lines(t + chunk) == []
    ensures '\n' !in chunk ==> Partial(s + chunk) == s + chunk && Partial(t + chunk) == t + chunk
  {
    NoNewlineNoLines(s + chunk);
    NoNewlineNoLines(t + chunk);
    if '\n' in chunk {
      var i := First(chunk);
      var u, v := s + chunk, t + chunk;
      assert u[..|s| + i] == s + chunk[..i] && v[..|t| + i] == t + chunk[..i];
      FirstLine(u, |s| + i);
      FirstLine(v, |t| + i);
      assert u[|s| + i + 1..] == chunk[i + 1..] == v[|t| + i + 1..];
    }
  }

  lemma First(s: Bytes) returns (i: nat)
    requires '\n' in s
    ensures i < |s| && s[i] == '\n' && '\n' !in s[..i]
  {
    i := 0;
    while s[i] != '\n'
      invariant i < |s| && '\n' !in s[..i] && '\n' in s[i..]
      decreases |s| - i
    {
      i := i + 1;
    }
  }

  lemma BehindStays(r: Seen, lines: seq<Bytes>, rest: Bytes, chunk: Chunk)
    requires Behind(r, lines, rest) && '\n' !in r.rbuf && '\n' !in rest
    ensures Behind(Take(r, chunk), lines + Lines(rest + chunk), Partial(rest + chunk))
  {
    Counts(r.rbuf, rest, chunk);
    var v, all := Take(r, chunk), lines + Lines(rest + chunk);
    NoNewlineNoLines(r.rbuf + chunk);
    assert |v.lines| == |all|;
    if i :| 0 <= i < |lines| && r.lines[i] != lines[i] {
      assert v.lines[i] != all[i];
    } else if '\n' in chunk {
      assert v.lines[|lines|] != all[|lines|];
    }
  }

  /** One more chunk after a history read exactly: still exact, or over the bound and now behind. */
  lemma TakeFromExact(s: Bytes, chunk: Chunk)
    ensures var r := Take(Seen(Lines(s), Partial(s), 0), chunk); var t := s + chunk;
      if |Partial(t)| <= MAX_LINE then r == Seen(Lines(t), Partial(t), 0) else Behind(r, Lines(t), Partial(t))
  {
    SplitConcat(s, chunk);
    SplitThenJoin(s);
    NoNewlineNoLines(Partial(s) + chunk);
    Counts(Partial(s), [], chunk);
    PartialIsShort([] + chunk);
  }

  lemma {:induction false} PartialIsShort(s: Bytes)
    ensures |Partial(s)| <= |s|
  {
    if s != [] {
      PartialIsShort(s[..|s| - 1]);
    }
  }

  /** Right up to the first boundary over the bound, and behind from there on. */
  lemma {:induction false} RightOrBehind(chunks: seq<Chunk>)
    ensures var r := TakeAll(chunks); var s := Concat(chunks);
      && '\n' !in r.rbuf
      && if WithinBound(chunks) then Exact(chunks) else Behind(r, Lines(s), Partial(s))
  {
    if chunks == [] {
      assert chunks[..0] == [];
    } else {
      var n := |chunks| - 1;
      var before, chunk := chunks[..n], chunks[n];
      RightOrBehind(before);
      BoundSnoc(chunks);
      var r, s := TakeAll(before), Concat(before);
      SplitThenJoin(r.rbuf + chunk);
      if WithinBound(before) {
        TakeFromExact(s, chunk);
      } else {
        SplitConcat(s, chunk);
        SplitThenJoin(s);
        BehindStays(r, Lines(s), Partial(s), chunk);
      }
    }
  }

  lemma BoundSnoc(chunks: seq<Chunk>)
    requires chunks != []
    ensures WithinBound(chunks) <==> WithinBound(chunks[..|chunks| - 1]) && |Partial(Concat(chunks))| <= MAX_LINE
  {
    var n := |chunks| - 1;
    var before := chunks[..n];
    forall k | 0 <= k <= n ensures chunks[..k] == before[..k] {}
    assert chunks[..n + 1] == chunks;
  }

  /**
   The Python reader handles exactly the newline split of the whole stream, and keeps
   exactly its unfinished last line, if and only if no chunk boundary falls where the
   unfinished line is over the bound.
   */
  lemma ChunkIndependentExactlyWithinBound(chunks: seq<Chunk>)
    ensures TakeAll(chunks) == Seen(Lines(Concat(chunks)), Partial(Concat(chunks)), 0)
      <==> forall k :: 0 <= k <= |chunks| ==> |Partial(Concat(chunks[..k]))| <= 8192
  {
    RightOrBehind(chunks);
    assert WithinBound(chunks) <==> forall k :: 0 <= k <= |chunks| ==> |Partial(Concat(chunks[..k]))| <= 8192;
  }

  /** In particular when every line, the unfinished one included, is within the bound. */
  lemma ShortLinesAreChunkIndependent(chunks: seq<Chunk>)
    requires var s := Concat(chunks);
      |Partial(s)| <= 8192 && forall l :: l in Lines(s) ==> |l| <= 8192
    ensures TakeAll(chunks) == Seen(Lines(Concat(chunks)), Partial(Concat(chunks)), 0)
  {
    forall k | 0 <= k <= |chunks| ensures |Partial(Concat(chunks[..k]))| <= MAX_LINE {
      UnfinishedGrows(chunks, k);
    }
    ChunkIndependentExactlyWithinBound(chunks);
  }

  /** Whatever a chunk brings, an unfinished line goes on in the line it completes, or stays in the unfinished one. */
  lemma PartialGoesOn(rest: Bytes, chunk: Bytes)
    requires '\n' !in rest
    ensures '\n' in chunk ==> Lines(rest + chunk) != [] && |rest| <= |Lines(rest + chunk)[0]|
    ensures '\n' !in chunk ==> |rest| <= |Partial(rest + chunk)|
  {
    if '\n' in chunk {
      var i := First(chunk);
      var u := rest + chunk;
      assert u[..|rest| + i] == rest + chunk[..i];
      FirstLine(u, |rest| + i);
    } else {
      NoNewlineNoLines(rest + chunk);
    }
  }

  /** Some line of the stream, the unfinished one included, is at least this long. */
  ghost predicate Reaches(n: nat, s: Bytes) {
    n <= |Partial(s)| || exists l :: l in Lines(s) && n <= |l|
  }

  lemma ReachesOn(n: nat, s: Bytes, chunk: Bytes)
    requires Reaches(n, s)
    ensures Reaches(n, s + chunk)
  {
    SplitConcat(s, chunk);
    SplitThenJoin(s);
    PartialGoesOn(Partial(s), chunk);
    if n <= |Partial(s)| {
      if '\n' in chunk {
        assert Lines(Partial(s) + chunk)[0] in Lines(s + chunk);
      }
    } else {
      var l :| l in Lines(s) && n <= |l|;
      assert l in Lines(s + chunk);
    }
  }

  /** An unfinished line at a boundary is part of a later line, or of what is unfinished at the end. */
  lemma {:induction false} UnfinishedGrows(chunks: seq<Chunk>, k: nat)
    requires k <= |chunks|
    ensures Reaches(|Partial(Concat(chunks[..k]))|, Concat(chunks))
  {
    if k == |chunks| {
      assert chunks[..k] == chunks;
    } else {
      var n := |chunks| - 1;
      UnfinishedGrows(chunks[..n], k);
      assert chunks[..n][..k] == chunks[..k];
      ReachesOn(|Partial(Concat(chunks[..k]))|, Concat(chunks[..n]), chunks[n]);
    }
  }
}
