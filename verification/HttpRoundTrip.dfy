/**
  Writing a payload and reading it back: whatever the sizes of the pieces it is written in, and
  whatever the sizes of the pieces in which the bytes arrive and are taken out, the same body and the
  same trailer lines come out.
 */
module HttpRoundTrip {
  import opened HttpScan
  import opened HttpPayload
  import opened Numbers

  // ---------------------------------------------------------------- beginnings of a well-formed stream

  /** `b` has parsed at least as much as `a`. */
  ghost predicate Further(a: Scan, b: Scan) {
    a.body <= b.body && a.trailers <= b.trailers && (a.mode == Done ==> b.mode == Done)
  }

  lemma ByteKeeps(kind: Kind, a: Scan, c: char)
    ensures Further(a, Feed(kind, a, c))
  {
  }

  lemma FurtherOn(a: Scan, b: Scan, c: Scan)
    requires Further(a, b) && Further(b, c)
    ensures Further(a, c)
  {
  }

  lemma {:induction false} FeedKeeps(kind: Kind, a: Scan, s: string)
    ensures Further(a, FeedAll(kind, a, s))
    decreases |s|
  {
    if s != "" {
      hide Feed, Further;
      var b := Feed(kind, a, s[0]);
      ByteKeeps(kind, a, s[0]);
      FeedKeeps(kind, b, s[1..]);
      FurtherOn(a, b, FeedAll(kind, b, s[1..]));
    }
  }

  /** What the parser has seen of a stream: no error and no long line. */
  lemma {:induction false} Beginning(ps: seq<string>, hs: seq<Header>, used: string)
    requires Writable(ps, hs) && used <= Stream(ps, hs)
    ensures var b := FeedAll(Chunked, START, used); b.mode != Failed && b.longest <= MAX_LINE
  {
    hide FeedAll, Stream, Concat, Writable;
    var w := Stream(ps, hs);
    assert w == used + w[|used|..];
    CodingRoundTrips(ps, hs);
    FeedSplit(Chunked, START, used, w[|used|..]);
    LongestGrows(Chunked, FeedAll(Chunked, START, used), w[|used|..]);
  }

  /** The end is recognized at the end and not before. */
  lemma {:induction false} DoneAtTheEnd(ps: seq<string>, hs: seq<Header>, used: string)
    requires Writable(ps, hs) && used <= Stream(ps, hs)
    ensures FeedAll(Chunked, START, used).mode == Done <==> used == Stream(ps, hs)
  {
    hide FeedAll, Frames, Concat, HeaderLines, Writable;
    CodingRoundTrips(ps, hs);
    if FeedAll(Chunked, START, used).mode == Done && used != Stream(ps, hs) {
      var w := Frames(ps) + LAST + HeaderLines(hs) + "\r";
      assert w + "\n" == Stream(ps, hs);
      assert used <= w;
      assert w == used + w[|used|..];
      FeedSplit(Chunked, START, used, w[|used|..]);
      FeedKeeps(Chunked, FeedAll(Chunked, START, used), w[|used|..]);
      BeforeTheEnd(ps, hs);
    }
  }

  lemma {:induction false} BeforeTheEnd(ps: seq<string>, hs: seq<Header>)
    requires Writable(ps, hs)
    ensures FeedAll(Chunked, START, Frames(ps) + LAST + HeaderLines(hs) + "\r").mode == InTrailer("\r")
  {
    hide FeedAll, Frames, Concat, HeaderLines, Writable;
    LastLine(ps, hs);
    var w := Frames(ps) + LAST + HeaderLines(hs);
    FeedSplit(Chunked, START, w, "\r");
    FeedOne(Chunked, FeedAll(Chunked, START, w), '\r');
  }

  /** A lone byte after a chunk is never the last. */
  lemma {:induction false} NotAtCr(ps: seq<string>, hs: seq<Header>, used: string, c: char)
    requires Writable(ps, hs) && used + [c] == Stream(ps, hs)
    ensures FeedAll(Chunked, START, used).mode != AtCr
  {
    hide FeedAll, Stream, Writable;
    DoneAtTheEnd(ps, hs, used + [c]);
    FeedSplit(Chunked, START, used, [c]);
    FeedOne(Chunked, FeedAll(Chunked, START, used), c);
  }

  // ---------------------------------------------------------------- writing

  /** What has been written of a complete payload: chunks `ps` and trailer lines `hs`. */
  ghost predicate SoFar(p: Payload, hs0: seq<Header>, hs: seq<Header>, out: string, ps: seq<string>) {
    && p.state == Completed && hs0 == hs + p.trailer
    && (if p.writtenZero then p.chunks == [] else hs == [] && !p.writtenTrailer) &&
       (p.writtenTrailer ==> p.trailer == [])
    && out == Frames(ps) + (if p.writtenZero then LAST else "") + HeaderLines(hs) + (if p.writtenTrailer then "\r\n"
       else "")
  }

  /**
    Writes a complete payload, each time at most some positive number of bytes, until all is written. While
    trailer lines are waiting, the number asked for is not that of the body bytes left.
   */
  method WriteAll(b: Body) returns (out: string, ghost ps: seq<string>)
    requires b.Valid() && b.p.state == Completed && !b.p.writtenZero && !b.p.writtenTrailer && AllNamed(b.p.trailer)
    modifies b
    ensures b.Valid() && b.Written() && Sendable(ps) && Concat(ps) == old(Stored(b.p.chunks, b.p.free))
    ensures out == Stream(ps, old(b.p.trailer)) && b.h.taken == old(b.h.taken) + Concat(ps) && b.h.body == old(b.h.body)
  {
    hide Stored, Frames, Concat, PayloadOk, HeaderLines, TrailerPart, AllNamed, SoFar, Sizes;
    out, ps := "", [];
    ghost var hs: seq<Header> := [];
    ghost var stored := Stored(b.p.chunks, b.p.free);
    WriteStarts(b.p, stored, b.h.taken);
    while !b.Written()
      invariant b.Valid() && Sendable(ps) && SoFar(b.p, old(b.p.trailer), hs, out, ps) && AllNamed(b.p.trailer)
      invariant stored == Concat(ps) + Stored(b.p.chunks, b.p.free)
      invariant b.h.taken == old(b.h.taken) + Concat(ps) && b.h.body == old(b.h.body)
      decreases |Stored(b.p.chunks, b.p.free)| + |b.p.trailer|, !b.p.writtenTrailer
    {
      NotDone(b.p, b.h, old(b.p.trailer), hs, out, ps);
      var n := b.p.ready - Sizes(b.p.trailer);
      var max: nat := *;
      if max == 0 || (b.p.trailer != [] && max == n) {
        max := n + 1;
      }
      ghost var p0, h0 := b.p, b.h;
      var more;
      ghost var qs;
      more, qs := b.StoreHttp(max);
      Joined(ps, qs, Stored(b.p.chunks, b.p.free), old(b.h.taken));
      if EndsNow(p0, max) {
        WroteEnd(p0, h0, b.p, max, old(b.p.trailer), hs, out, ps, qs, more);
        hs := hs + TrailerPart(p0.trailer, max - |Concat(qs)|, true).lines;
      } else {
        WroteData(p0, h0, b.p, b.h, max, old(b.p.trailer), hs, out, ps, qs, more);
      }
      out := out + more;
      ps := ps + qs;
    }
    WriteEnds(b.p, b.h, old(b.p.trailer), hs, out, ps);
  }

  lemma WriteStarts(p: Payload, stored: string, taken: string)
    requires p.state == Completed && !p.writtenZero && !p.writtenTrailer
    ensures SoFar(p, p.trailer, [], "", []) && Concat([]) + stored == stored
    ensures taken + Concat([]) == taken && Sendable([])
  {
    assert [] + p.trailer == p.trailer && "" + stored == stored && taken + "" == taken;
  }

  lemma NotDone(p: Payload, h: History, hs0: seq<Header>, hs: seq<Header>, out: string, ps: seq<string>)
    requires PayloadOk(p, h) && SoFar(p, hs0, hs, out, ps)
    requires !(p.ready == 0 && p.state == Completed && p.writtenZero && p.writtenTrailer)
    ensures p.ready - Sizes(p.trailer) == |Stored(p.chunks, p.free)|
    ensures p.state == Completed && !p.writtenTrailer && (p.writtenZero ==> Stored(p.chunks, p.free) == "")
  {
    hide Frames, HeaderLines;
  }

  lemma WriteEnds(p: Payload, h: History, hs0: seq<Header>, hs: seq<Header>, out: string, ps: seq<string>)
    requires PayloadOk(p, h) && SoFar(p, hs0, hs, out, ps) && p.ready == 0 && p.writtenZero && p.writtenTrailer
    ensures Stored(p.chunks, p.free) == "" && out == Stream(ps, hs0) && Concat(ps) + "" == Concat(ps)
  {
    hide Stored, Frames, HeaderLines, Concat;
    assert hs + [] == hs;
  }

  /** A step that leaves buffers writes body bytes. */
  lemma WroteData(p0: Payload, h0: History, p: Payload, h: History, max: nat, hs0: seq<Header>, hs: seq<Header>,
                  out: string, ps: seq<string>,
                  qs: seq<string>, more: string)
    requires PayloadOk(p0, h0) && SoFar(p0, hs0, hs, out, ps) && !EndsNow(p0, max) && max > 0
    requires more == Frames(qs) && p == p0.(chunks := p.chunks, free := p.free, ready := p.ready)
    requires Frames(ps + qs) == Frames(ps) + Frames(qs)
    requires Stored(p0.chunks, p0.free) == Concat(qs) + Stored(p.chunks, p.free)
    requires |Concat(qs)| == Min(max, |Stored(p0.chunks, p0.free)|)
    ensures SoFar(p, hs0, hs, out + more, ps + qs) && |Stored(p.chunks, p.free)| < |Stored(p0.chunks, p0.free)|
  {
    hide Stored, Frames, HeaderLines, Concat;
    LeftOver(p0, h0);
    NoLines();
    assert forall s: string :: s + "" == s;
  }

  /** Buffers that keep nothing from being ended hold something. */
  lemma LeftOver(p: Payload, h: History)
    requires PayloadOk(p, h) && p.state == Completed
    ensures Stored(p.chunks, p.free) == "" ==> FreeLeft(p) == 0
    ensures p.chunks == [] ==> FreeLeft(p) == 0 && Stored(p.chunks, p.free) == ""
  {
    if |p.chunks| > 1 {
      FrontFacts(p.chunks, p.free);
    }
  }

  /** A step that leaves no buffer writes the last chunk, trailer lines, and the end if it is due. */
  lemma WroteEnd(p0: Payload, h0: History, p: Payload, max: nat, hs0: seq<Header>, hs: seq<Header>, out: string,
                 ps: seq<string>,
                 qs: seq<string>, more: string)
    requires PayloadOk(p0, h0) && SoFar(p0, hs0, hs, out, ps) && !p0.writtenTrailer
    requires AllNamed(p0.trailer) && Sendable(qs)
    requires max - |Concat(qs)| > 0 || (max == |Concat(qs)| && p0.trailer == [])
    requires p0.writtenZero ==> Concat(qs) == ""
    requires Frames(ps + qs) == Frames(ps) + Frames(qs) && p.state == Completed
    requires var r := TrailerPart(p0.trailer, max - |Concat(qs)|, true);
             && more == Frames(qs) + (if p0.writtenZero then "" else LAST) + HeaderLines(r.lines) + (if r.ended
                then "\r\n" else "")
             && p.trailer == r.rest && p.writtenZero && p.writtenTrailer == r.ended && p.chunks == []
    ensures var r := TrailerPart(p0.trailer, max - |Concat(qs)|, true);
            && SoFar(p, hs0, hs + r.lines, out + more, ps + qs) && AllNamed(p.trailer)
            && (if p0.trailer == [] then p.writtenTrailer && p.trailer == [] else |p.trailer| < |p0.trailer|)
  {
    hide Stored, Frames, HeaderLines, TrailerPart, Concat;
    var r := TrailerPart(p0.trailer, max - |Concat(qs)|, true);
    EndIsLastIff(p0.trailer, max - |Concat(qs)|, true);
    LinesInOrder(p0.trailer, max - |Concat(qs)|, true);
    LinesJoin(hs, r.lines);
    NoLines();
    if p0.writtenZero {
      NoChunksWritten(qs);
    }
    Pieces(Frames(ps), Frames(qs), HeaderLines(hs), HeaderLines(r.lines), if r.ended then "\r\n" else "",
           p0.writtenZero);
    assert hs + (r.lines + r.rest) == hs + r.lines + r.rest;
    assert forall x | x in r.rest :: x in p0.trailer;
    EndedAlone(p0.trailer, max - |Concat(qs)|);
  }

  lemma EndedAlone(hs: seq<Header>, left: nat)
    ensures hs == [] ==> TrailerPart(hs, left, true).ended && TrailerPart(hs, left, true).rest == []
  {
  }

  lemma NoChunksWritten(qs: seq<string>)
    requires Sendable(qs)
    ensures qs == [] <==> Concat(qs) == ""
    ensures qs == [] ==> Frames(qs) == ""
  {
    if qs != [] {
      assert qs[|qs| - 1] in qs;
    }
  }

  lemma Pieces(f: string, g: string, l: string, m: string, e: string, zero: bool)
    ensures zero && g == "" ==> (f + LAST + l + "") + (g + "" + m + e) == (f + g) + LAST + (l + m) + e
    ensures !zero && l == "" ==> (f + "" + l + "") + (g + LAST + m + e) == (f + g) + LAST + (l + m) + e
  {
  }

  lemma {:induction false} LinesJoin(hs: seq<Header>, ms: seq<Header>)
    ensures HeaderLines(hs + ms) == HeaderLines(hs) + HeaderLines(ms)
    decreases |ms|
  {
    hide HeaderLine, HeaderLines;
    if ms == [] {
      NoLines();
      assert hs + ms == hs && HeaderLines(hs) + "" == HeaderLines(hs);
    } else {
      var front, last := ms[..|ms| - 1], ms[|ms| - 1];
      LinesJoin(hs, front);
      assert hs + ms == (hs + front) + [last] && ms == front + [last];
      LinesNext(hs + front, last);
      LinesNext(front, last);
      assert HeaderLines(hs) + (HeaderLines(front) + HeaderLine(last))
          == HeaderLines(hs) + HeaderLines(front) + HeaderLine(last);
    }
  }

  lemma {:induction false} FramesJoin(ps: seq<string>, qs: seq<string>)
    ensures Frames(ps + qs) == Frames(ps) + Frames(qs)
    decreases |qs|
  {
    hide Frame, Frames;
    if qs == [] {
      NoFrames();
      assert ps + qs == ps && Frames(ps) + "" == Frames(ps);
    } else {
      var n := |qs| - 1;
      var front, last := qs[..n], qs[n];
      FramesJoin(ps, front);
      assert ps + qs == (ps + front) + [last] && qs == front + [last];
      FramesNext(ps + front, last);
      FramesNext(front, last);
      assert Frames(ps) + (Frames(front) + Frame(last)) == Frames(ps) + Frames(front) + Frame(last);
    }
  }

  lemma Joined(ps: seq<string>, qs: seq<string>, rest: string, taken: string)
    requires Sendable(ps) && Sendable(qs)
    ensures Sendable(ps + qs) && Frames(ps + qs) == Frames(ps) + Frames(qs)
    ensures Concat(ps) + (Concat(qs) + rest) == Concat(ps + qs) + rest
    ensures taken + Concat(ps) + Concat(qs) == taken + Concat(ps + qs)
  {
    hide Frames, Concat;
    FramesJoin(ps, qs);
    ConcatJoin(ps, qs);
    assert Concat(ps) + (Concat(qs) + rest) == Concat(ps) + Concat(qs) + rest;
    assert taken + Concat(ps) + Concat(qs) == taken + (Concat(ps) + Concat(qs));
  }

  // ---------------------------------------------------------------- reading

  /**
    Parse what is there and take body bytes and trailer lines out in between, in portions of any size, until
    the parser waits for more input. However much is waiting, nothing is lost.
   */
  method Pump(b: Body, r: Reader, ghost ps: seq<string>, ghost hs: seq<Header>, ghost used0: string)
    returns (out: string, lines: seq<Header>, ghost used: string)
    requires b.Valid() && r.Valid() && b.kind == Chunked && Writable(ps, hs)
    requires b.Model() == FeedAll(Chunked, START, used0) && used0 + r.Flat() <= Stream(ps, hs)
    modifies b, r
    ensures b.Valid() && r.Valid() && b.h.gone == old(b.h.gone) + lines && b.h.taken == old(b.h.taken) + out
    ensures used + r.Flat() == used0 + old(r.Flat()) && b.Model() == FeedAll(Chunked, START, used)
    ensures b.p.state == Completed || r.Flat() == "" || (b.p.state == ReadingCrlf && |r.Flat()| < 2)
  {
    hide FeedAll, Stored, Stream, Concat, PayloadOk, Writable;
    used, lines := used0, [];
    var some: nat :| true;
    out := b.GetSlice(some);
    ghost var all := used0 + r.Flat();
    while b.p.state != Completed
      invariant b.Valid() && r.Valid() && b.h.gone == old(b.h.gone) + lines && b.h.taken == old(b.h.taken) + out
      invariant used + r.Flat() == all && b.Model() == FeedAll(Chunked, START, used)
      decreases |r.Flat()|, |Stored(b.p.chunks, b.p.free)| + |b.p.trailer|
    {
      ghost var flat, p, h := r.Flat(), b.p, b.h;
      var st;
      ghost var u;
      st, u := b.Parse(r);
      FeedSplit(Chunked, START, used, u);
      UsedMore(used, u, flat, r.Flat(), all);
      Beginning(ps, hs, used + u);
      assert st == Wait;
      used := used + u;
      if b.p.state == Completed || b.p.ready <= b.high {
        return;
      }
      if u == "" {
        Nothing(Chunked, Abs(Chunked, p, h), flat);
        NothingParsed(p, h, b.p, b.h);
      }
      var s, ls := TakeSome(b);
      assert old(b.h.taken) + out + s == old(b.h.taken) + (out + s) &&
        old(b.h.gone) + lines + ls == old(b.h.gone) + (lines + ls);
      out, lines := out + s, lines + ls;
    }
  }

  /** Take something out: a trailer line if there is one, and some of the body. */
  method TakeSome(b: Body) returns (s: string, ls: seq<Header>)
    requires b.Valid() && b.p.ready > 0
    modifies b`p, b`h
    ensures b.Valid() && b.p == old(b.p).(chunks := b.p.chunks, ready := b.p.ready, trailer := b.p.trailer)
    ensures b.h == old(b.h).(taken := old(b.h.taken) + s, gone := old(b.h.gone) + ls)
    ensures |Stored(b.p.chunks, b.p.free)| + |b.p.trailer| < old(|Stored(b.p.chunks, b.p.free)| + |b.p.trailer|)
  {
    hide Stored, PayloadOk;
    SomethingWaits(b.p, b.h);
    ls := [];
    assert b.h.gone + [] == b.h.gone;
    if b.p.trailer != [] {
      var hd := b.GetHeader();
      ls := [hd];
    }
    var max: nat :| max > 0;
    s := b.GetSlice(max);
  }

  /** The bytes of a written payload arrive in pieces of any size; they are parsed and taken out piece by piece. */
  method ReadAll(frags: seq<string>, high: nat, ghost ps: seq<string>, ghost hs: seq<Header>)
    returns (out: string, lines: seq<Header>, b: Body, r: Reader)
    requires Writable(ps, hs) && Concat(frags) == Stream(ps, hs) && (forall f | f in frags :: f != "")
    ensures b.Valid() && b.p.state == Completed && b.p.ready == 0 && r.Flat() == ""
    ensures out == Concat(ps) && lines == hs && b.h.body == b.h.taken == out && b.h.headers == b.h.gone == lines
  {
    hide FeedAll, Stored, Stream, Concat, PayloadOk, Writable;
    b := new Body(Chunked, high);
    r := new Reader();
    out, lines := "", [];
    ghost var used := "";
    ReadStart(frags);
    for i := 0 to |frags|
      invariant fresh(b) && fresh(r) && b.Valid() && r.Valid() && b.kind == Chunked && b.h.taken == out
      invariant b.h.gone == lines
      invariant used + r.Flat() == Concat(frags[..i]) && Concat(frags[..i]) <= Stream(ps, hs)
      invariant b.Model() == FeedAll(Chunked, START, used)
      invariant b.p.state == Completed || r.Flat() == "" || (b.p.state == ReadingCrlf && |r.Flat()| < 2)
    {
      NextPiece(frags, i);
      assert frags[i] in frags;
      ghost var flat := r.Flat();
      r.Append(frags[i]);
      assert used + (flat + frags[i]) == Concat(frags[..i + 1]);
      var more, moreLines;
      more, moreLines, used := Pump(b, r, ps, hs, used);
      out, lines := out + more, lines + moreLines;
    }
    assert frags[..|frags|] == frags;
    Finished(b.p, b.h, ps, hs, used, r.Flat());
    while b.p.ready > 0
      modifies b
      invariant b.Valid() && b.p.state == Completed && b.h.taken == out && b.h.gone == lines
      invariant b.h.body == Concat(ps) && b.h.headers == hs
      decreases |Stored(b.p.chunks, b.p.free)| + |b.p.trailer|
    {
      var s, ls := TakeSome(b);
      out, lines := out + s, lines + ls;
    }
    AllTaken(b.p, b.h);
  }

  /** The round trip: write a complete payload of any size, cut the bytes in any way, read them back. */
  method Transfer(b: Body, cut: string -> seq<string>, high: nat)
    returns (out: string, lines: seq<Header>, c: Body, r: Reader)
    requires b.Valid() && b.p.state == Completed && !b.p.writtenZero && !b.p.writtenTrailer
    requires AllClean(b.p.trailer) && Sizes(b.p.trailer) <= MAX_TRAILER
    requires forall s :: Concat(cut(s)) == s && forall f | f in cut(s) :: f != ""
    modifies b
    ensures b.Written() && b.h.taken == b.h.body
    ensures c.Valid() && c.p.state == Completed && r.Flat() == ""
    ensures out == c.h.body == old(Stored(b.p.chunks, b.p.free)) && lines == c.h.headers == old(b.p.trailer)
  {
    hide Stored, Stream, Concat, Sizes;
    var text;
    ghost var ps;
    text, ps := WriteAll(b);
    NothingLeft(b.p, b.h);
    assert b.h.taken + "" == b.h.taken;
    out, lines, c, r := ReadAll(cut(text), high, ps, old(b.p.trailer));
  }

  lemma NothingLeft(p: Payload, h: History)
    requires PayloadOk(p, h) && p.ready == 0
    ensures Stored(p.chunks, p.free) == ""
  {
  }

  lemma ReadStart(frags: seq<string>)
    ensures Concat(frags[..0]) == "" && FeedAll(Chunked, START, "") == START && Concat([]) == ""
  {
  }

  lemma NextPiece(frags: seq<string>, i: nat)
    requires i < |frags|
    ensures Concat(frags[..i + 1]) == Concat(frags[..i]) + frags[i] && Concat(frags[..i + 1]) <= Concat(frags)
  {
    var head := frags[..i + 1];
    assert head[..|head| - 1] == frags[..i] && head[|head| - 1] == frags[i];
    hide Concat;
    FirstPieces(frags, i + 1);
  }

  lemma FirstPieces(frags: seq<string>, n: nat)
    requires n <= |frags|
    ensures Concat(frags[..n]) <= Concat(frags)
  {
    hide Concat;
    var head, tail := frags[..n], frags[n..];
    ConcatJoin(head, tail);
    assert frags == head + tail;
  }

  lemma NothingParsed(p: Payload, h: History, p': Payload, h': History)
    requires PayloadOk(p, h) && PayloadOk(p', h') && h'.body == h.body && h'.headers == h.headers
    requires h'.taken == h.taken && h'.gone == h.gone
    ensures |Stored(p'.chunks, p'.free)| == |Stored(p.chunks, p.free)| && |p'.trailer| == |p.trailer|
  {
    hide Stored;
    assert |h.taken + Stored(p.chunks, p.free)| == |h.taken + Stored(p'.chunks, p'.free)|;
    assert |h.gone + p.trailer| == |h.gone + p'.trailer|;
  }

  lemma SomethingWaits(p: Payload, h: History)
    requires PayloadOk(p, h) && p.ready > 0
    ensures Stored(p.chunks, p.free) != "" || p.trailer != []
  {
  }

  lemma {:induction false} AllTaken(p: Payload, h: History)
    requires PayloadOk(p, h) && p.ready == 0
    ensures h.taken == h.body && h.gone == h.headers
  {
    hide Stored;
    assert h.taken + "" == h.taken && h.gone + [] == h.gone;
    if p.trailer != [] {
      FirstSize(p.trailer);
    }
  }

  lemma {:induction false} Finished(p: Payload, h: History, ps: seq<string>, hs: seq<Header>, used: string,
                                    flat: string)
    requires PayloadOk(p, h) && Writable(ps, hs) && used + flat == Stream(ps, hs)
    requires Abs(Chunked, p, h) == FeedAll(Chunked, START, used)
    requires p.state == Completed || flat == "" || (p.state == ReadingCrlf && |flat| < 2)
    ensures p.state == Completed && flat == "" && h.body == Concat(ps) && h.headers == hs
  {
    hide FeedAll, Concat, Stream, PayloadOk, Writable;
    DoneAtTheEnd(ps, hs, used);
    if |flat| == 1 {
      assert flat == [flat[0]];
      NotAtCr(ps, hs, used, flat[0]);
    }
    assert used == Stream(ps, hs);
    CodingRoundTrips(ps, hs);
  }

  // ---------------------------------------------------------------- an end that is written too soon

  /**
    Asked for exactly what is stored, a payload whose last buffer is used up is written as a complete one without
    trailer lines, though lines may be waiting and bytes may still come.
   */
  method EndsTooSoon(b: Body, max: nat) returns (out: string, ghost ps: seq<string>)
    requires b.Valid() && !b.p.writtenZero && !b.p.writtenTrailer && FreeLeft(b.p) == 0
    requires max == |Stored(b.p.chunks, b.p.free)|
    modifies b
    ensures b.Valid() && Sendable(ps) && out == Stream(ps, []) && Concat(ps) == old(Stored(b.p.chunks, b.p.free))
    ensures b.p.state == old(b.p.state) && b.p.cur == old(b.p.cur) && b.p.trailer == old(b.p.trailer)
    ensures b.p.writtenTrailer
  {
    hide Stored, Concat, Frames, PayloadOk, Aligned;
    out, ps := b.StoreHttp(max);
    assert HeaderLines([]) == "" && Frames(ps) + LAST + "" == Frames(ps) + LAST;
    WholePiece(Concat(ps), Stored(b.p.chunks, b.p.free), old(Stored(b.p.chunks, b.p.free)));
  }

  lemma WholePiece(a: string, b: string, c: string)
    requires c == a + b && |a| == |c|
    ensures a == c
  {
  }

  /** The parser in the middle of a chunk of `n` bytes, of which `d` have come. */
  lemma {:induction false} MidChunk(d: string, n: nat)
    requires |d| < n < U64
    ensures FeedAll(Chunked, START, Hex(n) + "\r\n" + d) == Scan(InData(n - |d|), d, [], |Hex(n)| + 1)
  {
    hide FeedAll, Hex;
    HeaderDecodes(START, n);
    FeedSplit(Chunked, START, Hex(n) + "\r\n", d);
    FeedData(Chunked, FeedAll(Chunked, START, Hex(n) + "\r\n"), n, d);
  }

  /** Nothing but waiting for more comes of a beginning of it. */
  lemma {:induction false} MidPrefix(d: string, n: nat, used: string)
    requires |d| < n < U64 && used <= Hex(n) + "\r\n" + d
    ensures var a := FeedAll(Chunked, START, used);
            && a.mode != Failed && a.mode != Done && a.longest <= MAX_LINE && a.body <= d && a.trailers == []
            && (|used| + 1 == |Hex(n) + "\r\n" + d| ==> a.mode != AtCr)
  {
    hide FeedAll, Hex;
    var w := Hex(n) + "\r\n" + d;
    var rest := w[|used|..];
    var a := FeedAll(Chunked, START, used);
    assert w == used + rest;
    MidChunk(d, n);
    HexIsShort(n);
    FeedSplit(Chunked, START, used, rest);
    LongestGrows(Chunked, a, rest);
    FeedKeeps(Chunked, a, rest);
    if |rest| == 1 {
      assert rest == [rest[0]];
      FeedOne(Chunked, a, rest[0]);
    }
  }

  /** That comes of parsing: in the middle of a chunk, with the bytes of some full buffers read. */
  method EndsMidChunk(d: string, n: nat) returns (b: Body, out: string, ghost ps: seq<string>)
    requires 0 < |d| < n < U64 && |d| % CHUNK == 0
    ensures b.Valid() && b.p.state == ReadingData && b.p.cur == n - |d|
    ensures Sendable(ps) && Concat(ps) == d && out == Stream(ps, [])
  {
    hide FeedAll, Hex, Concat, Stored, Frames, Sizes, PayloadOk;
    b := new Body(Chunked, |d|);
    var r := new Reader();
    NoFragments();
    r.Append(Hex(n) + "\r\n");
    r.Append(d);
    ghost var w := Hex(n) + "\r\n" + d;
    assert r.Flat() == w;
    var st;
    ghost var used;
    st, used := b.Parse(r);
    MidPrefix(d, n, used);
    MidChunk(d, n);
    ReadSoFar(b.p, b.h, d);
    assert r.Flat() == "" && used == w;
    out, ps := EndsTooSoon(b, |d|);
  }

  lemma NoFragments()
    ensures Concat([]) == ""
  {
  }

  lemma ReadSoFar(p: Payload, h: History, d: string)
    requires PayloadOk(p, h) && h.taken == "" && h.gone == [] && h.body <= d && h.headers == []
    ensures p.ready <= |d| && Stored(p.chunks, p.free) == h.body
  {
    hide Stored;
    assert "" + Stored(p.chunks, p.free) == Stored(p.chunks, p.free) && [] + p.trailer == p.trailer;
  }
}
