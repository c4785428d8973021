/**
  The payload of an HTTP message: a parser that takes bytes as they come, a list of buffers, and a
  writer that takes them out again.
 */
module HttpPayload {
  import opened HttpScan
  import opened Numbers
  import opened Options

  const CHUNK := 16384

  datatype ParseState = ReadingHeader | ReadingData | ReadingTrailer | ReadingCrlf | Completed

  /** The fields of a payload. The last buffer has `free` unused bytes at its end. */
  datatype Payload = Payload(
    state: ParseState,
    tmp: string,
    cur: nat,
    chunks: seq<string>,
    free: nat,
    ready: nat,
    trailer: seq<Header>,
    trailerSize: nat,
    writtenZero: bool,
    writtenTrailer: bool)

  /** What has happened: all body bytes and trailer lines read, the longest line, and what was taken out. */
  datatype History = History(body: string, headers: seq<Header>, longest: nat, taken: string, gone: seq<Header>)

  // ---------------------------------------------------------------- the buffers

  ghost predicate BuffersOk(chunks: seq<string>, free: nat) {
    && (free > 0 ==> chunks != [] && free <= |chunks[|chunks| - 1]|)
    && forall c | c in chunks :: |c| <= CHUNK
  }

  ghost predicate NoEmpty(chunks: seq<string>) {
    forall c | c in chunks :: c != ""
  }

  /** The bytes in the buffers. */
  ghost function Stored(chunks: seq<string>, free: nat): string {
    if chunks == [] || free > |chunks[|chunks| - 1]| then "" else
      var n := |chunks| - 1;
      Concat(chunks[..n]) + chunks[n][..|chunks[n]| - free]
  }

  ghost predicate PayloadOk(p: Payload, h: History) {
    && BuffersOk(p.chunks, p.free) && NoEmpty(p.chunks)
    && h.taken + Stored(p.chunks, p.free) == h.body
    && h.gone + p.trailer == h.headers
    && p.ready == |Stored(p.chunks, p.free)| + Sizes(p.trailer)
    && p.trailerSize == Sizes(h.headers)
  }

  /** While bytes come, all buffers but the last are full: the free bytes fill up a multiple of the buffer size. */
  ghost predicate Aligned(p: Payload, h: History) {
    !Ended(p.state) ==> p.free < CHUNK && (|h.body| + p.free) % CHUNK == 0
  }

  function ModeOf(kind: Kind, p: Payload): Mode {
    match p.state
    case ReadingHeader => InHeader(p.tmp)
    case ReadingData => DataMode(kind, p.cur)
    case ReadingTrailer => InTrailer(p.tmp)
    case ReadingCrlf => AtCr
    case Completed => Done
  }

  ghost function Abs(kind: Kind, p: Payload, h: History): Scan {
    Scan(ModeOf(kind, p), h.body, h.headers, h.longest)
  }

  lemma {:induction false} ConcatJoin(ps: seq<string>, qs: seq<string>)
    ensures Concat(ps + qs) == Concat(ps) + Concat(qs)
    decreases |qs|
  {
    if qs == [] {
      assert ps + qs == ps && Concat(ps) + "" == Concat(ps);
    } else {
      var n := |qs| - 1;
      ConcatJoin(ps, qs[..n]);
      assert (ps + qs)[..|ps| + n] == ps + qs[..n];
      assert Concat(ps) + (Concat(qs[..n]) + qs[n]) == Concat(ps) + Concat(qs[..n]) + qs[n];
    }
  }

  lemma ConcatOne(x: string)
    ensures Concat([x]) == x
  {
    assert [x][..0] == [];
  }

  /** A new buffer does not change what is stored. */
  lemma NewBuffer(chunks: seq<string>, b: string)
    requires BuffersOk(chunks, 0) && 0 < |b| <= CHUNK
    ensures BuffersOk(chunks + [b], |b|) && Stored(chunks + [b], |b|) == Stored(chunks, 0)
    ensures NoEmpty(chunks) ==> NoEmpty(chunks + [b])
  {
    assert (chunks + [b])[..|chunks|] == chunks;
    if chunks != [] {
      var n := |chunks| - 1;
      assert chunks[n][..|chunks[n]|] == chunks[n];
    }
  }

  /** Bytes copied to the free end of the last buffer are appended to what is stored. */
  function Poured(chunks: seq<string>, free: nat, d: string): seq<string>
    requires chunks != [] && |d| <= free <= |chunks[|chunks| - 1]|
  {
    var n := |chunks| - 1;
    var at := |chunks[n]| - free;
    chunks[n := chunks[n][..at] + d + chunks[n][at + |d|..]]
  }

  lemma PouredStored(chunks: seq<string>, free: nat, d: string)
    requires BuffersOk(chunks, free) && |d| <= free && free > 0
    ensures BuffersOk(Poured(chunks, free, d), free - |d|)
    ensures Stored(Poured(chunks, free, d), free - |d|) == Stored(chunks, free) + d
    ensures NoEmpty(chunks) ==> NoEmpty(Poured(chunks, free, d))
  {
    var n := |chunks| - 1;
    var at := |chunks[n]| - free;
    var c' := chunks[n][..at] + d + chunks[n][at + |d|..];
    var chunks' := Poured(chunks, free, d);
    assert chunks[n] in chunks;
    assert forall c | c in chunks' :: c == c' || c in chunks;
    assert chunks'[..n] == chunks[..n];
    assert c'[..at + |d|] == chunks[n][..at] + d;
    assert Concat(chunks[..n]) + (chunks[n][..at] + d) == Concat(chunks[..n]) + chunks[n][..at] + d;
  }

  // ---------------------------------------------------------------- the input

  class Reader {
    var frags: seq<string>

    ghost predicate Valid()
      reads this
    {
      forall f | f in frags :: f != ""
    }

    ghost function Flat(): string
      reads this
    {
      Concat(frags)
    }

    constructor ()
      ensures Valid() && frags == []
    {
      frags := [];
    }

    /** More bytes arrive. */
    method Append(f: string)
      requires Valid() && f != ""
      modifies this
      ensures Valid() && Flat() == old(Flat()) + f
    {
      ConcatJoin(frags, [f]);
      ConcatOne(f);
      frags := frags + [f];
    }

    /** The number of bytes available. */
    method Size() returns (n: nat)
      ensures n == |Flat()|
    {
      n := 0;
      for i := 0 to |frags|
        invariant n == |Concat(frags[..i])|
      {
        assert frags[..i + 1][..i] == frags[..i];
        n := n + |frags[i]|;
      }
      assert frags[..|frags|] == frags;
    }

    /** Drop `n` bytes of the first fragment. */
    method ConfirmRead(n: nat)
      requires Valid() && frags != [] && 0 < n <= |frags[0]|
      modifies this
      ensures Valid() && old(Flat()) == old(frags[0])[..n] + Flat()
      ensures n == |old(frags[0])| ==> frags == old(frags)[1..]
    {
      var f := frags[0];
      assert frags == [f] + frags[1..];
      assert forall g | g in frags[1..] :: g in frags;
      ConcatJoin([f], frags[1..]);
      ConcatOne(f);
      if n == |f| {
        frags := frags[1..];
        assert f[..n] == f;
      } else {
        frags := [f[n..]] + frags[1..];
        ConcatJoin([f[n..]], old(frags)[1..]);
        ConcatOne(f[n..]);
        assert f == f[..n] + f[n..];
        assert f[..n] + (f[n..] + Concat(old(frags)[1..])) == f + Concat(old(frags)[1..]);
      }
    }

    /** Take exactly `n` bytes. */
    method Advance(n: nat) returns (d: string)
      requires Valid() && n <= |Flat()|
      modifies this
      ensures Valid() && |d| == n && old(Flat()) == d + Flat()
    {
      d := "";
      while |d| < n
        invariant Valid() && |d| <= n <= |d| + |Flat()| && old(Flat()) == d + Flat()
        decreases n - |d|
      {
        assert frags != [] && frags[0] in frags;
        var f := frags[0];
        var m := if |f| > n - |d| then n - |d| else |f|;
        ghost var flat := Flat();
        ConfirmRead(m);
        assert d + flat == (d + f[..m]) + Flat();
        d := d + f[..m];
      }
    }
  }

  // ---------------------------------------------------------------- lines

  datatype LineResult = Line(l: string) | More | TooLong

  /** Stripping a line whose last piece is `t`. */
  lemma StrippedTail(s: string, t: string)
    ensures t != "" ==> Stripped(s + t) == if t[|t| - 1] == '\r' then s + t[..|t| - 1] else s + t
    ensures t == "" ==> s + t == s
  {
    if t != "" {
      assert (s + t)[..|s + t| - 1] == s + t[..|t| - 1];
    }
  }

  /** The line is the same whether its carriage return is in this piece or an earlier one. */
  lemma LineOf(rest: string, s: string, f: nat)
    requires f < |s|
    ensures Stripped(rest + s[..f]) == if f == 0 then Cut(rest) else if s[f - 1] == '\r' then rest + s[..f - 1]
              else rest + s[..f]
  {
    var head := s[..f];
    StrippedTail(rest, head);
    if f > 0 {
      assert head[|head| - 1] == s[f - 1] && head[..f - 1] == s[..f - 1];
    } else {
      assert rest + head == rest;
    }
  }

  /**
    Read a line that may come in several pieces. `x` are the bytes of the line that were read now; the
    carriage return and the line feed may well be in different pieces.
   */
  method GetLine(r: Reader, line: string) returns (res: LineResult, rest: string, ghost x: string, ghost n: nat)
    requires r.Valid() && |line| <= 16384
    modifies r
    ensures r.Valid() && '\n' !in x
    ensures res.Line? ==> old(r.Flat()) == x + "\n" + r.Flat() && res.l == Stripped(line + x) && rest == ""
    ensures res.More? ==> old(r.Flat()) == x && r.Flat() == "" && rest == line + x
    ensures res.TooLong? ==> x != "" && x <= old(r.Flat()) && |line| + |x| > 16384
    ensures |rest| <= 16384 && n <= |old(r.frags)| && forall i | 0 <= i < n :: '\n' !in old(r.frags)[i]
    ensures |line| + |Concat(old(r.frags)[..n])| <= 16384 && (res.More? <==> n == |old(r.frags)|)
    ensures res.Line? ==> '\n' in old(r.frags)[n]
    ensures res.TooLong? ==> '\n' !in old(r.frags)[n] && x == Concat(old(r.frags)[..n]) + old(r.frags)[n]
  {
    hide Stripped, Concat, Cut;
    rest, x, n := line, "", 0;
    NoFragments(r.frags[..0]);
    while r.frags != []
      invariant r.Valid() && '\n' !in x && rest == line + x && old(r.Flat()) == x + r.Flat()
      invariant n <= |old(r.frags)| && r.frags == old(r.frags)[n..] && x == Concat(old(r.frags)[..n])
      invariant |rest| <= 16384 && forall i | 0 <= i < n :: '\n' !in old(r.frags)[i]
      decreases |r.Flat()|
    {
      var s := r.frags[0];
      assert s in r.frags;
      var f := Find(s, '\n');
      ghost var flat := r.Flat();
      if f == |s| {
        if |rest| + |s| > MAX_LINE {
          FirstFragment(r.frags);
          Swallow(line, x, s, old(r.Flat()), flat, flat[|s|..]);
          x := x + s;
          return TooLong, rest, x, n;
        }
        r.ConfirmRead(|s|);
        assert s[..|s|] == s;
        Swallow(line, x, s, old(r.Flat()), flat, r.Flat());
        ConcatNext(old(r.frags), n);
        rest, x, n := rest + s, x + s, n + 1;
        continue;
      }
      LineOf(rest, s, f);
      var l: string;
      if f > 0 {
        l := if s[f - 1] == '\r' then rest + s[..f - 1] else rest + s[..f];
      } else {
        l := Cut(rest);
      }
      r.ConfirmRead(f + 1);
      LineEnds(line, x, s, f, old(r.Flat()), flat, r.Flat());
      x := x + s[..f];
      return Line(l), "", x, n;
    }
    NoFragments(r.frags);
    assert x + "" == x;
    return More, rest, x, n;
  }

  lemma Swallow(line: string, x: string, s: string, all: string, flat: string, flat': string)
    requires all == x + flat && flat == s + flat' && '\n' !in x && '\n' !in s
    ensures all == (x + s) + flat' && '\n' !in x + s && line + x + s == line + (x + s) && x + s <= all
  {
    assert x + (s + flat') == (x + s) + flat';
  }

  lemma LineEnds(line: string, x: string, s: string, f: nat, all: string, flat: string, flat': string)
    requires f < |s| && s[f] == '\n' && '\n' !in x && (forall j | 0 <= j < f :: s[j] != '\n')
    requires all == x + flat && flat == s[..f + 1] + flat'
    ensures all == (x + s[..f]) + "\n" + flat' && '\n' !in x + s[..f] && line + x + s[..f] == line + (x + s[..f])
  {
    assert s[..f + 1] == s[..f] + "\n";
    assert x + (s[..f] + "\n" + flat') == (x + s[..f]) + "\n" + flat';
  }

  lemma ConcatNext(ps: seq<string>, n: nat)
    requires n < |ps|
    ensures Concat(ps[..n + 1]) == Concat(ps[..n]) + ps[n]
  {
    assert ps[..n + 1][..n] == ps[..n];
  }

  lemma NoFragments(frags: seq<string>)
    requires frags == []
    ensures Concat(frags) == ""
  {
  }

  function Cut(line: string): (l: string)
    ensures l == Stripped(line)
  {
    if |line| > 0 && line[|line| - 1] == '\r' then line[..|line| - 1] else line
  }

  lemma FirstFragment(frags: seq<string>)
    requires frags != []
    ensures frags[0] <= Concat(frags)
  {
    assert frags == [frags[0]] + frags[1..];
    ConcatJoin([frags[0]], frags[1..]);
    ConcatOne(frags[0]);
  }

  // ---------------------------------------------------------------- the steps of the parser, on values

  function Zeros(n: nat): (b: string)
    ensures |b| == n
  {
    if n == 0 then "" else Zeros(n - 1) + "0"
  }

  /** Room for at least one more byte. */
  function WithRoom(p: Payload): Payload {
    if p.free == 0 then p.(chunks := p.chunks + [Zeros(CHUNK)], free := CHUNK) else p
  }

  lemma WithRoomOk(p: Payload, h: History)
    requires PayloadOk(p, h)
    ensures PayloadOk(WithRoom(p), h) && 0 < WithRoom(p).free && WithRoom(p).chunks != []
    ensures WithRoom(p).free <= |WithRoom(p).chunks[|WithRoom(p).chunks| - 1]|
  {
    if p.free == 0 {
      NewBuffer(p.chunks, Zeros(CHUNK));
    }
  }

  /** The payload after `d` was read into it. */
  function Filled(p: Payload, d: string): Payload
    requires p.chunks != [] && |d| <= p.free <= |p.chunks[|p.chunks| - 1]| && |d| <= p.cur
  {
    p.(chunks := Poured(p.chunks, p.free, d), free := p.free - |d|, cur := p.cur - |d|, ready := p.ready + |d|)
  }

  lemma FilledOk(kind: Kind, p: Payload, h: History, d: string)
    requires PayloadOk(p, h) && p.free > 0 && |d| <= p.free && |d| <= p.cur && p.state == ReadingData
    ensures PayloadOk(Filled(p, d), h.(body := h.body + d))
    ensures Abs(kind, Filled(p, d), h.(body := h.body + d)) == FeedAll(kind, Abs(kind, p, h), d)
  {
    hide Stored, BuffersOk, Poured, FeedAll;
    assert p.chunks != [] && p.free <= |p.chunks[|p.chunks| - 1]| by { Room(p, h); }
    PouredStored(p.chunks, p.free, d);
    assert h.taken + (Stored(p.chunks, p.free) + d) == h.taken + Stored(p.chunks, p.free) + d;
    FeedData(kind, Abs(kind, p, h), p.cur, d);
  }

  lemma FilledAligned(p: Payload, h: History, d: string)
    requires PayloadOk(p, h) && Aligned(p, h) && p.state == ReadingData && 0 < |d| <= WithRoom(p).free && |d| <= p.cur
    ensures WithRoom(p).chunks != [] && WithRoom(p).free <= |WithRoom(p).chunks[|WithRoom(p).chunks| - 1]|
    ensures Aligned(Filled(WithRoom(p), d), h.(body := h.body + d))
  {
    hide PayloadOk;
    WithRoomOk(p, h);
  }

  lemma Room(p: Payload, h: History)
    requires PayloadOk(p, h) && p.free > 0
    ensures p.chunks != [] && p.free <= |p.chunks[|p.chunks| - 1]|
  {
  }

  /** Only the state of the parser changed. */
  lemma SameBuffers(p: Payload, h: History, state: ParseState, tmp: string, cur: nat, longest: nat)
    requires PayloadOk(p, h)
    ensures PayloadOk(p.(state := state, tmp := tmp, cur := cur), h.(longest := longest))
    ensures Aligned(p, h) && (Ended(p.state) ==> Ended(state)) ==>
              Aligned(p.(state := state, tmp := tmp, cur := cur), h.(longest := longest))
  {
  }

  /** A line was read; `x` is the part of it that came now. */
  lemma LineRead(kind: Kind, p: Payload, h: History, x: string, l: string)
    requires p.state == ReadingHeader || p.state == ReadingTrailer
    requires '\n' !in x && l == Stripped(p.tmp + x)
    ensures var a := Abs(kind, p, h);
            var longest := if x == "" then h.longest else Max(h.longest, |p.tmp + x|);
            FeedAll(kind, a, x + "\n") == if p.state == ReadingHeader
              then a.(mode := HeaderMode(kind, l), longest := longest)
                                          else TrailerLine(a.(mode := InTrailer(p.tmp + x), longest := longest), l)
  {
    hide FeedAll;
    FeedPartOfLine(kind, Abs(kind, p, h), x);
    FeedLine(kind, Abs(kind, p, h), x);
  }

  lemma PartRead(kind: Kind, p: Payload, h: History, x: string)
    requires p.state == ReadingHeader || p.state == ReadingTrailer
    requires '\n' !in x
    ensures Abs(kind, p.(tmp := p.tmp + x),
              h.(longest := if x == "" then h.longest else Max(h.longest, |p.tmp + x|))) == FeedAll(kind,
              Abs(kind, p, h), x)
  {
    hide FeedAll;
    FeedPartOfLine(kind, Abs(kind, p, h), x);
  }

  lemma AddTrailerOk(p: Payload, h: History, hd: Header)
    requires PayloadOk(p, h)
    ensures PayloadOk(
              p.(ready := p.ready + HeaderSize(hd), trailerSize := p.trailerSize + HeaderSize(hd),
                 trailer := p.trailer + [hd]),
              h.(headers := h.headers + [hd]))
  {
    hide Stored, BuffersOk;
    assert (p.trailer + [hd])[..|p.trailer|] == p.trailer;
    assert (h.headers + [hd])[..|h.headers|] == h.headers;
    assert h.gone + (p.trailer + [hd]) == h.gone + p.trailer + [hd];
  }

  // ---------------------------------------------------------------- the payload object

  /** How a step of the parser ends: go on, wait, or fail. */
  datatype Status = Go | Wait | Bad | LongLine

  class Body {
    const kind: Kind
    const high: nat
    var p: Payload
    ghost var h: History

    ghost predicate Valid()
      reads this
    {
      && PayloadOk(p, h) && Aligned(p, h)
      && (p.state == ReadingData || p.state == ReadingCrlf ==> p.tmp == "") && |p.tmp| <= 16384
    }

    ghost function Model(): Scan
      reads this
    {
      Abs(kind, p, h)
    }

    /** `used` is what a step took from the input, and the state tells so; a failed step says why. */
    twostate predicate Stepped(r: Reader, st: Status, used: string)
      reads this, r
    {
      && Valid() && r.Valid() && h == old(h).(body := h.body, headers := h.headers, longest := h.longest)
      && p.writtenZero == old(p).writtenZero && p.writtenTrailer == old(p).writtenTrailer
      && (st == Go || st == Wait ==> old(r.Flat()) == used + r.Flat() && Model() == FeedAll(kind, old(Model()), used))
      && (st == Bad ==> used <= old(r.Flat()) && FeedAll(kind, old(Model()), used).mode == Failed)
      && (st == LongLine ==> used <= old(r.Flat()) && FeedAll(kind, old(Model()), used).longest > 16384)
    }

    /** A chunked payload, or one that lasts until the connection ends. */
    constructor (kind: Kind, high: nat)
      requires kind != ContentLength
      ensures Valid() && this.kind == kind && this.high == high && p.ready == 0 && h.taken == ""
      ensures h.gone == [] && p.state != Completed && !p.writtenZero && !p.writtenTrailer
      ensures kind == Chunked ==> Model() == START
      ensures kind == Eof ==> Model() == Scan(InData(0x4000_0000), "", [], 0)
    {
      this.kind, this.high := kind, high;
      p := Payload(if kind == Chunked then ReadingHeader else ReadingData, "", 0, [], 0, 0, [], 0, false, false);
      h := History("", [], 0, "", []);
    }

    /** A payload of known length. */
    constructor Sized(high: nat, size: nat)
      ensures Valid() && this.kind == ContentLength && this.high == high && p.ready == 0 && h.taken == ""
      ensures h.gone == [] && p.state != Completed && !p.writtenZero && !p.writtenTrailer
      ensures Model() == Scan(DataMode(ContentLength, size), "", [], 0)
    {
      this.kind, this.high := ContentLength, high;
      p := Payload(ReadingData, "", size, [], 0, 0, [], 0, false, false);
      h := History("", [], 0, "", []);
    }

    /** The next line, if it is complete. */
    method NextLine(r: Reader) returns (res: LineResult, ghost used: string)
      requires Valid() && r.Valid() && (p.state == ReadingHeader || p.state == ReadingTrailer)
      modifies this, r
      ensures res.TooLong? ==> Stepped(r, LongLine, used)
      ensures res.More? ==> Stepped(r, Wait, used) && r.Flat() == ""
      ensures res.Line? ==> Valid() && r.Valid() && old(r.Flat()) == used + r.Flat() && used != ""
      ensures res.Line? ==> p == old(p).(tmp := "") && h == old(h).(longest := h.longest)
      ensures res.Line? ==> FeedAll(kind, old(Model()), used) == Taken(kind, Model(), p.state, res.l)
    {
      hide FeedAll, PayloadOk, Aligned, Stripped, HeaderMode, TrailerLine, Concat, Sizes;
      var rest;
      ghost var x, n;
      res, rest, x, n := GetLine(r, p.tmp);
      used := x;
      ghost var longest := if x == "" then h.longest else Max(h.longest, |p.tmp + x|);
      match res {
        case TooLong =>
          PartRead(kind, p, h, x);
        case More =>
          PartRead(kind, p, h, x);
          SameBuffers(p, h, p.state, rest, p.cur, longest);
          h := h.(longest := longest);
          p := p.(tmp := rest);
          assert x + "" == x;
        case Line(l) =>
          used := x + "\n";
          LineRead(kind, p, h, x, l);
          TakenLine(kind, Model(), p.tmp + x, longest, l);
          SameBuffers(p, h, p.state, "", p.cur, longest);
          h := h.(longest := longest);
          p := p.(tmp := rest);
      }
    }

    method HeaderStep(r: Reader) returns (st: Status, ghost used: string)
      requires Valid() && r.Valid() && p.state == ReadingHeader
      modifies this, r
      ensures Stepped(r, st, used)
      ensures st == Wait ==> r.Flat() == ""
      ensures st == Go ==> |r.Flat()| < old(|r.Flat()|) && p.state != Completed
    {
      hide FeedAll, PayloadOk, HeaderMode, Concat;
      var res;
      res, used := NextLine(r);
      match res {
        case TooLong => return LongLine, used;
        case More => return Wait, used;
        case Line(l) =>
          var size := ChunkSize(kind, l);
          if size.None? {
            return Bad, used;
          }
          var next := if size.value == 0 then ReadingTrailer else ReadingData;
          SameBuffers(p, h, next, "", size.value, h.longest);
          p := p.(state := next, cur := size.value);
          return Go, used;
      }
    }

    method DataStep(r: Reader) returns (st: Status, ghost used: string)
      requires Valid() && r.Valid() && p.state == ReadingData
      modifies this, r
      ensures Stepped(r, st, used)
      ensures st == Wait ==> r.Flat() == "" || p.state == Completed
      ensures st == Go ==> if old(p.cur) == 0
                then r.Flat() == old(r.Flat()) && (p.state == ReadingCrlf || (p.state == ReadingData && p.cur > 0))
                else |r.Flat()| < old(|r.Flat()|)
      ensures st == Go ==> p.state != Completed
      ensures st == Go || st == Wait
    {
      hide FeedAll, PayloadOk, Aligned, Concat, Stored;
      used := "";
      Nothing(kind, Model(), r.Flat());
      if p.cur == 0 {
        match kind {
          case Eof =>
            SameBuffers(p, h, p.state, p.tmp, EOF_CHUNK, h.longest);
            p := p.(cur := EOF_CHUNK);
            return Go, used;
          case Chunked =>
            SameBuffers(p, h, ReadingCrlf, p.tmp, p.cur, h.longest);
            p := p.(state := ReadingCrlf);
            return Go, used;
          case ContentLength =>
            SameBuffers(p, h, Completed, p.tmp, p.cur, h.longest);
            p := p.(state := Completed);
            return Wait, used;
        }
      }
      var n := r.Size();
      if n == 0 {
        return Wait, used;
      }
      WithRoomOk(p, h);
      p := WithRoom(p);
      var size := if p.free < p.cur then p.free else p.cur;
      if size > n {
        size := n;
      }
      var d := r.Advance(size);
      FilledOk(kind, p, h, d);
      FilledAligned(old(p), old(h), d);
      p := Filled(p, d);
      h := h.(body := h.body + d);
      return Go, d;
    }

    method TrailerStep(r: Reader) returns (st: Status, ghost used: string)
      requires Valid() && r.Valid() && p.state == ReadingTrailer
      modifies this, r
      ensures Stepped(r, st, used)
      ensures st == Wait ==> r.Flat() == "" || p.state == Completed
      ensures st == Go ==> |r.Flat()| < old(|r.Flat()|) && p.state != Completed
    {
      hide FeedAll, PayloadOk, Concat, Sizes, Trim;
      var res;
      res, used := NextLine(r);
      match res {
        case TooLong => return LongLine, used;
        case More => return Wait, used;
        case Line(l) =>
          if l == "" {
            SameBuffers(p, h, Completed, "", p.cur, h.longest);
            p := p.(state := Completed);
            return Wait, used;
          }
          var i := Find(l, ':');
          if i == |l| {
            return Bad, used;
          }
          var hd := Header(l[..i], Trim(l[i + 1..]));
          AddTrailerOk(p, h, hd);
          TrailerTotal(p, h, hd);
          p := p.(ready := p.ready + HeaderSize(hd), trailerSize := p.trailerSize + HeaderSize(hd),
            trailer := p.trailer + [hd]);
          h := h.(headers := h.headers + [hd]);
          if p.trailerSize > MAX_TRAILER {
            return Bad, used;
          }
          return Go, used;
      }
    }

    method CrlfStep(r: Reader) returns (st: Status, ghost used: string)
      requires Valid() && r.Valid() && p.state == ReadingCrlf
      modifies this, r
      ensures Stepped(r, st, used)
      ensures st == Wait ==> |r.Flat()| < 2 && p.state == ReadingCrlf
      ensures st == Go ==> |r.Flat()| < old(|r.Flat()|) && p.state != Completed
    {
      hide FeedAll, PayloadOk, Concat;
      used := "";
      Nothing(kind, Model(), r.Flat());
      var n := r.Size();
      if n < 2 {
        return Wait, used;
      }
      var d := r.Advance(2);
      assert d == [d[0], d[1]];
      FeedTwo(kind, Model(), d[0], d[1]);
      if d[0] != '\r' || d[1] != '\n' {
        assert old(r.Flat()) == d + r.Flat();
        return Bad, d;
      }
      SameBuffers(p, h, ReadingHeader, p.tmp, p.cur, h.longest);
      p := p.(state := ReadingHeader);
      return Go, d;
    }

    /**
      Parse as much of the input as there is, unless too many bytes are waiting to be taken out. Without
      an error everything is used up, except a lone byte after a chunk.
     */
    method Parse(r: Reader) returns (st: Status, ghost used: string)
      requires Valid() && r.Valid() && p.state != Completed
      modifies this, r
      ensures Stepped(r, st, used) && st != Go
      ensures st == Wait ==>
                || p.ready > high || p.state == Completed || r.Flat() == ""
                || (p.state == ReadingCrlf && |r.Flat()| < 2)
    {
      hide FeedAll, PayloadOk, Aligned, Concat;
      used := "";
      Nothing(kind, Model(), r.Flat());
      while true
        invariant Valid() && r.Valid() && p.state != Completed
        invariant h == old(h).(body := h.body, headers := h.headers, longest := h.longest)
        invariant p.writtenZero == old(p).writtenZero && p.writtenTrailer == old(p).writtenTrailer
        invariant old(r.Flat()) == used + r.Flat() && Model() == FeedAll(kind, old(Model()), used)
        decreases |r.Flat()|, if p.state == ReadingData && p.cur == 0 then 1 else 0
      {
        if p.ready > high {
          return Wait, used;
        }
        ghost var flat, model := r.Flat(), Model();
        ghost var u;
        match p.state {
          case ReadingHeader => st, u := HeaderStep(r);
          case ReadingData => st, u := DataStep(r);
          case ReadingTrailer => st, u := TrailerStep(r);
          case ReadingCrlf => st, u := CrlfStep(r);
        }
        FeedSplit(kind, old(Model()), used, u);
        UsedMore(used, u, flat, r.Flat(), old(r.Flat()));
        used := used + u;
        if st != Go {
          return;
        }
      }
    }

    // ---------------------------------------------------------------- taking bytes out

    method SliceGc()
      requires Valid()
      modifies this`p
      ensures Valid() && Stored(p.chunks, p.free) == old(Stored(p.chunks, p.free))
      ensures p == old(p).(chunks := p.chunks, free := FreeLeft(old(p)))
    {
      hide Stored;
      var chunks, free := Collect(p.chunks, p.free, Ended(p.state));
      p := p.(chunks := chunks, free := free);
    }

    /** Take out up to `max` bytes, in the order in which they came. */
    method GetSlice(max: nat) returns (b: string)
      requires Valid()
      modifies this`p, this`h
      ensures Valid() && old(Stored(p.chunks, p.free)) == b + Stored(p.chunks, p.free)
      ensures p == old(p).(chunks := p.chunks, ready := p.ready) && h == old(h).(taken := old(h).taken + b)
      ensures |b| <= max && |b| <= 16384 && (max > 0 ==> (b == "" <==> old(Stored(p.chunks, p.free)) == ""))
    {
      hide Stored, BuffersOk, PayloadOk;
      PayloadBuffers(p, h);
      var chunks;
      b, chunks := TakeSlice(p.chunks, p.free, max);
      Took(p, h, b, chunks);
      p := p.(chunks := chunks, ready := p.ready - |b|);
      h := h.(taken := h.taken + b);
    }

    /** The next trailer line, or one without a name if there is none. */
    method GetHeader() returns (hd: Header)
      requires Valid()
      modifies this`p, this`h
      ensures Valid()
      ensures old(p.trailer) == [] ==> hd == Header("", "") && p == old(p) && h == old(h)
      ensures old(p.trailer) != [] ==>
                && hd == old(p.trailer)[0] && h == old(h).(gone := old(h.gone) + [hd])
                && p == old(p).(trailer := old(p.trailer)[1..], ready := p.ready)
    {
      hide Stored, BuffersOk, PayloadOk;
      if p.trailer == [] {
        return Header("", "");
      }
      hd := p.trailer[0];
      HeaderTaken(p, h);
      p := p.(trailer := p.trailer[1..], ready := p.ready - HeaderSize(hd));
      h := h.(gone := h.gone + [hd]);
    }

    /** Everything has been read, written and taken out. */
    predicate Written()
      reads this
    {
      p.ready == 0 && p.state == Completed && p.writtenZero && p.writtenTrailer
    }

    /** Write up to `max` bytes of the body in chunks `ps`. */
    method StoreData(max: nat) returns (out: string, left: nat, ghost ps: seq<string>)
      requires Valid()
      modifies this`p, this`h
      ensures Valid() && p == old(p).(chunks := p.chunks, free := p.free, ready := p.ready)
      ensures Sendable(ps) && out == Frames(ps) && h == old(h).(taken := old(h).taken + Concat(ps))
      ensures old(Stored(p.chunks, p.free)) == Concat(ps) + Stored(p.chunks, p.free)
      ensures |Concat(ps)| == Min(max, |old(Stored(p.chunks, p.free))|) && left == max - |Concat(ps)|
      ensures p.chunks == [] <==> EndsNow(old(p), max)
    {
      hide Stored, Concat, Frames, Frame, PayloadOk;
      out, ps, left := "", [], max;
      SliceGc();
      NoFrames();
      ghost var stored := Stored(p.chunks, p.free);
      assert "" + stored == stored && h.taken + "" == h.taken;
      while |p.chunks| > 0 && left > 0
        invariant Valid() && p == old(p).(chunks := p.chunks, free := FreeLeft(old(p)), ready := p.ready)
        invariant Sendable(ps) && |Concat(ps)| + left == max && out == Frames(ps)
        invariant h == old(h).(taken := old(h).taken + Concat(ps)) && stored == Concat(ps) + Stored(p.chunks, p.free)
        decreases left
      {
        var s := GetSlice(left);
        if |s| == 0 {
          assert Concat(ps) + "" == Concat(ps) && (old(h).taken + Concat(ps)) + "" == old(h).taken + Concat(ps);
          assert "" + Stored(p.chunks, p.free) == Stored(p.chunks, p.free);
          break;
        }
        left := left - |s|;
        OneMore(ps, s, Stored(p.chunks, p.free), old(h).taken);
        out := out + (Hex(|s|) + "\r\n") + s + "\r\n";
        ps := ps + [s];
      }
      DataWritten(p, h, stored, Concat(ps), max, left);
    }

    /** Write trailer lines. `ended` tells whether the end of the payload is due. */
    method StoreTrailer(max: nat) returns (out: string, ended: bool)
      requires Valid()
      modifies this`p, this`h
      ensures Valid()
      ensures var r := TrailerPart(old(p.trailer), max, old(p.state) == Completed);
              && out == HeaderLines(r.lines) && ended == r.ended && p == old(p).(trailer := r.rest, ready := p.ready)
              && h == old(h).(gone := h.gone)
    {
      hide Stored, PayloadOk, HeaderLines, HeaderLine, HeaderSize, TrailerPart;
      out := "";
      ghost var done: seq<Header> := [];
      NoLines();
      var left: nat := max;
      ghost var r := TrailerPart(p.trailer, max, p.state == Completed);
      assert [] + r.lines == r.lines;
      while left > 0
        invariant Valid() && p == old(p).(trailer := p.trailer, ready := p.ready)
        invariant h == old(h).(gone := h.gone) && out == HeaderLines(done)
        invariant r == After(done, TrailerPart(p.trailer, left, p.state == Completed))
        decreases left
      {
        PartStep(p.trailer, left, p.state == Completed, done);
        var state := p.state;
        var hd := GetHeader();
        if hd.name == "" {
          return out, state == Completed;
        }
        LinesNext(done, hd);
        LineIs(hd);
        out := out + (hd.name + ": " + hd.value + "\r\n");
        done := done + [hd];
        if left <= HeaderSize(hd) {
          return out, false;
        }
        SizePositive(hd);
        left := left - HeaderSize(hd);
      }
      PartStep(p.trailer, 0, p.state == Completed, done);
      return out, true;
    }

    /** Write a payload in the chunked coding, at most `max` bytes at a time, and its end when it is due. */
    method StoreHttp(max: nat) returns (out: string, ghost ps: seq<string>)
      requires Valid()
      modifies this
      ensures Valid() && p.state == old(p.state) && p.cur == old(p.cur) && Sendable(ps)
      ensures old(Stored(p.chunks, p.free)) == Concat(ps) + Stored(p.chunks, p.free)
      ensures |Concat(ps)| == Min(max, |old(Stored(p.chunks, p.free))|)
      ensures h.taken == old(h).taken + Concat(ps) && h.body == old(h).body
      ensures !EndsNow(old(p), max) ==>
                out == Frames(ps) && p == old(p).(chunks := p.chunks, free := p.free, ready := p.ready)
      ensures EndsNow(old(p), max) ==>
                var r := TrailerPart(old(p.trailer), max - |Concat(ps)|, old(p.state) == Completed);
                && out == Frames(ps) + (if old(p.writtenZero) then ""
                   else LAST) + HeaderLines(r.lines) + (if r.ended && !old(p.writtenTrailer) then "\r\n" else "")
                && p.trailer == r.rest && p.writtenZero && p.writtenTrailer == (old(p.writtenTrailer) || r.ended) &&
                   p.chunks == []
    {
      hide Stored, Concat, Frames, PayloadOk, HeaderLines, TrailerPart, EndsNow;
      var left;
      out, left, ps := StoreData(max);
      if |p.chunks| != 0 {
        return;
      }
      ghost var data := out;
      if !p.writtenZero {
        out := out + LAST;
        Flags(p, h);
        p := p.(writtenZero := true);
      }
      assert data + "" == data;
      var lines, ended := StoreTrailer(left);
      out := out + lines;
      assert out + "" == out;
      if !ended {
        return;
      }
      if !p.writtenTrailer {
        out := out + "\r\n";
        Flags(p, h);
        p := p.(writtenTrailer := true);
      }
    }
  }

  // ---------------------------------------------------------------- when the end of a payload is written

  /** No more body bytes will come. */
  predicate Ended(state: ParseState) {
    state == Completed || state == ReadingTrailer
  }

  /** The unused bytes of the last buffer once used-up buffers are dropped. */
  function FreeLeft(p: Payload): nat {
    if Ended(p.state) && |p.chunks| == 1 then 0 else p.free
  }

  /** Writing up to `max` bytes leaves no buffer, which the program takes for the end of the body. */
  ghost predicate EndsNow(p: Payload, max: nat) {
    FreeLeft(p) == 0 && |Stored(p.chunks, p.free)| <= max
  }

  /** The trailer lines written, those that stay, and whether the end of the payload is written. */
  datatype Trailer = Trailer(lines: seq<Header>, rest: seq<Header>, ended: bool)

  function TrailerPart(hs: seq<Header>, left: nat, completed: bool): Trailer {
    if left == 0 then Trailer([], hs, true)
    else if hs == [] then Trailer([], [], completed)
    else if hs[0].name == "" then Trailer([], hs[1..], completed)
    else if left <= HeaderSize(hs[0]) then Trailer([hs[0]], hs[1..], false)
    else
      var r := TrailerPart(hs[1..], left - HeaderSize(hs[0]), completed);
      r.(lines := [hs[0]] + r.lines)
  }

  /** The same after the lines `done`. */
  ghost function After(done: seq<Header>, r: Trailer): Trailer {
    r.(lines := done + r.lines)
  }

  lemma PartStep(hs: seq<Header>, left: nat, completed: bool, done: seq<Header>)
    ensures After(done, TrailerPart(hs, left, completed)) ==
              if left == 0 then Trailer(done, hs, true)
              else if hs == [] then Trailer(done, [], completed)
              else if hs[0].name == "" then Trailer(done, hs[1..], completed)
              else if left <= HeaderSize(hs[0]) then Trailer(done + [hs[0]], hs[1..], false)
              else After(done + [hs[0]], TrailerPart(hs[1..], left - HeaderSize(hs[0]), completed))
  {
    hide HeaderSize;
    assert done + [] == done;
    if left > 0 && hs != [] && left > HeaderSize(hs[0]) {
      var q := TrailerPart(hs[1..], left - HeaderSize(hs[0]), completed);
      assert done + ([hs[0]] + q.lines) == done + [hs[0]] + q.lines;
    }
  }

  ghost predicate AllNamed(hs: seq<Header>) {
    forall h | h in hs :: h.name != ""
  }

  /**
    The end of the payload is written only after everything else, exactly unless the size asked for ends with
    the body while trailer lines are waiting or may come.
   */
  lemma {:induction false} EndIsLastIff(hs: seq<Header>, left: nat, completed: bool)
    requires AllNamed(hs)
    ensures (TrailerPart(hs, left, completed).ended ==> completed && TrailerPart(hs, left, completed).rest == [])
            <==> (left > 0 || (completed && hs == []))
    decreases |hs|
  {
    if left > 0 && hs != [] {
      assert hs[0] in hs;
      if left > HeaderSize(hs[0]) {
        assert forall h | h in hs[1..] :: h in hs;
        EndIsLastIff(hs[1..], left - HeaderSize(hs[0]), completed);
      }
    }
  }

  /** The lines written are the first ones, and some are written if any wait and there is room. */
  lemma {:induction false} LinesInOrder(hs: seq<Header>, left: nat, completed: bool)
    requires AllNamed(hs)
    ensures var r := TrailerPart(hs, left, completed);
            hs == r.lines + r.rest && (left > 0 && hs != [] ==> r.lines != [])
    decreases |hs|
  {
    if left > 0 && hs != [] {
      assert hs[0] in hs && hs == [hs[0]] + hs[1..];
      if left > HeaderSize(hs[0]) {
        assert forall h | h in hs[1..] :: h in hs;
        LinesInOrder(hs[1..], left - HeaderSize(hs[0]), completed);
      }
    }
  }

  /** A trailer line without a name is dropped, and the end is written before the lines after it. */
  lemma UnnamedEndsEarly(h: Header, hs: seq<Header>, left: nat)
    requires h.name == "" && left > 0
    ensures TrailerPart([h] + hs, left, true) == Trailer([], hs, true)
  {
    assert ([h] + hs)[1..] == hs;
  }

  /**
    A payload that is still being parsed is ended early exactly if all that was read is written and that is a
    multiple of the buffer size.
   */
  lemma EndsEarly(p: Payload, h: History, max: nat)
    requires PayloadOk(p, h) && Aligned(p, h) && !Ended(p.state)
    ensures EndsNow(p, max) <==> |h.body| % 16384 == 0 && |h.body| <= |h.taken| + max
  {
    hide Stored;
    assert |h.body| == |h.taken| + |Stored(p.chunks, p.free)|;
  }

  lemma DataWritten(p: Payload, h: History, stored: string, done: string, max: nat, left: nat)
    requires PayloadOk(p, h) && stored == done + Stored(p.chunks, p.free) && |done| + left == max
    requires p.chunks == [] || left == 0 || Stored(p.chunks, p.free) == ""
    ensures |done| == Min(max, |stored|) && (p.chunks == [] <==> p.free == 0 && |stored| <= max)
  {
    hide Stored;
    NoChunks(p.chunks, p.free);
    FullBuffers(p.chunks, p.free);
  }

  /** With no free bytes, nothing stored means no buffers. */
  lemma FullBuffers(chunks: seq<string>, free: nat)
    requires BuffersOk(chunks, free) && NoEmpty(chunks)
    ensures chunks == [] ==> free == 0
    ensures free == 0 && Stored(chunks, free) == "" ==> chunks == []
  {
    if chunks != [] && free == 0 {
      var n := |chunks| - 1;
      assert chunks[n] in chunks && chunks[n][..|chunks[n]|] == chunks[n];
    }
  }

  lemma HeaderTaken(p: Payload, h: History)
    requires PayloadOk(p, h) && p.trailer != []
    ensures HeaderSize(p.trailer[0]) <= p.ready
    ensures PayloadOk(p.(trailer := p.trailer[1..], ready := p.ready - HeaderSize(p.trailer[0])),
              h.(gone := h.gone + [p.trailer[0]]))
  {
    hide Stored, HeaderSize;
    FirstSize(p.trailer);
    assert h.gone + [p.trailer[0]] + p.trailer[1..] == h.gone + p.trailer;
  }

  lemma {:induction false} FirstSize(hs: seq<Header>)
    requires hs != []
    ensures Sizes(hs) == HeaderSize(hs[0]) + Sizes(hs[1..])
    decreases |hs|
  {
    var n := |hs| - 1;
    if n == 0 {
      assert hs[..0] == [] && hs[1..] == [];
    } else {
      FirstSize(hs[..n]);
      assert hs[1..][..n - 1] == hs[..n][1..];
    }
  }

  lemma NoLines()
    ensures HeaderLines([]) == ""
  {
  }

  lemma LineIs(h: Header)
    ensures HeaderLine(h) == h.name + ": " + h.value + "\r\n"
  {
  }

  lemma SizePositive(h: Header)
    ensures HeaderSize(h) > 0
  {
  }

  lemma Flags(p: Payload, h: History)
    requires PayloadOk(p, h)
    ensures PayloadOk(p.(writtenZero := true), h) && PayloadOk(p.(writtenTrailer := true), h)
  {
  }

  // ---------------------------------------------------------------- taking bytes out, on values

  lemma PayloadBuffers(p: Payload, h: History)
    requires PayloadOk(p, h)
    ensures BuffersOk(p.chunks, p.free) && NoEmpty(p.chunks)
  {
  }

  /** Drop used-up buffers, and the unused end of the last one if no more data will come. */
  method Collect(chunks0: seq<string>, free0: nat, ended: bool) returns (chunks: seq<string>, free: nat)
    requires BuffersOk(chunks0, free0)
    ensures BuffersOk(chunks, free) && Stored(chunks, free) == Stored(chunks0, free0)
    ensures NoEmpty(chunks0) ==> NoEmpty(chunks) && free == if ended && |chunks0| == 1 then 0 else free0
  {
    hide Stored, BuffersOk, NoEmpty, Kept;
    chunks, free := chunks0, free0;
    KeptStart(chunks0, free0, ended);
    while |chunks| > 0
      invariant Kept(chunks0, free0, ended, chunks, free)
      decreases |chunks|
    {
      CutFacts(chunks0, free0, ended, chunks, free);
      if ended && |chunks| == 1 {
        chunks, free := [chunks[0][..|chunks[0]| - free]], 0;
      }
      if |chunks[0]| == 0 {
        chunks := chunks[1..];
        continue;
      }
      return;
    }
    KeptNothing(chunks0, free0, ended, chunks, free);
  }

  /** What is kept while used-up buffers are dropped: without empty buffers, only a single last one can go. */
  ghost predicate Kept(chunks0: seq<string>, free0: nat, ended: bool, chunks: seq<string>, free: nat) {
    && BuffersOk(chunks, free) && Stored(chunks, free) == Stored(chunks0, free0)
    && (NoEmpty(chunks0) ==>
          || (chunks == chunks0 && free == free0)
          || (chunks == [] && free == 0 && ended && |chunks0| == 1))
  }

  lemma KeptStart(chunks: seq<string>, free: nat, ended: bool)
    requires BuffersOk(chunks, free)
    ensures Kept(chunks, free, ended, chunks, free)
  {
  }

  lemma KeptNothing(chunks0: seq<string>, free0: nat, ended: bool, chunks: seq<string>, free: nat)
    requires Kept(chunks0, free0, ended, chunks, free) && chunks == []
    ensures BuffersOk(chunks, free) && Stored(chunks, free) == Stored(chunks0, free0) && NoEmpty(chunks)
    ensures NoEmpty(chunks0) ==> free == if ended && |chunks0| == 1 then 0 else free0
  {
    hide Stored;
  }

  /** One step of the loop: the unused end of the last buffer is cut off if no more data will come. */
  lemma CutFacts(chunks0: seq<string>, free0: nat, ended: bool, chunks: seq<string>, free: nat)
    requires Kept(chunks0, free0, ended, chunks, free) && chunks != []
    ensures free <= |chunks[|chunks| - 1]|
    ensures var (c, f) := if ended && |chunks| == 1 then ([chunks[0][..|chunks[0]| - free]], 0) else (chunks, free);
            && c != []
            && (c[0] == "" ==> Kept(chunks0, free0, ended, c[1..], f))
            && (c[0] != "" ==>
                  && BuffersOk(c, f) && Stored(c, f) == Stored(chunks0, free0)
                  && (NoEmpty(chunks0) ==> NoEmpty(c) && f == if ended && |chunks0| == 1 then 0 else free0))
  {
    hide Stored;
    if ended && |chunks| == 1 {
      Truncated(chunks, free);
      FrontFacts([chunks[0][..|chunks[0]| - free]], 0);
    } else {
      FrontFacts(chunks, free);
    }
  }

  /** The next bytes, from the first buffer that has any. */
  method TakeSlice(chunks0: seq<string>, free: nat, max: nat) returns (b: string, chunks: seq<string>)
    requires BuffersOk(chunks0, free)
    ensures BuffersOk(chunks, free) && Stored(chunks0, free) == b + Stored(chunks, free)
    ensures NoEmpty(chunks0) ==> NoEmpty(chunks)
    ensures |b| <= max && |b| <= CHUNK && (max > 0 ==> (b == "" <==> Stored(chunks0, free) == ""))
  {
    hide Stored, BuffersOk;
    chunks := chunks0;
    while |chunks| > 0
      invariant BuffersOk(chunks, free) && Stored(chunks, free) == Stored(chunks0, free)
      invariant NoEmpty(chunks0) ==> NoEmpty(chunks)
      decreases |chunks|
    {
      var x := chunks[0];
      FrontFacts(chunks, free);
      if |x| == 0 {
        assert |chunks| > 1 || free == 0;
        chunks := chunks[1..];
        continue;
      }
      if |chunks| > 1 || free == 0 {
        if |x| <= max {
          b := x;
          chunks := chunks[1..];
        } else {
          b := x[..max];
          CutFront(chunks, free, max);
          chunks := chunks[0 := x[max..]];
        }
      } else {
        assert |x| >= free;
        if |x| == free {
          return "", chunks;
        }
        b := x[..|x| - free];
        if |b| > max {
          b := b[..max];
        }
        CutFront(chunks, free, |b|);
        assert b == x[..|b|];
        chunks := chunks[0 := x[|b|..]];
      }
      return;
    }
    NoChunks(chunks, free);
    return "", chunks;
  }

  lemma NoChunks(chunks: seq<string>, free: nat)
    requires BuffersOk(chunks, free)
    ensures chunks == [] ==> Stored(chunks, free) == ""
  {
  }

  lemma Truncated(chunks: seq<string>, free: nat)
    requires BuffersOk(chunks, free) && |chunks| == 1
    ensures free <= |chunks[0]| && BuffersOk([chunks[0][..|chunks[0]| - free]], 0)
    ensures Stored([chunks[0][..|chunks[0]| - free]], 0) == Stored(chunks, free)
  {
    var c := chunks[0][..|chunks[0]| - free];
    assert c[..|c|] == c;
    assert chunks[0] in chunks;
  }

  /** The first buffer holds the first bytes. */
  lemma FrontFacts(chunks: seq<string>, free: nat)
    requires BuffersOk(chunks, free) && chunks != []
    ensures |chunks[0]| <= CHUNK && (NoEmpty(chunks) ==> NoEmpty(chunks[1..]) && chunks[0] != "")
    ensures |chunks| > 1 || free == 0 ==>
              BuffersOk(chunks[1..], free) && Stored(chunks, free) == chunks[0] + Stored(chunks[1..], free)
    ensures |chunks| == 1 ==> free <= |chunks[0]| && Stored(chunks, free) == chunks[0][..|chunks[0]| - free]
  {
    hide Concat;
    assert chunks[0] in chunks && forall c | c in chunks[1..] :: c in chunks;
    if |chunks| == 1 {
      OneBuffer(chunks, free);
    } else {
      MoreBuffers(chunks, free);
    }
  }

  lemma OneBuffer(chunks: seq<string>, free: nat)
    requires BuffersOk(chunks, free) && |chunks| == 1
    ensures free <= |chunks[0]| && Stored(chunks, free) == chunks[0][..|chunks[0]| - free]
    ensures free == 0 ==> Stored(chunks, free) == chunks[0] + Stored(chunks[1..], free)
  {
    assert free == 0 ==> chunks[0][..|chunks[0]|] == chunks[0] + "";
  }

  lemma MoreBuffers(chunks: seq<string>, free: nat)
    requires BuffersOk(chunks, free) && |chunks| > 1
    ensures Stored(chunks, free) == chunks[0] + Stored(chunks[1..], free)
  {
    hide Concat;
    var n := |chunks| - 1;
    assert chunks[..n] == [chunks[0]] + chunks[1..][..n - 1];
    ConcatJoin([chunks[0]], chunks[1..][..n - 1]);
    ConcatOne(chunks[0]);
    var t := chunks[n][..|chunks[n]| - free];
    assert chunks[0] + Concat(chunks[1..][..n - 1]) + t == chunks[0] + (Concat(chunks[1..][..n - 1]) + t);
  }

  /** Taking the first `n` bytes of the first buffer. */
  lemma CutFront(chunks: seq<string>, free: nat, n: nat)
    requires BuffersOk(chunks, free) && chunks != [] && n <= |chunks[0]| && (|chunks| == 1 ==> n <= |chunks[0]| - free)
    ensures BuffersOk(chunks[0 := chunks[0][n..]], free)
    ensures Stored(chunks, free) == chunks[0][..n] + Stored(chunks[0 := chunks[0][n..]], free)
    ensures NoEmpty(chunks) && n < |chunks[0]| ==> NoEmpty(chunks[0 := chunks[0][n..]])
  {
    hide Stored;
    var x := chunks[0];
    var chunks' := chunks[0 := x[n..]];
    assert x in chunks && forall c | c in chunks' :: c == x[n..] || c in chunks;
    FrontFacts(chunks, free);
    FrontFacts(chunks', free);
    assert x == x[..n] + x[n..];
    if |chunks| > 1 {
      assert chunks'[1..] == chunks[1..];
      assert x[..n] + x[n..] + Stored(chunks[1..], free) == x[..n] + (x[n..] + Stored(chunks[1..], free));
    } else {
      assert x[..|x| - free] == x[..n] + x[n..][..|x[n..]| - free];
    }
  }

  lemma Took(p: Payload, h: History, b: string, chunks: seq<string>)
    requires PayloadOk(p, h) && BuffersOk(chunks, p.free) && NoEmpty(chunks)
    requires Stored(p.chunks, p.free) == b + Stored(chunks, p.free)
    ensures |b| <= p.ready && PayloadOk(p.(chunks := chunks, ready := p.ready - |b|), h.(taken := h.taken + b))
    ensures b == "" ==> h.taken + b == h.taken
  {
    hide Stored;
    assert h.taken + (b + Stored(chunks, p.free)) == (h.taken + b) + Stored(chunks, p.free);
  }

  lemma NoFrames()
    ensures Frames([]) == "" && Concat([]) == "" && Sendable([])
  {
  }

  lemma OneMore(ps: seq<string>, s: string, rest: string, taken: string)
    requires Sendable(ps) && 0 < |s| <= CHUNK
    ensures Sendable(ps + [s]) && |Concat(ps + [s])| == |Concat(ps)| + |s| && Concat(ps + [s]) != ""
    ensures Frames(ps + [s]) == Frames(ps) + (Hex(|s|) + "\r\n") + s + "\r\n"
    ensures Concat(ps) + (s + rest) == Concat(ps + [s]) + rest && taken + Concat(ps) + s == taken + Concat(ps + [s])
  {
    hide Hex, Concat, Frames;
    FramesNext(ps, s);
    assert Frames(ps) + Frame(s) == Frames(ps) + (Hex(|s|) + "\r\n") + s + "\r\n";
    assert Concat(ps) + (s + rest) == Concat(ps) + s + rest;
    assert taken + Concat(ps) + s == taken + (Concat(ps) + s);
  }

  lemma UsedMore(used: string, u: string, flat: string, rest: string, all: string)
    requires all == used + flat
    ensures flat == u + rest ==> all == used + u + rest
    ensures u <= flat ==> used + u <= all
  {
    if flat == u + rest {
      assert used + (u + rest) == used + u + rest;
    }
  }

  /** What a complete line does. */
  ghost function Taken(kind: Kind, a: Scan, state: ParseState, l: string): Scan {
    if state == ReadingHeader then a.(mode := HeaderMode(kind, l)) else TrailerLine(a, l)
  }

  lemma TakenLine(kind: Kind, a: Scan, line: string, longest: nat, l: string)
    ensures TrailerLine(a.(mode := InTrailer(line), longest := longest),
              l) == TrailerLine(a.(mode := InTrailer(""), longest := longest), l)
  {
  }

  lemma Nothing(kind: Kind, a: Scan, s: string)
    ensures FeedAll(kind, a, "") == a && "" + s == s
  {
  }

  lemma TrailerTotal(p: Payload, h: History, hd: Header)
    requires PayloadOk(p, h)
    ensures p.trailerSize + HeaderSize(hd) == Sizes(h.headers + [hd])
  {
    assert (h.headers + [hd])[..|h.headers|] == h.headers;
  }

  /** The size a chunk header announces, if it is well formed. */
  function ChunkSize(kind: Kind, l: string): (n: Option<nat>)
    ensures match n
            case None => HeaderMode(kind, l) == Failed
            case Some(v) => HeaderMode(kind, l) == if v == 0 then InTrailer("") else DataMode(kind, v)
  {
    if l == "" then None else HexValue(l[..Find(l, ' ')])
  }
}
