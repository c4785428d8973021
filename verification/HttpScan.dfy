/**
  HTTP payload bodies as a language of bytes: what a byte does to the state of a parser. Nothing here
  depends on how the bytes are cut into pieces when they arrive. Bytes are characters.
 */
module HttpScan {
  import opened Numbers
  import opened Options

  const U64 := 0x1_0000_0000_0000_0000
  const MAX_LINE := 16384
  const MAX_TRAILER := 16384
  const EOF_CHUNK := 0x4000_0000

  /** How the end of the body is told. */
  datatype Kind = Eof | Chunked | ContentLength

  datatype Header = Header(name: string, value: string)

  function HeaderSize(h: Header): nat {
    2 + |h.name| + |h.value|
  }

  function Sizes(hs: seq<Header>): nat {
    if hs == [] then 0 else Sizes(hs[..|hs| - 1]) + HeaderSize(hs[|hs| - 1])
  }

  datatype Mode =
    | InHeader(line: string)
    | InData(need: nat)
    | AtCr
    | AtLf
    | InTrailer(line: string)
    | Done
    | Failed

  /** The parser: its mode, what it has read, and the length of the longest line so far. */
  datatype Scan = Scan(mode: Mode, body: string, trailers: seq<Header>, longest: nat)

  // ---------------------------------------------------------------- lines

  /** A line without the carriage return at its end. */
  function Stripped(line: string): string {
    if line != "" && line[|line| - 1] == '\r' then line[..|line| - 1] else line
  }

  function DigitValue(c: char): Option<nat> {
    if '0' <= c <= '9' then Some(c as int - '0' as int)
    else if 'a' <= c <= 'f' then Some(c as int - 'a' as int + 10)
    else if 'A' <= c <= 'F' then Some(c as int - 'A' as int + 10)
    else None
  }

  /** The value of hexadecimal digits in 64-bit arithmetic. */
  function HexValue(s: string): Option<nat> {
    if s == "" then Some(0)
    else
      var v, d := HexValue(s[..|s| - 1]), DigitValue(s[|s| - 1]);
      if v.None? || d.None? then None else Some((v.value * 16 + d.value) % U64)
  }

  /** Where `c` first occurs, or the length. */
  function Find(s: string, c: char): (i: nat)
    ensures i <= |s| && (i < |s| ==> s[i] == c) && forall j | 0 <= j < i :: s[j] != c
  {
    if s == "" || s[0] == c then 0 else 1 + Find(s[1..], c)
  }

  predicate IsSpace(c: char) {
    c in {' ', '\t', '\r', '\n', '\0'} || c as int == 11
  }

  function Trim(s: string): string {
    if s == "" then ""
    else if IsSpace(s[0]) then Trim(s[1..])
    else if IsSpace(s[|s| - 1]) then Trim(s[..|s| - 1])
    else s
  }

  // ---------------------------------------------------------------- one byte

  /** The mode when `need` bytes of a chunk are still to come. */
  function DataMode(kind: Kind, need: nat): Mode {
    if need > 0 then InData(need)
    else match kind
      case Eof => InData(0x4000_0000)
      case Chunked => AtCr
      case ContentLength => Done
  }

  /** A complete chunk header. */
  function HeaderMode(kind: Kind, l: string): Mode {
    if l == "" then Failed
    else match HexValue(l[..Find(l, ' ')])
      case None => Failed
      case Some(n) => if n == 0 then InTrailer("") else DataMode(kind, n)
  }

  /** A complete line of the trailer. */
  function TrailerLine(a: Scan, l: string): Scan {
    if l == "" then a.(mode := Done)
    else if Find(l, ':') == |l| then a.(mode := Failed)
    else
      var i := Find(l, ':');
      var hs := a.trailers + [Header(l[..i], Trim(l[i + 1..]))];
      a.(mode := if Sizes(hs) > 16384 then Failed else InTrailer(""), trailers := hs)
  }

  function Feed(kind: Kind, a: Scan, c: char): Scan {
    match a.mode
    case InHeader(line) =>
      if c == '\n' then a.(mode := HeaderMode(kind, Stripped(line)))
      else a.(mode := InHeader(line + [c]), longest := Max(a.longest, |line| + 1))
    case InData(need) => a.(mode := if need == 0 then Failed else DataMode(kind, need - 1), body := a.body + [c])
    case AtCr => a.(mode := if c == '\r' then AtLf else Failed)
    case AtLf => a.(mode := if c == '\n' then InHeader("") else Failed)
    case InTrailer(line) =>
      if c == '\n' then TrailerLine(a, Stripped(line))
      else a.(mode := InTrailer(line + [c]), longest := Max(a.longest, |line| + 1))
    case Done => a
    case Failed => a
  }

  function FeedAll(kind: Kind, a: Scan, s: string): Scan
    decreases |s|
  {
    if s == "" then a else FeedAll(kind, Feed(kind, a, s[0]), s[1..])
  }

  /** Cutting the bytes into pieces makes no difference. */
  lemma {:induction false} FeedSplit(kind: Kind, a: Scan, s: string, t: string)
    ensures FeedAll(kind, a, s + t) == FeedAll(kind, FeedAll(kind, a, s), t)
    decreases |s|
  {
    if s == "" {
      assert s + t == t;
    } else {
      assert (s + t)[0] == s[0] && (s + t)[1..] == s[1..] + t;
      FeedSplit(kind, Feed(kind, a, s[0]), s[1..], t);
    }
  }

  lemma {:induction false} LongestGrows(kind: Kind, a: Scan, s: string)
    ensures a.longest <= FeedAll(kind, a, s).longest
    ensures a.mode == Failed ==> FeedAll(kind, a, s).mode == Failed
    decreases |s|
  {
    if s != "" {
      LongestGrows(kind, Feed(kind, a, s[0]), s[1..]);
    }
  }

  // ---------------------------------------------------------------- many bytes at once

  /** A mode that collects a line. */
  predicate InLine(m: Mode) {
    m.InHeader? || m.InTrailer?
  }

  lemma {:induction false} FeedPartOfLine(kind: Kind, a: Scan, x: string)
    requires InLine(a.mode) && '\n' !in x
    ensures var line := a.mode.line + x;
            FeedAll(kind, a, x) == a.(mode := if a.mode.InHeader? then InHeader(line) else InTrailer(line),
                                      longest := if x == "" then a.longest else Max(a.longest, |line|))
    decreases |x|
  {
    if x == "" {
      assert a.mode.line + x == a.mode.line;
    } else {
      assert x == [x[0]] + x[1..] && x[0] in x;
      assert a.mode.line + [x[0]] + x[1..] == a.mode.line + x;
      FeedPartOfLine(kind, Feed(kind, a, x[0]), x[1..]);
    }
  }

  lemma FeedLine(kind: Kind, a: Scan, x: string)
    requires InLine(a.mode) && '\n' !in x
    ensures var b := FeedAll(kind, a, x);
            FeedAll(kind, a, x + "\n") == if a.mode.InHeader?
              then b.(mode := HeaderMode(kind, Stripped(a.mode.line + x)))
              else TrailerLine(b, Stripped(a.mode.line + x))
  {
    FeedPartOfLine(kind, a, x);
    FeedSplit(kind, a, x, "\n");
    FeedOne(kind, FeedAll(kind, a, x), '\n');
  }

  lemma FeedOne(kind: Kind, a: Scan, c: char)
    ensures FeedAll(kind, a, [c]) == Feed(kind, a, c)
  {
    assert [c][1..] == "";
  }

  lemma {:induction false} FeedData(kind: Kind, a: Scan, n: nat, d: string)
    requires a.mode == DataMode(kind, n) && |d| <= n
    ensures FeedAll(kind, a, d) == a.(mode := DataMode(kind, n - |d|), body := a.body + d)
    decreases |d|
  {
    if d == "" {
      assert a.body + d == a.body;
    } else {
      assert a.body + [d[0]] + d[1..] == a.body + d;
      FeedData(kind, Feed(kind, a, d[0]), n - 1, d[1..]);
    }
  }

  lemma FeedTwo(kind: Kind, a: Scan, c: char, d: char)
    ensures FeedAll(kind, a, [c, d]) == Feed(kind, Feed(kind, a, c), d)
  {
    assert [c, d][1..] == [d];
    FeedOne(kind, Feed(kind, a, c), d);
  }

  // ---------------------------------------------------------------- the chunked coding (section 4.1 of RFC 7230)

  function HexDigit(d: nat): char
    requires d < 16
  {
    "0123456789abcdef"[d]
  }

  function Hex(n: nat): string {
    if n < 16 then [HexDigit(n)] else Hex(n / 16) + [HexDigit(n % 16)]
  }

  lemma DigitRoundTrip(d: nat)
    requires d < 16
    ensures DigitValue(HexDigit(d)) == Some(d) && HexDigit(d) !in {' ', '\r', '\n'}
  {
  }

  lemma {:induction false} HexRoundTrip(n: nat)
    requires n < U64
    ensures HexValue(Hex(n)) == Some(n) && Hex(n) != ""
    ensures forall i | 0 <= i < |Hex(n)| :: Hex(n)[i] !in {' ', '\r', '\n'}
  {
    hide DigitValue, HexDigit;
    DigitRoundTrip(n % 16);
    if n < 16 {
      assert Hex(n)[..0] == "";
    } else {
      HexRoundTrip(n / 16);
      ValueNext(Hex(n / 16), HexDigit(n % 16), n / 16, n % 16);
    }
  }

  lemma ValueNext(s: string, c: char, v: nat, d: nat)
    requires HexValue(s) == Some(v) && DigitValue(c) == Some(d)
    ensures HexValue(s + [c]) == Some((v * 16 + d) % U64)
  {
    hide DigitValue;
    assert (s + [c])[..|s|] == s;
  }

  function Pow16(k: nat): nat {
    if k == 0 then 1 else 16 * Pow16(k - 1)
  }

  lemma {:induction false} HexLength(n: nat, k: nat)
    requires n < Pow16(k) && k > 0
    ensures |Hex(n)| <= k
  {
    if n >= 16 {
      assert k > 1 by { assert Pow16(1) == 16; }
      HexLength(n / 16, k - 1);
    }
  }

  lemma HexIsShort(n: nat)
    requires n < U64
    ensures |Hex(n)| <= 16
  {
    assert Pow16(4) == 0x1_0000 && Pow16(8) == 0x1_0000_0000 && Pow16(12) == 0x1_0000_0000_0000 && Pow16(16) == U64;
    HexLength(n, 16);
  }

  /** One chunk as it is written. */
  function Frame(p: string): string {
    Hex(|p|) + "\r\n" + p + "\r\n"
  }

  function Frames(ps: seq<string>): string {
    if ps == [] then "" else Frames(ps[..|ps| - 1]) + Frame(ps[|ps| - 1])
  }

  function Concat(ps: seq<string>): string {
    if ps == [] then "" else Concat(ps[..|ps| - 1]) + ps[|ps| - 1]
  }

  lemma FramesNext(ps: seq<string>, p: string)
    ensures Frames(ps + [p]) == Frames(ps) + Frame(p) && Concat(ps + [p]) == Concat(ps) + p
  {
    assert (ps + [p])[..|ps|] == ps;
  }

  const LAST := "0\r\n"

  /** Chunks that can be sent: not empty, as an empty one ends the body. */
  ghost predicate Sendable(ps: seq<string>) {
    forall p | p in ps :: 0 < |p| < U64
  }

  lemma {:induction false} HeaderDecodes(a: Scan, n: nat)
    requires n < U64 && a.mode == InHeader("")
    ensures var b := FeedAll(Chunked, a, Hex(n) + "\r\n");
            b == a.(mode := if n == 0 then InTrailer("") else InData(n), longest := Max(a.longest, |Hex(n)| + 1))
  {
    hide HeaderMode;
    var x := Hex(n) + "\r";
    HexRoundTrip(n);
    assert '\n' !in x;
    assert Hex(n) + "\r\n" == x + "\n";
    FeedPartOfLine(Chunked, a, x);
    FeedLine(Chunked, a, x);
    assert "" + x == x && Stripped(x) == Hex(n);
    HexHeader(n);
  }

  lemma HexHeader(n: nat)
    requires n < U64
    ensures HeaderMode(Chunked, Hex(n)) == if n == 0 then InTrailer("") else InData(n)
  {
    hide Hex, HexValue, Find;
    HexRoundTrip(n);
    var l := Hex(n);
    assert Find(l, ' ') == |l| && l[..|l|] == l;
  }

  lemma {:induction false} FrameDecodes(a: Scan, p: string)
    requires 0 < |p| < U64 && a.mode == InHeader("")
    ensures FeedAll(Chunked, a, Frame(p)) == a.(body := a.body + p, longest := Max(a.longest, |Hex(|p|)| + 1))
  {
    hide Hex;
    var h := Hex(|p|) + "\r\n";
    HeaderDecodes(a, |p|);
    var b := FeedAll(Chunked, a, h);
    FeedData(Chunked, b, |p|, p);
    var c := FeedAll(Chunked, b, p);
    FeedSplit(Chunked, a, h, p);
    FeedSplit(Chunked, a, h + p, "\r\n");
    FeedTwo(Chunked, c, '\r', '\n');
    assert Frame(p) == h + p + "\r\n";
  }

  const START := Scan(InHeader(""), "", [], 0)

  lemma {:induction false} FramesDecode(ps: seq<string>)
    requires Sendable(ps)
    ensures var b := FeedAll(Chunked, START, Frames(ps));
            b.mode == InHeader("") && b.body == Concat(ps) && b.trailers == [] && b.longest <= 17
  {
    if ps != [] {
      var n := |ps| - 1;
      assert ps[n] in ps;
      FramesDecode(ps[..n]);
      FeedSplit(Chunked, START, Frames(ps[..n]), Frame(ps[n]));
      FrameDecodes(FeedAll(Chunked, START, Frames(ps[..n])), ps[n]);
      HexIsShort(|ps[n]|);
    }
  }

  // ---------------------------------------------------------------- trailer lines

  function HeaderLine(h: Header): string {
    h.name + ": " + h.value + "\r\n"
  }

  function HeaderLines(hs: seq<Header>): string {
    if hs == [] then "" else HeaderLines(hs[..|hs| - 1]) + HeaderLine(hs[|hs| - 1])
  }

  lemma LinesNext(hs: seq<Header>, h: Header)
    ensures HeaderLines(hs + [h]) == HeaderLines(hs) + HeaderLine(h)
  {
    assert (hs + [h])[..|hs|] == hs;
  }

  predicate Trimmed(s: string) {
    s != "" ==> !IsSpace(s[0]) && !IsSpace(s[|s| - 1])
  }

  /** A header that can be read back: a name without a colon, a value without outer spaces, one line, not too long. */
  predicate Clean(h: Header) {
    h.name != "" && ':' !in h.name && '\n' !in h.name && '\n' !in h.value && Trimmed(h.value) &&
      HeaderSize(h) < MAX_LINE
  }

  lemma {:induction false} TrimTrims(s: string)
    ensures Trimmed(Trim(s)) && (Trimmed(s) ==> Trim(s) == s) && forall c | c in Trim(s) :: c in s
    decreases |s|
  {
    if s != "" {
      if IsSpace(s[0]) {
        TrimTrims(s[1..]);
      } else if IsSpace(s[|s| - 1]) {
        TrimTrims(s[..|s| - 1]);
      }
    }
  }

  /** What the parser makes of a line can be written and read back, unless the name is empty. */
  lemma ParsedIsClean(l: string)
    requires '\n' !in l && Find(l, ':') < |l| && |l| + 1 < MAX_LINE
    ensures var i := Find(l, ':'); Clean(Header(l[..i], Trim(l[i + 1..]))) <==> i > 0
  {
    hide Trim, Find, Trimmed;
    var i := Find(l, ':');
    var n, v := l[..i], l[i + 1..];
    TrimTrims(v);
    TrimShorter(v);
    PartsOf(l, i);
    assert |n| + |v| + 1 == |l|;
  }

  lemma PartsOf(l: string, i: nat)
    requires i < |l| && '\n' !in l && forall j | 0 <= j < i :: l[j] != ':'
    ensures '\n' !in l[..i] && '\n' !in l[i + 1..] && ':' !in l[..i]
  {
    assert forall c | c in l[..i] :: c in l;
    assert forall c | c in l[i + 1..] :: c in l;
  }

  lemma {:induction false} TrimShorter(s: string)
    ensures |Trim(s)| <= |s|
    decreases |s|
  {
    if s != "" {
      if IsSpace(s[0]) {
        TrimShorter(s[1..]);
      } else if IsSpace(s[|s| - 1]) {
        TrimShorter(s[..|s| - 1]);
      }
    }
  }

  lemma {:induction false} FindFirst(name: string, rest: string)
    requires ':' !in name
    ensures Find(name + ":" + rest, ':') == |name|
    decreases |name|
  {
    var s := name + ":" + rest;
    if name != "" {
      assert s[0] == name[0] && s[1..] == name[1..] + ":" + rest;
      FindFirst(name[1..], rest);
    }
  }

  lemma {:induction false} LineDecodes(a: Scan, h: Header)
    requires a.mode == InTrailer("") && Clean(h) && Sizes(a.trailers + [h]) <= MAX_TRAILER
    ensures FeedAll(Chunked, a, HeaderLine(h)) == a.(trailers := a.trailers + [h],
              longest := Max(a.longest, HeaderSize(h) + 1))
  {
    hide Clean, HeaderLine, Trim, Find, Sizes, Stripped, FeedAll, HeaderSize;
    var l := h.name + ": " + h.value;
    var x := l + "\r";
    LineText(h, l, x);
    LineParts(h, l);
    FeedPartOfLine(Chunked, a, x);
    FeedLine(Chunked, a, x);
    assert "" + x == x;
  }

  lemma LineText(h: Header, l: string, x: string)
    requires Clean(h) && l == h.name + ": " + h.value && x == l + "\r"
    ensures HeaderLine(h) == x + "\n" && '\n' !in x && x != "" && Stripped(x) == l && |x| == HeaderSize(h) + 1
  {
    hide Trimmed;
    assert HeaderLine(h) == x + "\n";
    assert x[..|x| - 1] == l;
  }

  lemma LineParts(h: Header, l: string)
    requires Clean(h) && l == h.name + ": " + h.value
    ensures l != "" && Find(l, ':') == |h.name| < |l| && l[..|h.name|] == h.name && Trim(l[|h.name| + 1..]) == h.value
  {
    hide Trim, Find, Trimmed;
    var rest := " " + h.value;
    assert l == h.name + ":" + rest;
    FindFirst(h.name, rest);
    assert l[|h.name| + 1..] == rest;
    TrimLeads(h.value);
  }

  lemma TrimLeads(v: string)
    requires Trimmed(v)
    ensures Trim(" " + v) == v
  {
    assert (" " + v)[1..] == v;
    TrimTrims(v);
  }

  ghost predicate AllClean(hs: seq<Header>) {
    forall h | h in hs :: Clean(h)
  }

  lemma {:induction false} SizesGrow(hs: seq<Header>, n: nat)
    requires n <= |hs|
    ensures Sizes(hs[..n]) <= Sizes(hs)
  {
    if n < |hs| {
      var front := hs[..|hs| - 1];
      SizesGrow(front, n);
      assert front[..n] == hs[..n];
    } else {
      assert hs[..n] == hs;
    }
  }

  lemma {:induction false} LinesDecode(a: Scan, hs: seq<Header>)
    requires a.mode == InTrailer("") && a.trailers == [] && a.longest <= MAX_LINE && AllClean(hs)
    requires Sizes(hs) <= MAX_TRAILER
    ensures var b := FeedAll(Chunked, a, HeaderLines(hs));
            b.mode == InTrailer("") && b.trailers == hs && b.body == a.body && b.longest <= MAX_LINE
  {
    if hs == [] {
      assert a.trailers == hs;
    } else {
      hide Clean, HeaderLine, AllClean, HeaderLines, Sizes, FeedAll;
      var front, last := hs[..|hs| - 1], hs[|hs| - 1];
      LastOfClean(hs);
      SizesGrow(hs, |hs| - 1);
      LinesDecode(a, front);
      var b := FeedAll(Chunked, a, HeaderLines(front));
      LineDecodes(b, last);
      LinesNext(front, last);
      FeedSplit(Chunked, a, HeaderLines(front), HeaderLine(last));
      CleanIsShort(last);
    }
  }

  lemma LastOfClean(hs: seq<Header>)
    requires hs != [] && AllClean(hs)
    ensures var front, last := hs[..|hs| - 1], hs[|hs| - 1];
            AllClean(front) && Clean(last) && hs == front + [last]
  {
    hide Clean;
    assert hs[|hs| - 1] in hs && forall h | h in hs[..|hs| - 1] :: h in hs;
  }

  lemma CleanIsShort(h: Header)
    requires Clean(h)
    ensures HeaderSize(h) + 1 <= MAX_LINE
  {
  }

  // ---------------------------------------------------------------- the whole payload

  /** A payload as it is written. */
  function Stream(ps: seq<string>, hs: seq<Header>): string {
    Frames(ps) + LAST + HeaderLines(hs) + "\r\n"
  }

  /** A body in chunks and trailer lines that can be written and read back. */
  ghost predicate Writable(ps: seq<string>, hs: seq<Header>) {
    Sendable(ps) && AllClean(hs) && Sizes(hs) <= MAX_TRAILER
  }

  /** What the parser has read just before the last line. */
  lemma {:induction false} LastLine(ps: seq<string>, hs: seq<Header>)
    requires Writable(ps, hs)
    ensures var b := FeedAll(Chunked, START, Frames(ps) + LAST + HeaderLines(hs));
            b.mode == InTrailer("") && b.body == Concat(ps) && b.trailers == hs && b.longest <= MAX_LINE
  {
    hide Frames, Concat, HeaderLines, Sizes, AllClean;
    FramesDecode(ps);
    var a := FeedAll(Chunked, START, Frames(ps));
    HeaderDecodes(a, 0);
    assert Hex(0) + "\r\n" == LAST;
    FeedSplit(Chunked, START, Frames(ps), LAST);
    FeedSplit(Chunked, START, Frames(ps) + LAST, HeaderLines(hs));
    LinesDecode(FeedAll(Chunked, a, LAST), hs);
  }

  /** Everything that is written is read back: the same body, the same trailers, and the end is recognized. */
  lemma {:induction false} CodingRoundTrips(ps: seq<string>, hs: seq<Header>)
    requires Writable(ps, hs)
    ensures var b := FeedAll(Chunked, START, Stream(ps, hs));
            b.mode == Done && b.body == Concat(ps) && b.trailers == hs && b.longest <= MAX_LINE
  {
    hide Frames, Concat, HeaderLines, Writable;
    LastLine(ps, hs);
    var b := FeedAll(Chunked, START, Frames(ps) + LAST + HeaderLines(hs));
    FeedSplit(Chunked, START, Frames(ps) + LAST + HeaderLines(hs), "\r\n");
    FeedTwo(Chunked, b, '\r', '\n');
  }
}
