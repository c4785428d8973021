/**
  Messages too large for one packet: they are sent in parts and put together again on the other side.
 */
module AdnlHuge {
  import opened Numbers
  import opened Options

  type Byte = b: int | 0 <= b < 256
  type Bytes = seq<Byte>

  const PART := 1024
  const HUGE_MAX := 1024 * 8 + 128

  /** A part of a message of `total` bytes with hash `hash`; 0 stands for the zero hash. */
  datatype Part = Part(hash: nat, total: nat, offset: nat, data: Bytes)

  // ---------------------------------------------------------------- splitting

  /** Where the `i`-th part starts. */
  function At(i: nat): nat {
    1024 * i
  }

  /** The number of parts of a message of `n` bytes. */
  function Count(n: nat): nat {
    (n + 1023) / 1024
  }

  /** The `i`-th part of `msg`. */
  function PartOf(msg: Bytes, hash: nat, i: nat): Part
    requires At(i) <= |msg|
  {
    Part(hash, |msg|, At(i), msg[At(i)..Min(At(i + 1), |msg|)])
  }

  /** `ps` are the first parts of `msg`. */
  ghost predicate FirstParts(msg: Bytes, hash: nat, ps: seq<Part>) {
    forall i {:trigger ps[i]} | 0 <= i < |ps| :: At(i) < |msg| && ps[i] == PartOf(msg, hash, i)
  }

  /** The data of the parts, in order, is the message. */
  method Split(msg: Bytes, hash: nat) returns (ps: seq<Part>)
    ensures |ps| == Count(|msg|) && FirstParts(msg, hash, ps)
    ensures Join(ps) == msg
  {
    hide Join, FirstParts, Count;
    ps := [];
    SplitStart(msg, hash);
    var rest, offset, size := msg, 0, |msg|;
    while offset < size
      invariant offset == At(|ps|) < size + 1024 && rest == msg[Min(offset, size)..]
      invariant FirstParts(msg, hash, ps)
      invariant Join(ps) == msg[..Min(offset, size)]
      decreases size + 1024 - offset
    {
      var data := rest;
      if |data| > PART {
        data := data[..PART];
      }
      rest := rest[|data|..];
      SplitNext(msg, hash, ps, offset, offset + |data|, data);
      ps := ps + [Part(hash, size, offset, data)];
      offset := offset + PART;
    }
    SplitCount(size, |ps|);
  }

  lemma SplitNext(msg: Bytes, hash: nat, ps: seq<Part>, at: nat, end: nat, data: Bytes)
    requires FirstParts(msg, hash, ps) && at == At(|ps|) < |msg| && Join(ps) == msg[..at]
    requires end == Min(At(|ps| + 1), |msg|) && at <= end && data == msg[at..end]
    ensures FirstParts(msg, hash, ps + [Part(hash, |msg|, at, data)])
    ensures Join(ps + [Part(hash, |msg|, at, data)]) == msg[..end]
  {
    hide Join, At, FirstParts;
    var p := Part(hash, |msg|, at, data);
    JoinNext(ps, p);
    assert msg[..at] + data == msg[..end];
    FirstPartsNext(msg, hash, ps, p);
  }

  lemma FirstPartsNext(msg: Bytes, hash: nat, ps: seq<Part>, p: Part)
    requires FirstParts(msg, hash, ps) && At(|ps|) < |msg| && p == PartOf(msg, hash, |ps|)
    ensures FirstParts(msg, hash, ps + [p])
  {
    hide PartOf, At;
    var qs := ps + [p];
    forall i {:trigger qs[i]} | 0 <= i < |qs| ensures At(i) < |msg| && qs[i] == PartOf(msg, hash, i) {
      assert i < |ps| ==> qs[i] == ps[i];
    }
  }

  lemma SplitStart(msg: Bytes, hash: nat)
    ensures FirstParts(msg, hash, []) && Join([]) == msg[..0]
  {
  }

  lemma SplitCount(n: nat, k: nat)
    requires n <= At(k) < n + 1024
    ensures k == Count(n)
  {
  }

  function Join(ps: seq<Part>): Bytes {
    if ps == [] then [] else Join(ps[..|ps| - 1]) + ps[|ps| - 1].data
  }

  lemma JoinNext(ps: seq<Part>, p: Part)
    ensures Join(ps + [p]) == Join(ps) + p.data
  {
    assert (ps + [p])[..|ps|] == ps;
  }

  // ---------------------------------------------------------------- the receiving side, on values

  /** What the receiver keeps: the hash of the message under way (0 if none), its buffer, and how much of it is
      filled. */
  datatype State = State(hash: nat, buf: Bytes, offset: nat)

  /** Forget the message under way unless the part belongs to it; a first part starts another. */
  function Begin(s: State, p: Part): State {
    if p.hash == s.hash then s
    else if p.offset == 0 then State(p.hash, Blank(p.total), 0)
    else State(0, [], 0)
  }

  /** A new buffer. */
  function Blank(n: nat): (b: Bytes)
    ensures |b| == n
  {
    seq(n, _ => 0)
  }

  /** The part can be appended: it names the message under way, fits, and starts where the buffer is filled to. */
  predicate Appends(s: State, p: Part) {
    p.hash == s.hash && |p.data| + p.offset <= p.total == |s.buf| && p.offset == s.offset
  }

  /** The buffer with `data` copied in at `at`. */
  function Copied(buf: Bytes, at: nat, data: Bytes): (b: Bytes)
    requires at + |data| <= |buf|
    ensures |b| == |buf|
  {
    buf[..at] + data + buf[at + |data|..]
  }

  /** One part: the next state, and the message if it is complete and has the announced hash. */
  function Next(sha: Bytes -> nat, s: State, p: Part): (State, Option<Bytes>) {
    if p.total > HUGE_MAX || p.hash == 0 then (s, None)
    else
      var t := Begin(s, p);
      if !Appends(t, p) then (t, None)
      else
        var buf, offset := Copied(t.buf, t.offset, p.data), t.offset + |p.data|;
        if offset < |buf| || sha(buf) != t.hash then (State(t.hash, buf, offset), None)
        else (State(0, [], 0), Some(buf))
  }

  /** The buffer is `buf`, filled up to `n`; once it is full, it is delivered if it has the right hash. */
  ghost predicate Filled(sha: Bytes -> nat, buf: Bytes, n: nat, hash: nat, s: State, m: Option<Bytes>) {
    if n == |buf| && sha(buf) == hash then m == Some(buf) && s == State(0, [], 0)
    else m == None && s == State(hash, buf, n)
  }

  /**
    A part without a hash or of too large a message is ignored. A part of another message ends the one under way, and
    starts its own if it is the first. A part of the message under way counts if it continues what is there.
   */
  lemma NextMeans(sha: Bytes -> nat, s: State, p: Part)
    ensures var (t, m) := Next(sha, s, p);
            if p.total > 8320 || p.hash == 0 then t == s && m == None
            else if p.hash != s.hash && p.offset != 0 then t == State(0, [], 0) && m == None
            else if p.hash != s.hash && |p.data| > p.total then t == State(p.hash, Blank(p.total), 0) && m == None
            else if p.hash != s.hash then
              Filled(sha, p.data + Blank(p.total - |p.data|), |p.data|, p.hash, t, m)
            else if p.total != |s.buf| || p.offset != s.offset || p.offset + |p.data| > p.total then t == s && m == None
            else Filled(sha, s.buf[..p.offset] + p.data + s.buf[p.offset + |p.data|..], p.offset + |p.data|, p.hash,
              t, m)
  {
    if p.hash != s.hash && p.offset == 0 && |p.data| <= p.total {
      var b := Blank(p.total);
      assert b[..0] + p.data + b[|p.data|..] == p.data + Blank(p.total - |p.data|);
    }
  }

  /** The messages delivered from a sequence of parts. */
  function Delivered(sha: Bytes -> nat, s: State, ps: seq<Part>): seq<Bytes>
    decreases ps
  {
    if ps == [] then [] else
      var (t, m) := Next(sha, s, ps[0]);
      (if m.Some? then [m.value] else []) + Delivered(sha, t, ps[1..])
  }

  // ---------------------------------------------------------------- the class

  class Assembler {
    const sha: Bytes -> nat
    var hash: nat
    var buf: array<Byte>
    var offset: nat

    ghost predicate Valid()
      reads this, buf
    {
      offset <= buf.Length
    }

    ghost function Model(): State
      reads this, buf
    {
      State(hash, buf[..], offset)
    }

    constructor (sha: Bytes -> nat)
      ensures Valid() && Model() == State(0, [], 0) && this.sha == sha && fresh(buf)
    {
      this.sha := sha;
      hash, offset := 0, 0;
      buf := new Byte[0];
    }

    method Clear()
      modifies this
      ensures Model() == State(0, [], 0) && fresh(buf)
    {
      hash, offset := 0, 0;
      buf := new Byte[0];
    }

    /** Copy `data` into the buffer at the current offset; all writes stay within it. */
    method Append(data: Bytes)
      requires Valid() && offset + |data| <= buf.Length
      modifies this`offset, buf
      ensures Valid() && Model() == State(hash, Copied(old(buf[..]), old(offset), data), old(offset) + |data|)
    {
      var start := offset;
      for i := 0 to |data|
        invariant start + |data| <= buf.Length && offset == start
        invariant forall k | 0 <= k < start || start + i <= k < buf.Length :: buf[k] == old(buf[k])
        invariant forall k | 0 <= k < i :: buf[start + k] == data[k]
        modifies buf
      {
        buf[start + i] := data[i];
      }
      assert forall k | start <= k < start + |data| :: buf[k] == data[k - start] by {
        forall k | start <= k < start + |data| ensures buf[k] == data[k - start] {
          assert buf[start + (k - start)] == data[k - start];
        }
      }
      assert buf[..] == Copied(old(buf[..]), start, data);
      offset := offset + |data|;
    }

    method ProcessPart(p: Part) returns (m: Option<Bytes>)
      requires Valid()
      modifies this, buf
      ensures Valid() && (Model(), m) == Next(sha, old(Model()), p)
      ensures m.Some? ==> sha(m.value) == p.hash
    {
      m := None;
      if p.total > HUGE_MAX {
        return;
      }
      if p.hash == 0 {
        return;
      }
      if p.hash != hash {
        Clear();
        if p.offset == 0 {
          hash := p.hash;
          buf := new Byte[p.total](_ => 0);
        } else {
          return;
        }
        assert buf[..] == Blank(p.total);
      }
      if |p.data| + p.offset > p.total {
        return;
      }
      if p.total != buf.Length {
        return;
      }
      if p.offset == offset {
        Append(p.data);
        if offset == buf.Length {
          assert buf[..] == Model().buf;
          if sha(buf[..]) != hash {
            return;
          }
          m := Some(buf[..]);
          Clear();
        }
      }
    }
  }

  // ---------------------------------------------------------------- what comes out

  /** Whatever parts come in, whatever is delivered has the announced hash of one of them. */
  lemma {:induction false} DeliveredMatches(sha: Bytes -> nat, s: State, ps: seq<Part>)
    ensures forall m | m in Delivered(sha, s, ps) :: exists p :: p in ps && p.hash == sha(m)
    decreases ps
  {
    if ps != [] {
      var (t, m) := Next(sha, s, ps[0]);
      DeliveredMatches(sha, t, ps[1..]);
      forall d | d in Delivered(sha, s, ps) ensures exists p :: p in ps && p.hash == sha(d) {
        if m.Some? && d == m.value {
          assert ps[0].hash == sha(d);
        } else {
          assert d in Delivered(sha, t, ps[1..]);
          var p :| p in ps[1..] && p.hash == sha(d);
          assert p in ps;
        }
      }
    }
  }

  /** The first `i` parts of `msg` have been put together, or, for `i == 0`, none. */
  ghost predicate Progress(sha: Bytes -> nat, msg: Bytes, s: State, i: nat) {
    if i == 0 then s.hash != sha(msg)
    else && s.hash == sha(msg) && i < Count(|msg|) && |s.buf| == |msg| && s.offset == At(i)
         && s.buf[..At(i)] == msg[..At(i)]
  }

  /** A genuine part either continues the message, or is ignored. */
  lemma GenuineStep(sha: Bytes -> nat, msg: Bytes, s: State, i: nat, j: nat)
    requires 0 < |msg| <= 8320 && sha(msg) != 0 && Progress(sha, msg, s, i) && At(j) < |msg|
    ensures var (t, m) := Next(sha, s, PartOf(msg, sha(msg), j));
            if i != j then m == None && Progress(sha, msg, t, i)
            else if i + 1 < Count(|msg|) then m == None && Progress(sha, msg, t, i + 1)
            else m == Some(msg) && Progress(sha, msg, t, 0)
  {
    var p := PartOf(msg, sha(msg), j);
    var t := Begin(s, p);
    assert At(i) == p.offset <==> i == j;
    if i == j {
      var e := Min(At(i + 1), |msg|);
      assert t.offset == At(i) && t.buf[..At(i)] == msg[..At(i)];
      assert Copied(t.buf, t.offset, p.data)[..e] == msg[..e];
      if i + 1 >= Count(|msg|) {
        assert e == |msg|;
        assert Copied(t.buf, t.offset, p.data) == Copied(t.buf, t.offset, p.data)[..e];
        assert msg[..e] == msg;
      }
    }
  }

  /** `js` contains `i, i + 1, ..., n - 1` in this order, with anything in between. */
  ghost predicate Contains(js: seq<nat>, i: nat, n: nat)
    decreases |js|
  {
    i >= n || (js != [] && Contains(js[1..], if js[0] == i then i + 1 else i, n))
  }

  function Parts(msg: Bytes, hash: nat, js: seq<nat>): (ps: seq<Part>)
    requires forall k {:trigger js[k]} | 0 <= k < |js| :: At(js[k]) < |msg|
    ensures |ps| == |js|
  {
    if js == [] then [] else [PartOf(msg, hash, js[0])] + Parts(msg, hash, js[1..])
  }

  /**
    Genuine parts `js` of one message, in any order and number: only that message is ever delivered,
    and it is delivered if the parts still missing come in order, whatever else comes in between.
   */
  lemma {:induction false} Reassembles(sha: Bytes -> nat, msg: Bytes, s: State, i: nat, js: seq<nat>)
    requires 0 < |msg| <= 8320 && sha(msg) != 0 && Progress(sha, msg, s, i) && i < Count(|msg|)
    requires forall k {:trigger js[k]} | 0 <= k < |js| :: At(js[k]) < |msg|
    ensures forall m | m in Delivered(sha, s, Parts(msg, sha(msg), js)) :: m == msg
    ensures Contains(js, i, Count(|msg|)) ==> Delivered(sha, s, Parts(msg, sha(msg), js)) != []
    decreases js
  {
    if js != [] {
      var ps := Parts(msg, sha(msg), js);
      var (t, m) := Next(sha, s, ps[0]);
      assert ps[1..] == Parts(msg, sha(msg), js[1..]);
      GenuineStep(sha, msg, s, i, js[0]);
      var k := if i != js[0] then i else if i + 1 < Count(|msg|) then i + 1 else 0;
      Reassembles(sha, msg, t, k, js[1..]);
    }
  }

  /** Splitting and putting together again gives back the message, once, from any state that is not in the middle of
      it. */
  lemma RoundTrip(sha: Bytes -> nat, msg: Bytes, s: State, ps: seq<Part>)
    requires 0 < |msg| <= 8320 && sha(msg) != 0 && s.hash != sha(msg)
    requires |ps| == Count(|msg|) && FirstParts(msg, sha(msg), ps)
    ensures Delivered(sha, s, ps) == [msg]
  {
    assert ps[0..] == ps;
    InOrder(sha, msg, s, ps, 0);
  }

  lemma {:induction false} InOrder(sha: Bytes -> nat, msg: Bytes, s: State, ps: seq<Part>, i: nat)
    requires 0 < |msg| <= 8320 && sha(msg) != 0 && Progress(sha, msg, s, i) && i < |ps|
    requires |ps| == Count(|msg|) && FirstParts(msg, sha(msg), ps)
    ensures Delivered(sha, s, ps[i..]) == [msg]
    decreases |ps| - i
  {
    GenuineStep(sha, msg, s, i, i);
    var (t, m) := Next(sha, s, ps[i]);
    assert ps[i..][0] == ps[i] && ps[i..][1..] == ps[i + 1..];
    if i + 1 < |ps| {
      InOrder(sha, msg, t, ps, i + 1);
    }
  }
}
