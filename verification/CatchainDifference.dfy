/**
  Answering a neighbour that reports how far it has got with each source: which blocks it is sent.
 */
module CatchainDifference {
  import opened CatchainDag
  import opened CatchainState
  import opened CatchainTables
  import opened Numbers

  const MAX_SEND := 100

  /** How many blocks of a source the neighbour lacks; a negative height means it does not want any. */
  function Gap(vt: int, mine: nat): nat {
    if 0 <= vt < mine then mine - vt else 0
  }

  /** How many blocks are sent if at most `x` are sent for each of the first `n` sources. */
  function Sum(vt: seq<int>, dh: seq<nat>, x: nat, n: nat): nat
    requires n <= |vt| == |dh|
  {
    if n == 0 then 0 else Sum(vt, dh, x, n - 1) + Min(Gap(vt[n - 1], dh[n - 1]), x)
  }

  /** The number of sources, among the first `n`, of which the neighbour lacks blocks. */
  function Lagging(vt: seq<int>, dh: seq<nat>, n: nat): nat
    requires n <= |vt| == |dh|
  {
    if n == 0 then 0 else Lagging(vt, dh, n - 1) + if Gap(vt[n - 1], dh[n - 1]) > 0 then 1 else 0
  }

  datatype Answer =
    | BadSize
    | ForkFound(src: nat)
    | NoBlock(src: nat, height: int)
    | Sent(blocks: seq<Id>, vt: seq<int>)

  /** The blocks of the heights `from + 1 .. from + t`. */
  function Run(at: map<int, Id>, from: int, t: nat): seq<Id>
    requires forall h | from < h <= from + t :: h in at
  {
    seq(t, j requires 0 <= j < t => at[from + 1 + j])
  }

  /** Every block that is to be sent for the first `n` sources can be found. */
  ghost predicate Found(vt: seq<int>, dh: seq<nat>, at: seq<map<int, Id>>, r: nat, n: nat)
    requires n <= |vt| == |dh| == |at|
  {
    forall i, h | 0 <= i < n && vt[i] < h <= vt[i] + Min(Gap(vt[i], dh[i]), r) :: h in at[i]
  }

  /** What is sent for the first `n` sources: of each, the next consecutive blocks. */
  ghost function Blocks(vt: seq<int>, dh: seq<nat>, at: seq<map<int, Id>>, r: nat, n: nat): (b: seq<Id>)
    requires n <= |vt| == |dh| == |at| && Found(vt, dh, at, r, n)
    ensures |b| == Sum(vt, dh, r, n)
  {
    if n == 0 then [] else Blocks(vt, dh, at, r, n - 1) + Run(at[n - 1], vt[n - 1], Min(Gap(vt[n - 1], dh[n - 1]), r))
  }

  // ---------------------------------------------------------------- what that means

  /** The source and the height of each block that is sent. */
  ghost function Places(vt: seq<int>, dh: seq<nat>, r: nat, n: nat): (ps: seq<(nat, int)>)
    requires n <= |vt| == |dh|
    ensures |ps| == Sum(vt, dh, r, n)
  {
    if n == 0 then [] else
      Places(vt, dh, r, n - 1) +
        seq(Min(Gap(vt[n - 1], dh[n - 1]), r), j requires 0 <= j => (n - 1, vt[n - 1] + 1 + j))
  }

  /** Only heights that the neighbour lacks, of those at most the next `r` of each source. */
  lemma {:induction false} PlacesAreLacking(vt: seq<int>, dh: seq<nat>, r: nat, n: nat, k: nat)
    requires n <= |vt| == |dh| && k < |Places(vt, dh, r, n)|
    ensures var (i, h) := Places(vt, dh, r, n)[k];
            i < n && 0 <= vt[i] < h <= dh[i] && h <= vt[i] + r
  {
    if n > 0 && k < |Places(vt, dh, r, n - 1)| {
      PlacesAreLacking(vt, dh, r, n - 1, k);
    }
  }

  /** All of those. */
  lemma {:induction false} LackingIsPlaced(vt: seq<int>, dh: seq<nat>, r: nat, n: nat, i: nat, h: int)
    requires i < n <= |vt| == |dh| && 0 <= vt[i] < h <= dh[i] && h <= vt[i] + r
    ensures (i, h) in Places(vt, dh, r, n)
  {
    if i < n - 1 {
      LackingIsPlaced(vt, dh, r, n - 1, i, h);
    } else {
      var front := Places(vt, dh, r, n - 1);
      assert Places(vt, dh, r, n)[|front| + (h - vt[i] - 1)] == (i, h);
    }
  }

  /** Source by source and upwards. */
  lemma {:induction false} PlacesInOrder(vt: seq<int>, dh: seq<nat>, r: nat, n: nat, k: nat, l: nat)
    requires n <= |vt| == |dh| && k < l < |Places(vt, dh, r, n)|
    ensures var (p, q) := (Places(vt, dh, r, n)[k], Places(vt, dh, r, n)[l]); p.0 < q.0 || (p.0 == q.0 && p.1 < q.1)
  {
    var front := Places(vt, dh, r, n - 1);
    if l < |front| {
      PlacesInOrder(vt, dh, r, n - 1, k, l);
    } else if k < |front| {
      PlacesAreLacking(vt, dh, r, n - 1, k);
    }
  }

  lemma {:induction false} BlocksAtPlaces(vt: seq<int>, dh: seq<nat>, at: seq<map<int, Id>>, r: nat, n: nat, k: nat)
    requires n <= |vt| == |dh| == |at| && Found(vt, dh, at, r, n) && k < |Places(vt, dh, r, n)|
    ensures var (i, h) := Places(vt, dh, r, n)[k]; i < n && h in at[i] && Blocks(vt, dh, at, r, n)[k] == at[i][h]
  {
    if k < |Places(vt, dh, r, n - 1)| {
      BlocksAtPlaces(vt, dh, at, r, n - 1, k);
    }
  }

  /** The number of blocks that the neighbour lacks of the first `n` sources. */
  ghost function Lack(vt: seq<int>, dh: seq<nat>, n: nat): nat
    requires n <= |vt| == |dh|
  {
    if n == 0 then 0 else Lack(vt, dh, n - 1) + if 0 <= vt[n - 1] < dh[n - 1] then dh[n - 1] - vt[n - 1] else 0
  }

  lemma {:induction false} SumOfLack(vt: seq<int>, dh: seq<nat>, r: nat, n: nat)
    requires n <= |vt| == |dh|
    ensures Sum(vt, dh, r, n) <= Lack(vt, dh, n)
  {
    if n > 0 {
      SumOfLack(vt, dh, r, n - 1);
    }
  }

  lemma {:induction false} SumGrows(vt: seq<int>, dh: seq<nat>, x: nat, n: nat)
    requires n <= |vt| == |dh|
    ensures Sum(vt, dh, x, n) <= Sum(vt, dh, x + 1, n) <= Sum(vt, dh, x, n) + Lagging(vt, dh, n)
  {
    if n > 0 {
      SumGrows(vt, dh, x, n - 1);
    }
  }

  /** Each part of a sum is at most the sum. */
  lemma {:induction false} PartOfSum(vt: seq<int>, dh: seq<nat>, x: nat, n: nat, i: nat)
    requires i < n <= |vt| == |dh|
    ensures Min(Gap(vt[i], dh[i]), x) <= Sum(vt, dh, x, n)
  {
    if i < n - 1 {
      PartOfSum(vt, dh, x, n - 1, i);
    }
  }

  /** The count that the binary search settles on. */
  ghost predicate Settled(vt: seq<int>, dh: seq<nat>, r: nat)
    requires |vt| == |dh|
  {
    1 <= r <= MAX_SEND + 1 && Sum(vt, dh, r - 1, |vt|) <= MAX_SEND &&
      (r == MAX_SEND + 1 || Sum(vt, dh, r, |vt|) > MAX_SEND)
  }

  /**
    What settling means: the total exceeds the limit by no more than one block per lagging source, and
    either the limit is exceeded or every gap is closed.
   */
  lemma SettledMeans(vt: seq<int>, dh: seq<nat>, r: nat)
    requires |vt| == |dh| && Settled(vt, dh, r)
    ensures Sum(vt, dh, r, |vt|) <= MAX_SEND + Lagging(vt, dh, |vt|)
    ensures || Sum(vt, dh, r, |vt|) > MAX_SEND
            || forall i | 0 <= i < |vt| :: Min(Gap(vt[i], dh[i]), r) == Gap(vt[i], dh[i])
  {
    SumGrows(vt, dh, r - 1, |vt|);
    if Sum(vt, dh, r, |vt|) <= MAX_SEND {
      forall i | 0 <= i < |vt| ensures Min(Gap(vt[i], dh[i]), r) == Gap(vt[i], dh[i]) {
        PartOfSum(vt, dh, r, |vt|, i);
      }
    }
  }

  /** The heights of unblamed sources up to `dh` are all there, so nothing is ever missing for them. */
  lemma UnblamedAreFound(cnt: nat, st: map<Id, BlockState>, blamed: set<nat>, ids: seq<seq<nat>>,
                         at: seq<map<int, Id>>, dh: seq<nat>, rh: seq<nat>, vt: seq<int>, r: nat)
    requires SourcesOk(cnt, st, blamed, ids, at, dh, rh) && |vt| == cnt
    requires forall i | 0 <= i < cnt && Gap(vt[i], dh[i]) > 0 :: i !in blamed
    ensures Found(vt, dh, at, r, cnt)
    ensures forall i, h | 0 <= i < cnt && vt[i] < h <= vt[i] + Min(Gap(vt[i], dh[i]), r) ::
              at[i][h] in st && st[at[i][h]] == Delivered && at[i][h].Blk? && at[i][h].src == i && at[i][h].height == h
  {
    forall i, h | 0 <= i < cnt && vt[i] < h <= vt[i] + Min(Gap(vt[i], dh[i]), r)
      ensures h in at[i] && at[i][h] in st && st[at[i][h]] == Delivered && at[i][h].Blk?
      ensures at[i][h].src == i && at[i][h].height == h
    {
      assert SourceOk(i, st, ids[i], at[i], dh[i], rh[i]);
    }
  }

  /** Whatever has happened, the check on a block to be sent fails exactly if a height of a blamed source is missing. */
  lemma MissingIff(cnt: nat, st: map<Id, BlockState>, s: Book, vt: seq<int>, r: nat)
    requires BookInv(cnt, st, s, {}, {}) && |vt| == cnt
    ensures |s.dh| == |s.at| == cnt
    ensures !Found(vt, s.dh, s.at, r, cnt) <==>
              exists i, h :: 0 <= i < cnt && i in s.blamed && vt[i] < h <= vt[i] + Min(Gap(vt[i], s.dh[i]), r) &&
                h !in s.at[i]
  {
    hide ReceivedOk, DeliveredOk, ForksNamed;
    forall i, h | 0 <= i < cnt && vt[i] < h <= vt[i] + Min(Gap(vt[i], s.dh[i]), r) && i !in s.blamed
      ensures h in s.at[i] {
      assert SourceOk(i, st, s.ids[i], s.at[i], s.dh[i], s.rh[i]);
    }
  }

  /**
    It comes to that: the first blame clears the table of heights but not the delivered height. If no fork proof is
    known, because the source was blamed for an ill block, a neighbour that lacks a delivered block of it runs into
    the failing check, until a block of that height is named again.
   */
  lemma BlamedIsMissing(cnt: nat, st: map<Id, BlockState>, s: Book, src: nat, vt: seq<int>, r: nat)
    requires BookInv(cnt, st, s, {}, {}) && src < cnt == |vt| && src !in s.blamed && r > 0
    requires Gap(vt[src], s.dh[src]) > 0
    ensures |s.at| == cnt && src in Accused(s, src).blamed && src !in Accused(s, src).forkFound
    ensures Gap(vt[src], Accused(s, src).dh[src]) > 0 && !Found(vt, Accused(s, src).dh, Accused(s, src).at, r, cnt)
  {
    hide SourceOk;
    var h := vt[src] + 1;
    assert vt[src] < h <= vt[src] + Min(Gap(vt[src], s.dh[src]), r) && h !in Accused(s, src).at[src];
  }

  method Total(vt: seq<int>, dh: seq<nat>, x: nat) returns (sum: nat)
    requires |vt| == |dh|
    ensures sum == Sum(vt, dh, x, |vt|)
  {
    sum := 0;
    for i := 0 to |vt|
      invariant sum == Sum(vt, dh, x, i)
    {
      if vt[i] >= 0 && dh[i] > vt[i] {
        sum := sum + if dh[i] - vt[i] > x then x else dh[i] - vt[i];
      }
    }
  }

  /** The binary search for the number of blocks per source. */
  method Search(vt: seq<int>, dh: seq<nat>) returns (r: nat)
    requires |vt| == |dh|
    ensures Settled(vt, dh, r)
  {
    var l := 0;
    r := MAX_SEND + 1;
    SumZero(vt, dh, |vt|);
    while r - l > 1
      invariant 0 <= l < r <= MAX_SEND + 1
      invariant Sum(vt, dh, l, |vt|) <= MAX_SEND && (r == MAX_SEND + 1 || Sum(vt, dh, r, |vt|) > MAX_SEND)
    {
      var x := (r + l) / 2;
      var sum := Total(vt, dh, x);
      if sum > MAX_SEND {
        r := x;
      } else {
        l := x;
      }
    }
  }

  lemma {:induction false} SumZero(vt: seq<int>, dh: seq<nat>, n: nat)
    requires n <= |vt| == |dh|
    ensures Sum(vt, dh, 0, n) == 0
  {
    if n > 0 {
      SumZero(vt, dh, n - 1);
    }
  }

  /** Send `t` blocks from height `from + 1` on, stopping at the first one that is not there. */
  method SendRun(at: map<int, Id>, from: int, t: nat) returns (part: seq<Id>, to: int)
    ensures |part| <= t && forall h | from < h <= from + |part| :: h in at
    ensures part == Run(at, from, |part|)
    ensures if |part| < t then to == from + |part| + 1 && to !in at else to == from + t
  {
    part, to := [], from;
    while |part| < t
      invariant |part| <= t && to == from + |part| && forall h | from < h <= to :: h in at
      invariant part == Run(at, from, |part|)
      decreases t - |part|
    {
      to := to + 1;
      if to !in at {
        return;
      }
      part := part + [at[to]];
    }
  }

  /**
    The whole answer. With a found fork that is all it says. Otherwise, for the settled count `r`, the blocks at
    `pos` are sent: of each source that the neighbour wants and lags behind on, the next `r` heights or all it lacks.
   */
  method GetDifference(vt0: seq<int>, dh: seq<nat>, at: seq<map<int, Id>>, forkFound: set<nat>)
    returns (a: Answer, ghost r: nat, ghost pos: seq<(nat, int)>)
    requires |dh| == |at|
    ensures a.BadSize? <==> |vt0| != |dh|
    ensures |vt0| == |dh| ==>
              (a.ForkFound? <==> exists i :: 0 <= i < |vt0| && vt0[i] >= 0 && i in forkFound)
    ensures a.ForkFound? ==> a.src < |vt0| && vt0[a.src] >= 0 && a.src in forkFound
    ensures a.Sent? || a.NoBlock? ==> Settled(vt0, dh, r) && (a.Sent? <==> Found(vt0, dh, at, r, |vt0|))
    ensures a.NoBlock? ==>
              && a.src < |vt0| && 0 <= vt0[a.src] < a.height <= dh[a.src] && a.height <= vt0[a.src] + r
              && a.height !in at[a.src]
    ensures a.Sent? ==> |pos| == |a.blocks| && forall k | 0 <= k < |pos| ::
              && pos[k].0 < |vt0| && 0 <= vt0[pos[k].0] < pos[k].1 <= dh[pos[k].0] && pos[k].1 <= vt0[pos[k].0] + r
              && pos[k].1 in at[pos[k].0] && a.blocks[k] == at[pos[k].0][pos[k].1]
    ensures a.Sent? ==> forall k, l | 0 <= k < l < |pos| ::
              pos[k].0 < pos[l].0 || (pos[k].0 == pos[l].0 && pos[k].1 < pos[l].1)
    ensures a.Sent? ==> forall i: nat, h: int | i < |vt0| && 0 <= vt0[i] < h <= dh[i] && h <= vt0[i] + r ::
              (i, h) in pos
    ensures a.Sent? ==> |a.vt| == |vt0| && forall i | 0 <= i < |vt0| ::
              a.vt[i] == if 0 <= vt0[i] < dh[i] then (if dh[i] <= vt0[i] + r then dh[i] else vt0[i] + r) else vt0[i]
    ensures a.Sent? ==> |a.blocks| <= 100 + |vt0|
    ensures a.Sent? && (|a.blocks| <= 100 || Lack(vt0, dh, |vt0|) <= 100) ==>
              forall i | 0 <= i < |vt0| && 0 <= vt0[i] < dh[i] :: a.vt[i] == dh[i]
  {
    r, pos := 1, [];
    if |vt0| != |dh| {
      return BadSize, r, pos;
    }
    for i := 0 to |vt0|
      invariant forall j | 0 <= j < i :: vt0[j] < 0 || j !in forkFound
    {
      if vt0[i] >= 0 && i in forkFound {
        return ForkFound(i), r, pos;
      }
    }
    var n := Search(vt0, dh);
    r := n;
    a := SendAll(vt0, dh, at, n);
    if a.Sent? {
      pos := Places(vt0, dh, n, |vt0|);
      SentMeans(vt0, dh, at, n);
    }
  }

  lemma SentMeans(vt: seq<int>, dh: seq<nat>, at: seq<map<int, Id>>, r: nat)
    requires |vt| == |dh| == |at| && Settled(vt, dh, r) && Found(vt, dh, at, r, |vt|)
    ensures var pos, bs := Places(vt, dh, r, |vt|), Blocks(vt, dh, at, r, |vt|);
            && |bs| == |pos| && (forall k | 0 <= k < |pos| ::
                 && pos[k].0 < |vt| && 0 <= vt[pos[k].0] < pos[k].1 <= dh[pos[k].0] && pos[k].1 <= vt[pos[k].0] + r
                 && pos[k].1 in at[pos[k].0] && bs[k] == at[pos[k].0][pos[k].1])
            && (forall k, l | 0 <= k < l < |pos| ::
                  pos[k].0 < pos[l].0 || (pos[k].0 == pos[l].0 && pos[k].1 < pos[l].1))
            && (forall i: nat, h: int | i < |vt| && 0 <= vt[i] < h <= dh[i] && h <= vt[i] + r :: (i, h) in pos)
            && |bs| <= 100 + |vt|
    ensures Sum(vt, dh, r, |vt|) <= 100 || Lack(vt, dh, |vt|) <= 100 ==>
              forall i | 0 <= i < |vt| && 0 <= vt[i] < dh[i] :: dh[i] <= vt[i] + r
  {
    hide Settled, Places, Blocks, Sum, Lack;
    var n := |vt|;
    var pos, bs := Places(vt, dh, r, n), Blocks(vt, dh, at, r, n);
    forall k | 0 <= k < |pos|
      ensures pos[k].0 < n && 0 <= vt[pos[k].0] < pos[k].1 <= dh[pos[k].0] && pos[k].1 <= vt[pos[k].0] + r
      ensures pos[k].1 in at[pos[k].0] && bs[k] == at[pos[k].0][pos[k].1]
    {
      PlacesAreLacking(vt, dh, r, n, k);
      BlocksAtPlaces(vt, dh, at, r, n, k);
    }
    forall k, l | 0 <= k < l < |pos| ensures pos[k].0 < pos[l].0 || (pos[k].0 == pos[l].0 && pos[k].1 < pos[l].1) {
      PlacesInOrder(vt, dh, r, n, k, l);
    }
    forall i: nat, h: int | i < n && 0 <= vt[i] < h <= dh[i] && h <= vt[i] + r ensures (i, h) in Places(vt, dh, r, n) {
      LackingIsPlaced(vt, dh, r, n, i, h);
    }
    SumOfLack(vt, dh, r, n);
    SettledMeans(vt, dh, r);
    LaggingAtMost(vt, dh, n);
    forall i | 0 <= i < n && 0 <= vt[i] < dh[i] && Sum(vt, dh, r, n) <= 100 ensures dh[i] <= vt[i] + r {
      assert Min(Gap(vt[i], dh[i]), r) == Gap(vt[i], dh[i]);
    }
  }

  lemma {:induction false} LaggingAtMost(vt: seq<int>, dh: seq<nat>, n: nat)
    requires n <= |vt| == |dh|
    ensures Lagging(vt, dh, n) <= n
  {
    if n > 0 {
      LaggingAtMost(vt, dh, n - 1);
    }
  }

  method SendAll(vt0: seq<int>, dh: seq<nat>, at: seq<map<int, Id>>, n: nat) returns (a: Answer)
    requires |vt0| == |dh| == |at| && n > 0
    ensures a.Sent? || a.NoBlock?
    ensures a.Sent? <==> Found(vt0, dh, at, n, |vt0|)
    ensures a.NoBlock? ==>
              && a.src < |vt0| && 0 <= vt0[a.src] < a.height <= dh[a.src] && a.height <= vt0[a.src] + n
              && a.height !in at[a.src]
    ensures a.Sent? ==> a.blocks == Blocks(vt0, dh, at, n, |vt0|)
    ensures a.Sent? ==> |a.vt| == |vt0| && forall i | 0 <= i < |vt0| :: a.vt[i] == vt0[i] + Min(Gap(vt0[i], dh[i]), n)
  {
    var vt: seq<int> := vt0;
    var blocks := [];
    for i := 0 to |vt0|
      invariant |vt| == |vt0| && Found(vt0, dh, at, n, i) && blocks == Blocks(vt0, dh, at, n, i)
      invariant forall j | i <= j < |vt0| :: vt[j] == vt0[j]
      invariant forall j | 0 <= j < i :: vt[j] == vt0[j] + Min(Gap(vt0[j], dh[j]), n)
    {
      if vt[i] >= 0 && dh[i] > vt[i] {
        var t := if dh[i] - vt[i] > n then n else dh[i] - vt[i];
        assert t > 0;
        var part, to := SendRun(at[i], vt[i], t);
        vt := vt[i := to];
        if |part| < t {
          return NoBlock(i, to);
        }
        blocks := blocks + part;
      }
    }
    return Sent(blocks, vt);
  }
}
