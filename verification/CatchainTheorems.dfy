/**
  What the receiver's invariant means. Every lemma holds in every state the receiver can reach,
  whatever blocks arrive, whichever sources fork, and however many blocks have fallen ill.
 */
module CatchainTheorems {
  import opened CatchainDag
  import opened CatchainState
  import opened CatchainTables

  /** The timestamp comparison on the receiver's own tables is reachability through prev/deps links. */
  lemma TimestampMeansReachable(cnt: nat, t: Table, q: seq<Id>, g: Dag, run: set<Id>, ev: seq<Event>,
                                blamed: set<nat>, a: Id, b: Id)
    requires TableInv(cnt, t, q, g, run) && EventsOk(cnt, ev, g, blamed)
    requires a in t.st && t.st[a] == Delivered && b in t.st && t.st[b] == Delivered && b != Root
    ensures a in t.clk && b in t.fork
    ensures Height(b) <= At(t.clk[a], t.fork[b]) <==> Reaches(g, a, b)
  {
    hide HealthOk, RevOk, PendingOk, QueueOk, NextOk, NextFrom, RunOk, Merged, EventsOk, DagOk, LinkOk;
    StreamGivesDagOf(cnt, ev, g, blamed);
    assert b in g;
    GraphNode(g, Order(ev), b);
    if a == Root {
      NoRoot(g, Order(ev));
      if Reaches(g, a, b) {
        RootReachesItself(g, b);
      }
    } else {
      assert a in g;
      ClockDecidesReachability(g, Order(ev), a, b);
    }
  }

  lemma GraphNode(g: Dag, order: seq<Id>, x: Id)
    requires DagOk(g, order) && x in g
    ensures NodeOk(x, g[x])
  {
  }

  /** `p` depends on `d`, or the source of `d` is blamed and `p` depends on another fork of it. */
  ghost predicate Refused(g: Dag, blamed: set<nat>, p: Id, d: Id) {
    || Reaches(g, p, d)
    || (d.Blk? && d.src in blamed && d in g && exists y ::
       y in g && SameSource(y, d) && g[y].fork != g[d].fork && Reaches(g, p, y))
  }

  /** A direct dependency disqualifies a block exactly when it is refused by the block's predecessor. */
  lemma RejectionMeans(cnt: nat, t: Table, q: seq<Id>, g: Dag, run: set<Id>, s: Book, total: nat, ev: seq<Event>,
                       p: Id, d: Id)
    requires TableInv(cnt, t, q, g, run) && BookInv(cnt, t.st, s, {}, {})
    requires ForkIdsOk(cnt, total, s.ids, t.fork) && EventsOk(cnt, ev, g, s.blamed)
    requires p in t.clk && p in t.st && t.st[p] == Delivered
    requires d in t.st && t.st[d] == Delivered && d != Root && d in t.fork && d.src < |s.ids|
    ensures DepRejected(t, s, p, d) <==> Refused(g, s.blamed, p, d)
  {
    hide HealthOk, RevOk, PendingOk, QueueOk, NextOk, NextFrom, RunOk, Merged, EventsOk, DagOk, LinkOk, SourcesOk,
         ReceivedOk, DeliveredOk, ClocksOk, TablesOk, ForkIdsOk, Reaches;
    assert d in g && g[d].fork == t.fork[d] by { GraphHas(cnt, t, g, d); }
    BookLength(cnt, t.st, s);
    TimestampMeansReachable(cnt, t, q, g, run, ev, s.blamed, p, d);
    if d.src in s.blamed {
      if i :| 0 <= i < |s.ids[d.src]| && s.ids[d.src][i] != t.fork[d] && At(t.clk[p], s.ids[d.src][i]) > 0 {
        var y := OtherForkReached(cnt, t, g, s, total, ev, p, d, i);
      }
      if y :| y in g && SameSource(y, d) && g[y].fork != g[d].fork && Reaches(g, p, y) {
        GraphHasNode(cnt, t, q, g, run, y);
        TimestampMeansReachable(cnt, t, q, g, run, ev, s.blamed, p, y);
        ForkListed(cnt, total, s.ids, t.fork, y);
        StreamGivesDagOf(cnt, ev, g, s.blamed);
        GraphNode(g, Order(ev), y);
      }
    }
  }

  /** So a block whose links are delivered passes exactly if no dependency is refused and its fork proof is one. */
  lemma PassingMeans(cnt: nat, incarnation: nat, sigOk: (Id, nat) -> bool, t: Table, q: seq<Id>, g: Dag, s: Book,
                     total: nat, ev: seq<Event>, known: map<Id, BlockState>, k: Link, pl: Payload)
    requires TableInv(cnt, t, q, g, {}) && BookInv(cnt, t.st, s, {}, {})
    requires ForkIdsOk(cnt, total, s.ids, t.fork) && EventsOk(cnt, ev, g, s.blamed)
    requires LinksDelivered(t.st, k) && LinksBooked(t, s, k)
    ensures Passing(cnt, incarnation, sigOk, t, s, known, k, pl) <==>
              && (forall d | d in k.deps :: !Refused(g, s.blamed, k.prev, d))
              && (pl.ForkProof? ==> ProofOk(cnt, incarnation, known, sigOk, pl.left, pl.right))
  {
    hide TableInv, BookInv, ForkIdsOk, EventsOk, Refused, ProofOk, DepRejected;
    forall i | 0 <= i < |k.deps|
      ensures DepRejected(t, s, k.prev, k.deps[i]) <==> Refused(g, s.blamed, k.prev, k.deps[i]) {
      assert IsLink(k, k.prev) && IsLink(k, k.deps[i]);
      RejectionMeans(cnt, t, q, g, {}, s, total, ev, k.prev, k.deps[i]);
    }
  }

  lemma GraphHas(cnt: nat, t: Table, g: Dag, d: Id)
    requires TablesOk(cnt, t.st, t.lk) && GraphOk(t.st, t.lk, t.clk, t.fork, g) && d in t.st
    requires t.st[d] == Delivered && d != Root
    ensures d in g && d in t.fork && g[d].fork == t.fork[d] && d in t.clk && g[d].vt == t.clk[d]
  {
  }

  lemma GraphHasNode(cnt: nat, t: Table, q: seq<Id>, g: Dag, run: set<Id>, y: Id)
    requires TableInv(cnt, t, q, g, run) && y in g
    ensures y in t.st && t.st[y] == Delivered && y != Root && y in t.fork && g[y].fork == t.fork[y]
  {
    hide HealthOk, RevOk, PendingOk, QueueOk, NextOk, NextFrom, RunOk, ClocksOk, LinkOk;
  }

  lemma ForkListed(cnt: nat, total: nat, ids: seq<seq<nat>>, fork: map<Id, nat>, y: Id)
    requires ForkIdsOk(cnt, total, ids, fork) && y in fork
    ensures y.Blk? && y.src < |ids| && exists i | 0 <= i < |ids[y.src]| :: ids[y.src][i] == fork[y]
  {
  }

  /** A non-zero entry for a fork of `d`'s source comes from a reached block of that source. */
  lemma OtherForkReached(cnt: nat, t: Table, g: Dag, s: Book, total: nat, ev: seq<Event>, p: Id, d: Id, i: nat)
    returns (y: Id)
    requires TablesOk(cnt, t.st, t.lk) && GraphOk(t.st, t.lk, t.clk, t.fork, g)
    requires ForkIdsOk(cnt, total, s.ids, t.fork) && EventsOk(cnt, ev, g, s.blamed)
    requires p in t.st && t.st[p] == Delivered && p in t.clk && d.Blk? && d.src < cnt
    requires i < |s.ids[d.src]| && At(t.clk[p], s.ids[d.src][i]) > 0
    ensures y in g && SameSource(y, d) && g[y].fork == s.ids[d.src][i] && Reaches(g, p, y)
  {
    hide EventsOk, DagOk, TablesOk;
    StreamGivesDagOf(cnt, ev, g, s.blamed);
    var order := Order(ev);
    assert p != Root;
    GraphHas(cnt, t, g, p);
    OrderHas(g, order, p);
    var j :| 0 <= j < |order| && order[j] == p;
    y := ClockHasWitness(g, order, j, s.ids[d.src][i]);
    ForkListed(cnt, total, s.ids, t.fork, y);
  }

  lemma OrderHas(g: Dag, order: seq<Id>, x: Id)
    requires DagOk(g, order) && x in g
    ensures exists j :: 0 <= j < |order| && order[j] == x
  {
  }

  /** A chain of links between known blocks, delivered or not. */
  ghost predicate LinkPath(lk: map<Id, Link>, p: seq<Id>) {
    |p| > 0 && forall i | 0 <= i < |p| - 1 :: p[i] in lk && IsLink(lk[p[i]], p[i + 1])
  }

  /** Whatever depends on an ill block, however indirectly, is ill; hence nothing delivered does. */
  lemma {:induction false} IllnessIsInherited(cnt: nat, t: Table, q: seq<Id>, g: Dag, run: set<Id>, p: seq<Id>)
    requires TableInv(cnt, t, q, g, run) && LinkPath(t.lk, p) && p[|p| - 1] in t.st && t.st[p[|p| - 1]] == Ill
    ensures p[0] in t.st && t.st[p[0]] == Ill
  {
    hide TablesOk, HealthOk, RevOk, PendingOk, QueueOk, ClocksOk, GraphOk, NextOk, NextFrom, RunOk;
    if |p| > 1 {
      assert LinkPath(t.lk, p[1..]);
      IllnessIsInherited(cnt, t, q, g, run, p[1..]);
      HealthAlongLink(t.st, t.lk, p[0], p[1]);
    }
  }

  /** Whatever a delivered block depends on, however indirectly, is delivered. */
  lemma {:induction false} DeliveryIsCausal(cnt: nat, t: Table, q: seq<Id>, g: Dag, run: set<Id>, p: seq<Id>)
    requires TableInv(cnt, t, q, g, run) && LinkPath(t.lk, p) && p[0] in t.st && t.st[p[0]] == Delivered
    ensures p[|p| - 1] in t.st && t.st[p[|p| - 1]] == Delivered
  {
    hide TablesOk, HealthOk, RevOk, PendingOk, QueueOk, ClocksOk, GraphOk, NextOk, NextFrom, RunOk;
    if |p| > 1 {
      assert LinkPath(t.lk, p[1..]);
      HealthAlongLink(t.st, t.lk, p[0], p[1]);
      DeliveryIsCausal(cnt, t, q, g, run, p[1..]);
    }
  }

  lemma HealthAlongLink(st: map<Id, BlockState>, lk: map<Id, Link>, x: Id, l: Id)
    requires HealthOk(st, lk, {}) && x in lk && IsLink(lk[x], l)
    ensures x in st && l in st && (st[l] == Ill ==> st[x] == Ill) && (st[x] == Delivered ==> st[l] == Delivered)
  {
  }

  /**
    The blocks of an unblamed source: one per height, none ill; those delivered are exactly the
    heights 1..dh, those up to rh have been received, and `dh <= rh`.
   */
  lemma UnblamedHeights(cnt: nat, t: Table, q: seq<Id>, g: Dag, run: set<Id>, s: Book, x: Id)
    requires TableInv(cnt, t, q, g, run) && BookInv(cnt, t.st, s, {}, {})
    requires x in t.st && x.Blk? && x.src < cnt && x.src !in s.blamed
    ensures |s.at| == |s.dh| == |s.rh| == |s.ids| == cnt && s.dh[x.src] <= s.rh[x.src]
    ensures x.height in s.at[x.src] && s.at[x.src][x.height] == x && t.st[x] != Ill
    ensures t.st[x] == Delivered <==> x.height <= s.dh[x.src]
    ensures x.height <= s.rh[x.src] ==> t.st[x] != None
  {
    hide TablesOk, HealthOk, RevOk, PendingOk, QueueOk, NextOk, NextFrom, RunOk, ClocksOk, GraphOk;
    var src := x.src;
    assert SourceOk(src, t.st, s.ids[src], s.at[src], s.dh[src], s.rh[src]);
    DeliveredIsPrefix(cnt, t.st, t.lk, s.blamed, s.ids, s.at, s.dh, s.rh, x);
    assert NotReceived(t.st, s.at[src], s.rh[src] + 1);
  }

  /** The delivered blocks of an unblamed source are linked one to the next and share one fork id. */
  lemma UnblamedSourceIsChain(cnt: nat, t: Table, q: seq<Id>, g: Dag, run: set<Id>, s: Book, total: nat, x: Id)
    requires TableInv(cnt, t, q, g, run) && BookInv(cnt, t.st, s, {}, {}) && ForkIdsOk(cnt, total, s.ids, t.fork)
    requires x in t.st && x.Blk? && x.src < cnt && x.src !in s.blamed && t.st[x] == Delivered
    ensures |s.at| == |s.ids| == cnt && x in t.fork && s.ids[x.src] == [t.fork[x]] && x in t.lk
    ensures x.height > 1 ==> x.height - 1 in s.at[x.src] && t.lk[x].prev == s.at[x.src][x.height - 1]
    ensures x.height == 1 ==> t.lk[x].prev == Root
  {
    hide HealthOk, RevOk, PendingOk, QueueOk, NextOk, NextFrom, RunOk, ClocksOk, ForkIdsOk, ReceivedOk, DeliveredOk,
         SourceOk,
         TablesOk;
    GraphHas(cnt, t, g, x);
    ForkListed(cnt, total, s.ids, t.fork, x);
    PrevKnown(cnt, t.st, t.lk, x);
    ChainLink(cnt, t.st, s, x, t.lk[x]);
  }

  lemma PrevKnown(cnt: nat, st: map<Id, BlockState>, lk: map<Id, Link>, x: Id)
    requires TablesOk(cnt, st, lk) && x in st && x != Root && st[x] != None
    ensures x in lk && LinkOk(x, lk[x]) && lk[x].prev in st && (lk[x].prev == Root || lk[x].prev.height > 0)
  {
    assert IsLink(lk[x], lk[x].prev);
  }

  lemma ChainLink(cnt: nat, st: map<Id, BlockState>, s: Book, x: Id, k: Link)
    requires SourcesOk(cnt, st, s.blamed, s.ids, s.at, s.dh, s.rh) && x.Blk? && x.src < cnt && x.src !in s.blamed
    requires LinkOk(x, k) && k.prev in st
    ensures |s.at| == |s.ids| == cnt && |s.ids[x.src]| <= 1
    ensures x.height > 1 ==> x.height - 1 in s.at[x.src] && k.prev == s.at[x.src][x.height - 1]
  {
    assert SourceOk(x.src, st, s.ids[x.src], s.at[x.src], s.dh[x.src], s.rh[x.src]);
  }

  /** A source with more than one fork id has been blamed, and no fork id belongs to two sources. */
  lemma ForkIdsAreUnique(cnt: nat, t: Table, s: Book, total: nat, x: Id, y: Id)
    requires BookInv(cnt, t.st, s, {}, {}) && ForkIdsOk(cnt, total, s.ids, t.fork)
    requires x in t.fork && y in t.fork && t.fork[x] == t.fork[y]
    ensures SameSource(x, y) && x.src < |s.ids| && (|s.ids[x.src]| > 1 ==> x.src in s.blamed)
  {
    hide ReceivedOk, DeliveredOk;
    ForkListed(cnt, total, s.ids, t.fork, x);
    ForkListed(cnt, total, s.ids, t.fork, y);
    if x.src !in s.blamed {
      assert SourceOk(x.src, t.st, s.ids[x.src], s.at[x.src], s.dh[x.src], s.rh[x.src]);
    }
  }
}
