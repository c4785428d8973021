/** What the invariant of the layer above the receiver means, and when its top blocks are exact. */
module CatchainTopTheorems {
  import opened CatchainDag
  import opened CatchainTop
  import opened CatchainChain

  // ---------------------------------------------------------------- what the top blocks promise

  /** The top blocks: one per foreign source, unprocessed, none depending on another, none known to the local source. */
  lemma TopIsAntichain(cnt: nat, local: nat, ev: seq<Event>, g: Dag, blamed: set<nat>, tips: map<nat, Id>,
                       top: set<Id>, processed: set<Id>, sent: seq<Id>, a: Id)
    requires ChainInv(cnt, local, ev, g, blamed, tips, top, processed, sent) && Exact(ev) && a in top
    ensures a in g && a.Blk? && a.src != local && a.src !in blamed && a !in processed
    ensures forall i | i in tips && i != a.src :: !Reaches(g, tips[i], a)
    ensures forall b | b in top && b != a :: b.Blk? && b.src != a.src && !Reaches(g, b, a)
  {
    hide DagOk, Reaches, Exact, StreamInv, SentOk;
    StreamDag(cnt, ev, g, blamed);
    DominatedMeans(cnt, g, Order(ev), blamed, tips, a.src);
  }

  /**
    Exactly when the incremental update agrees with the formula: the new block's clock covers no top
    block other than those it links to directly.
   */
  lemma TopStepIsExactIff(cnt: nat, g: Dag, order: seq<Id>, blamed: set<nat>, tips: map<nat, Id>, processed: set<Id>,
                          local: nat, x: Id, n: Node)
    requires DagOk(g, order) && TipsOk(cnt, g, blamed, tips)
    requires Admissible(cnt, g, blamed, NewBlock(x, n)) && Closed(g, processed)
    requires x.src !in blamed
    ensures TipsOk(cnt, g[x := n], blamed, tips[x.src := x])
    ensures TopOf(g[x := n], tips[x.src := x], processed, local)
              == TopOf(g, tips, processed, local) - Superseded(blamed, x, n) + Entering(blamed, local, x)
            <==> forall b | b in TopOf(g, tips, processed, local) - Superseded(blamed, x, n) ::
              !IsDescendantOf(n, g[b], Height(b))
  {
    hide DagOk, SameSource, CanExtend, Closed, Dominated, IsDescendantOf;
    TopAfterNew(cnt, g, order, blamed, tips, processed, local, x, n);
    PrevIsTip(cnt, g, order, blamed, tips, x, n);
    NewIsTop(cnt, g, order, blamed, tips, processed, local, x, n);
    PrevSource(cnt, g, blamed, x, n);
    forall i | i in tips && i != x.src && IsTop(g, tips, processed, local, i)
      ensures IsTop(g[x := n], tips[x.src := x], processed, local, i) <==>
                !IsDescendantOf(n, g[tips[i]], Height(tips[i]))
    {
      TopStays(cnt, g, blamed, tips, processed, local, x, n, i);
    }
  }

  lemma TopStays(cnt: nat, g: Dag, blamed: set<nat>, tips: map<nat, Id>, processed: set<Id>, local: nat, x: Id,
                 n: Node, i: nat)
    requires TipsOk(cnt, g, blamed, tips) && x !in g && x.Blk? && i in tips && i != x.src
    requires IsTop(g, tips, processed, local, i)
    ensures IsTop(g[x := n], tips[x.src := x], processed, local, i) <==> !IsDescendantOf(n, g[tips[i]], Height(tips[i]))
  {
    hide IsDescendantOf;
    var g', tips' := g[x := n], tips[x.src := x];
    assert g'[tips'[x.src]] == n && g'[tips'[i]] == g[tips[i]];
    assert forall j | j in tips' && j != x.src :: g'[tips'[j]] == g[tips[j]];
  }

  /**
    The agreement can fail: source 2 links to a block of the blamed source 3 whose past holds source 1's tip `a`. Then
    both tips stay top blocks, though one depends on the other.
   */
  lemma TopCanBeStale() returns (ev: seq<Event>, x: Id, n: Node, tips: map<nat, Id>, a: Id)
    ensures StreamOk(4, ev + [NewBlock(x, n)]) && x.Blk? && x.src !in BlamedOf(ev)
    ensures TipsOk(4, DagOf(ev), BlamedOf(ev), tips)
    ensures TipsOk(4, DagOf(ev)[x := n], BlamedOf(ev), tips[x.src := x])
    ensures TopOf(DagOf(ev)[x := n], tips[x.src := x], {}, 0)
              != TopOf(DagOf(ev), tips, {}, 0) - Superseded(BlamedOf(ev), x, n) + Entering(BlamedOf(ev), 0, x)
    ensures a != x && Reaches(DagOf(ev)[x := n], x, a)
    ensures {a, x} <= TopOf(DagOf(ev), tips, {}, 0) - Superseded(BlamedOf(ev), x, n) + Entering(BlamedOf(ev), 0, x)
  {
    hide StreamOk, Exact, DagOk, Admissible, DagOf, BlamedOf, Order, TopOf, TipsOk;
    a := Blk(1, 1, 0);
    var na := Node(Root, [], 1, [0, 1]);
    var b, nb := Blk(3, 1, 0), Node(Root, [a], 2, [0, 1, 1]);
    x, n, tips := Blk(2, 1, 0), Node(Root, [b], 3, [0, 1, 1, 1]), map[1 := a];
    var g1 := map[a := na];
    var g2 := g1[b := nb];
    ev := [NewBlock(a, na), NewBlock(b, nb), Blame(3)];
    assert ev == [] + [NewBlock(a, na)] + [NewBlock(b, nb)] + [Blame(3)];
    StaleStream(a, na, b, nb, x, n, g1, g2, ev);
    StreamDag(4, ev, g2, {3});
    StreamBlock(4, ev, g2, {3}, x, n);
    StaleTop(g2, tips, a, na, b, nb);
    TopStepIsExactIff(4, g2, Order(ev), {3}, tips, {}, 0, x, n);
    assert a in TopOf(g2, tips, {}, 0) - Superseded({3}, x, n);
    StaleReach(g2[x := n], a, b, x);
  }

  lemma StaleReach(g: Dag, a: Id, b: Id, x: Id)
    requires x in g && b in g && b in Links(g[x]) && a in Links(g[b])
    ensures Reaches(g, x, a)
  {
    ReachesSelf(g, a);
    ReachesVia(g, b, a, a);
    ReachesVia(g, x, b, a);
  }

  lemma StaleStream(a: Id, na: Node, b: Id, nb: Node, x: Id, n: Node, g1: Dag, g2: Dag, ev: seq<Event>)
    requires a == Blk(1, 1, 0) && na == Node(Root, [], 1, [0, 1]) && b == Blk(3, 1, 0)
    requires nb == Node(Root, [a], 2, [0, 1, 1])
    requires x == Blk(2, 1, 0) && n == Node(Root, [b], 3, [0, 1, 1, 1])
    requires g1 == map[a := na] && g2 == g1[b := nb] && ev == [] + [NewBlock(a, na)] + [NewBlock(b, nb)] + [Blame(3)]
    ensures StreamInv(4, ev, g2, {3}) && Admissible(4, g2, {3}, NewBlock(x, n))
  {
    var none: Dag := map[];
    assert Admissible(4, none, {}, NewBlock(a, na)) && StreamInv(4, [], none, {});
    hide StreamInv, Admissible, Exact, Order;
    StreamBlock(4, [], none, {}, a, na);
    assert none[a := na] == g1 && {} + {3} == {3};
    StaleSecond(a, na, b, nb, g1);
    StreamBlock(4, [] + [NewBlock(a, na)], g1, {}, b, nb);
    StreamBlame(4, [] + [NewBlock(a, na)] + [NewBlock(b, nb)], g2, {}, 3);
    StaleThird(b, nb, x, n, g2);
  }

  lemma StaleSecond(a: Id, na: Node, b: Id, nb: Node, g1: Dag)
    requires a == Blk(1, 1, 0) && na == Node(Root, [], 1, [0, 1]) && b == Blk(3, 1, 0)
    requires nb == Node(Root, [a], 2, [0, 1, 1]) && g1 == map[a := na]
    ensures Admissible(4, g1, {}, NewBlock(b, nb))
  {
    assert Links(nb) == {Root, a};
  }

  lemma StaleThird(b: Id, nb: Node, x: Id, n: Node, g2: Dag)
    requires b == Blk(3, 1, 0) && nb.vt == [0, 1, 1] && nb.fork == 2 && b in g2 && g2[b] == nb
    requires forall y | y in g2 :: y.Blk? && y.src != 2 && g2[y].fork < 3
    requires x == Blk(2, 1, 0) && n == Node(Root, [b], 3, [0, 1, 1, 1]) && Root !in g2
    ensures Admissible(4, g2, {3}, NewBlock(x, n))
  {
    assert Links(n) == {Root, b};
  }

  lemma StaleTop(g2: Dag, tips: map<nat, Id>, a: Id, na: Node, b: Id, nb: Node)
    requires a == Blk(1, 1, 0) && b == Blk(3, 1, 0) && tips == map[1 := a] && g2 == map[a := na, b := nb]
    ensures TipsOk(4, g2, {3}, tips) && a in TopOf(g2, tips, {}, 0)
  {
    assert IsTop(g2, tips, {}, 0, 1);
    assert tips[1] == a;
  }

  /** Each callback comes after the callbacks of all ancestors. */
  lemma CallbacksFollowAncestors(g: Dag, order: seq<Id>, sent: seq<Id>, j: nat, y: Id)
    requires DagOk(g, order) && SentOk(g, sent) && j < |sent| && y in g && Reaches(g, sent[j], y)
    ensures y in sent[..j + 1]
  {
    NoRoot(g, order);
    var done := Elements(sent[..j + 1]);
    forall x | x in done ensures x in g && forall l | l in Links(g[x]) && l != Root :: l in done {
      var k :| 0 <= k < j + 1 && sent[k] == x;
      forall l | l in Links(g[x]) && l != Root ensures l in done {
        assert l in sent[..k];
      }
    }
    ClosedReach(g, done, sent[j], y);
  }
}
