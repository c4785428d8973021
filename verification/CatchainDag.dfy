/**
  The graph of delivered CatChain blocks.

  A block is named by its source, height and payload hash; the name does not cover the links to
  other blocks, so nothing here assumes that the links of a block are acyclic: that comes from the
  order in which blocks are delivered.

  Every delivered block carries a vector timestamp indexed by fork id. The main theorem is that
  comparing one height with one entry of the vector decides reachability through prev/deps links.
 */
module CatchainDag {

  /** `Root` is the common block of height 0; other blocks are named by source, height and payload hash. */
  datatype Id = Root | Blk(src: nat, height: nat, data: nat)

  function Height(x: Id): nat {
    if x.Root? then 0 else x.height
  }

  /** A block of another source. */
  predicate Foreign(local: nat, x: Id) {
    x.Blk? && x.src != local
  }

  /** A vector timestamp: entry `f` is the greatest height of fork `f` that the block depends on. */
  type Clock = seq<nat>

  /** Entries beyond the stored length read as 0. */
  function At(v: Clock, f: nat): nat {
    if f < |v| then v[f] else 0
  }

  datatype Node = Node(prev: Id, deps: seq<Id>, fork: nat, vt: Clock)

  type Dag = map<Id, Node>

  function Links(n: Node): set<Id> {
    {n.prev} + set d | d in n.deps
  }

  /** The test the program uses: is `b` the block `a` itself or one of its ancestors? */
  predicate IsDescendantOf(a: Node, b: Node, bHeight: nat) {
    if b.fork >= |a.vt| then false else bHeight <= a.vt[b.fork]
  }

  /** The independent meaning of that test: a path of prev/deps links. */
  ghost predicate Path(g: Dag, p: seq<Id>) {
    && |p| > 0
    && forall i | 0 <= i < |p| - 1 :: p[i] in g && p[i + 1] in Links(g[p[i]])
  }

  ghost predicate Reaches(g: Dag, a: Id, b: Id) {
    exists p :: Path(g, p) && p[0] == a && p[|p| - 1] == b
  }

  /** `order` lists each block of `g` once, every block after all the blocks it links to. */
  ghost predicate Causal(g: Dag, order: seq<Id>) {
    && (forall x :: x in order <==> x in g)
    && (forall i, j | 0 <= i < j < |order| :: order[i] != order[j])
    && (forall i, l | 0 <= i < |order| && order[i] in g && l in Links(g[order[i]]) && l != Root :: l in order[..i])
  }

  /** What a block's own fields must satisfy. */
  ghost predicate NodeOk(x: Id, n: Node) {
    && x.Blk? && Height(n.prev) + 1 == x.height
    && (n.prev.Blk? ==> n.prev.src == x.src)
    && Root !in n.deps
    && n.fork > 0
    && At(n.vt, n.fork) == x.height
  }

  /** The fork ids: a fork belongs to one source, has one block per height, and is one prev-chain. */
  ghost predicate ForksOk(g: Dag) {
    forall x, y {:trigger SameSource(x, y)} | x in g && y in g && g[x].fork == g[y].fork ::
      && SameSource(x, y)
      && (Height(x) == Height(y) ==> x == y)
      && (Height(y) < Height(x) ==> g[x].prev in g && g[g[x].prev].fork == g[x].fork)
  }

  predicate SameSource(x: Id, y: Id) {
    x.Blk? && y.Blk? && x.src == y.src
  }

  /** Every entry of `n`'s clock other than its own fork is the maximum of its links' entries. */
  ghost predicate ClockOk(g: Dag, n: Node) {
    && (forall l, f: nat | l in Links(n) && l in g :: At(g[l].vt, f) <= At(n.vt, f))
    && (forall f: nat | f != n.fork && At(n.vt, f) > 0 ::
          exists l :: l in Links(n) && l in g && At(g[l].vt, f) == At(n.vt, f))
  }

  ghost predicate DagOk(g: Dag, order: seq<Id>) {
    && Causal(g, order)
    && (forall x {:trigger NodeOk(x, g[x])} {:trigger ClockOk(g, g[x])} | x in g :: NodeOk(x, g[x]) && ClockOk(g, g[x]))
    && ForksOk(g)
  }

  // ---------------------------------------------------------------- paths

  lemma ReachesSelf(g: Dag, a: Id)
    ensures Reaches(g, a, a)
  {
    assert Path(g, [a]);
  }

  lemma ReachesVia(g: Dag, a: Id, l: Id, b: Id)
    requires a in g && l in Links(g[a]) && Reaches(g, l, b)
    ensures Reaches(g, a, b)
  {
    var p :| Path(g, p) && p[0] == l && p[|p| - 1] == b;
    assert Path(g, [a] + p);
  }

  lemma ReachesTransitive(g: Dag, a: Id, b: Id, c: Id)
    requires Reaches(g, a, b) && Reaches(g, b, c)
    ensures Reaches(g, a, c)
  {
    var p :| Path(g, p) && p[0] == a && p[|p| - 1] == b;
    var q :| Path(g, q) && q[0] == b && q[|q| - 1] == c;
    assert Path(g, p + q[1..]);
  }

  /** The first step of a path that is not trivial. */
  lemma ReachesStep(g: Dag, a: Id, b: Id) returns (l: Id)
    requires Reaches(g, a, b) && a != b
    ensures a in g && l in Links(g[a]) && Reaches(g, l, b)
  {
    var p :| Path(g, p) && p[0] == a && p[|p| - 1] == b;
    l := p[1];
    assert Path(g, p[1..]);
  }

  // ---------------------------------------------------------------- the theorem

  /** Clocks only grow along a path. */
  lemma {:induction false} PathRaisesClock(g: Dag, order: seq<Id>, p: seq<Id>, f: nat)
    requires DagOk(g, order) && Path(g, p) && p[0] in g && p[|p| - 1] in g
    ensures At(g[p[|p| - 1]].vt, f) <= At(g[p[0]].vt, f)
  {
    if |p| > 1 {
      assert p[1] in Links(g[p[0]]);
      assert ClockOk(g, g[p[0]]);
      PathRaisesClock(g, order, p[1..], f);
    }
  }

  /** Each entry of a clock is the height of a block of that fork which the clock's owner reaches. */
  lemma {:induction false} ClockHasWitness(g: Dag, order: seq<Id>, i: nat, f: nat) returns (c: Id)
    requires DagOk(g, order) && i < |order| && At(g[order[i]].vt, f) > 0
    ensures c in g && g[c].fork == f && Height(c) == At(g[order[i]].vt, f) && Reaches(g, order[i], c)
  {
    var a := order[i];
    assert NodeOk(a, g[a]) && ClockOk(g, g[a]);
    if f == g[a].fork {
      c := a;
      ReachesSelf(g, a);
    } else {
      var l :| l in Links(g[a]) && l in g && At(g[l].vt, f) == At(g[a].vt, f);
      assert NodeOk(l, g[l]);
      assert l in order[..i];
      var j :| 0 <= j < i && order[j] == l;
      c := ClockHasWitness(g, order, j, f);
      ReachesVia(g, a, l, c);
    }
  }

  /** Within one fork a higher block reaches every lower one through prev links. */
  lemma {:induction false} ForkIsChain(g: Dag, order: seq<Id>, x: Id, y: Id)
    requires DagOk(g, order) && x in g && y in g && g[x].fork == g[y].fork && Height(y) <= Height(x)
    ensures Reaches(g, x, y)
    decreases Height(x)
  {
    assert SameSource(x, y);
    if Height(x) == Height(y) {
      ReachesSelf(g, x);
    } else {
      var p := g[x].prev;
      assert NodeOk(x, g[x]);
      ForkIsChain(g, order, p, y);
      ReachesVia(g, x, p, y);
    }
  }

  /**
    Vector timestamps decide reachability, whatever the forks: for delivered blocks `a` and `b`, the
    comparison made by the program holds exactly when `b` is `a` or an ancestor of `a`.
   */
  lemma ClockDecidesReachability(g: Dag, order: seq<Id>, a: Id, b: Id)
    requires DagOk(g, order) && a in g && b in g
    ensures IsDescendantOf(g[a], g[b], Height(b)) <==> Reaches(g, a, b)
  {
    var f := g[b].fork;
    assert NodeOk(b, g[b]);
    if Reaches(g, a, b) {
      var p :| Path(g, p) && p[0] == a && p[|p| - 1] == b;
      PathRaisesClock(g, order, p, f);
    }
    if IsDescendantOf(g[a], g[b], Height(b)) {
      var i :| 0 <= i < |order| && order[i] == a;
      var c := ClockHasWitness(g, order, i, f);
      ForkIsChain(g, order, c, b);
      ReachesTransitive(g, a, c, b);
    }
  }

  /** Links lead only to blocks delivered earlier, so reachability is a partial order. */
  lemma {:induction false} PathGoesBack(g: Dag, order: seq<Id>, p: seq<Id>, i: nat, j: nat)
    requires DagOk(g, order) && Path(g, p) && i < |order| && j < |order|
    requires p[0] == order[i] && p[|p| - 1] == order[j]
    ensures j <= i && (|p| > 1 ==> j < i)
    decreases |p|
  {
    if |p| > 1 {
      assert p[1] in Links(g[p[0]]);
      assert NodeOk(p[1], g[p[1]]);
      assert p[1] in order[..i];
      var k :| 0 <= k < i && order[k] == p[1];
      PathGoesBack(g, order, p[1..], k, j);
    }
  }

  lemma ReachesAntisymmetric(g: Dag, order: seq<Id>, a: Id, b: Id)
    requires DagOk(g, order) && a in g && b in g && Reaches(g, a, b) && Reaches(g, b, a)
    ensures a == b
  {
    var i :| 0 <= i < |order| && order[i] == a;
    var j :| 0 <= j < |order| && order[j] == b;
    var p :| Path(g, p) && p[0] == a && p[|p| - 1] == b;
    var q :| Path(g, q) && q[0] == b && q[|q| - 1] == a;
    PathGoesBack(g, order, p, i, j);
    PathGoesBack(g, order, q, j, i);
  }

  // ---------------------------------------------------------------- growth

  /** When a block may be appended to the graph: all its links are there and its fork slot is free. */
  ghost predicate CanExtend(g: Dag, x: Id, n: Node) {
    && x !in g && NodeOk(x, n) && ClockOk(g, n)
    && (forall l | l in Links(n) && l != Root :: l in g)
    && (forall y {:trigger SameSource(x, y)} | y in g && g[y].fork == n.fork ::
          SameSource(x, y) && Height(y) < Height(x) && n.prev in g && g[n.prev].fork == n.fork)
  }

  lemma ExtendKeepsForks(g: Dag, x: Id, n: Node)
    requires ForksOk(g) && CanExtend(g, x, n)
    ensures ForksOk(g[x := n])
  {
    var g' := g[x := n];
    forall a, b | a in g' && b in g' && g'[a].fork == g'[b].fork
      ensures && SameSource(a, b)
              && (Height(a) == Height(b) ==> a == b)
              && (Height(b) < Height(a) ==> g'[a].prev in g' && g'[g'[a].prev].fork == g'[a].fork)
    {
      if a == x {
        assert b != x ==> SameSource(x, b);
      } else if b == x {
        assert SameSource(x, a);
      } else {
        assert SameSource(a, b);
      }
    }
  }

  lemma ExtendKeepsOrder(g: Dag, order: seq<Id>, x: Id, n: Node)
    requires Causal(g, order) && CanExtend(g, x, n)
    ensures Causal(g[x := n], order + [x])
  {
    var g', o' := g[x := n], order + [x];
    forall i, l | 0 <= i < |o'| && o'[i] in g' && l in Links(g'[o'[i]]) && l != Root
      ensures l in o'[..i]
    {
      assert o'[..i] == order[..i];
      if i < |order| {
        assert order[i] in order;
        assert order[i] in g;
      } else {
        assert order[..i] == order;
      }
    }
  }

  /** Links of old blocks never lead to a block added later. */
  lemma OldLinksStay(g: Dag, order: seq<Id>, y: Id)
    requires Causal(g, order) && y in g
    ensures forall l | l in Links(g[y]) && l != Root :: l in g
  {
    var i :| 0 <= i < |order| && order[i] == y;
    forall l | l in Links(g[y]) && l != Root ensures l in g {
      assert l in order[..i];
      assert l in order;
    }
  }

  lemma ExtendKeepsClock(g: Dag, order: seq<Id>, x: Id, n: Node, y: Id)
    requires DagOk(g, order) && CanExtend(g, x, n) && y in g
    ensures ClockOk(g[x := n], g[y])
  {
    var g' := g[x := n];
    OldLinksStay(g, order, y);
    assert ClockOk(g, g[y]);
    assert x !in Links(g[y]);
    forall f: nat | f != g[y].fork && At(g[y].vt, f) > 0
      ensures exists l :: l in Links(g[y]) && l in g' && At(g'[l].vt, f) == At(g[y].vt, f)
    {
      var l :| l in Links(g[y]) && l in g && At(g[l].vt, f) == At(g[y].vt, f);
      assert g'[l] == g[l];
    }
  }

  lemma ExtendDag(g: Dag, order: seq<Id>, x: Id, n: Node)
    requires DagOk(g, order) && CanExtend(g, x, n)
    ensures DagOk(g[x := n], order + [x])
  {
    var g' := g[x := n];
    ExtendKeepsOrder(g, order, x, n);
    ExtendKeepsForks(g, x, n);
    assert x !in Links(n) by {
      assert NodeOk(x, n);
    }
    forall y | y in g'
      ensures NodeOk(y, g'[y]) && ClockOk(g', g'[y])
    {
      if y == x {
        ExtendKeepsOwnClock(g, x, n);
      } else {
        assert NodeOk(y, g[y]);
        ExtendKeepsClock(g, order, x, n, y);
      }
    }
  }

  lemma ExtendKeepsOwnClock(g: Dag, x: Id, n: Node)
    requires CanExtend(g, x, n)
    ensures ClockOk(g[x := n], n)
  {
    var g' := g[x := n];
    assert x !in Links(n);
    forall f: nat | f != n.fork && At(n.vt, f) > 0
      ensures exists l :: l in Links(n) && l in g' && At(g'[l].vt, f) == At(n.vt, f)
    {
      var l :| l in Links(n) && l in g && At(g[l].vt, f) == At(n.vt, f);
      assert g'[l] == g[l];
    }
  }

  // ---------------------------------------------------------------- reachability in a growing graph

  lemma NoRoot(g: Dag, order: seq<Id>)
    requires DagOk(g, order)
    ensures Root !in g
  {
    assert Root in g ==> NodeOk(Root, g[Root]);
  }

  /** `g` is part of `g'`. */
  ghost predicate Within(g: Dag, g': Dag) {
    Root !in g' && forall y | y in g :: y in g' && g'[y] == g[y]
  }

  lemma {:induction false} PathIsOld(g: Dag, order: seq<Id>, g': Dag, p: seq<Id>)
    requires DagOk(g, order) && Within(g, g') && Path(g', p) && p[0] in g
    ensures Path(g, p)
  {
    if |p| > 1 {
      assert p[0] in g' && p[1] in Links(g'[p[0]]);
      OldLinksStay(g, order, p[0]);
      if |p| > 2 {
        assert p[1] in g';
        var q := p[1..];
        assert Path(g', q);
        PathIsOld(g, order, g', q);
        forall i | 1 <= i < |p| - 1 ensures p[i] in g && p[i + 1] in Links(g[p[i]]) {
          assert q[i - 1] == p[i] && q[i - 1 + 1] == p[i + 1];
        }
      }
    }
  }

  /** A block reaches the same blocks in the graph known when it was delivered and in any later one. */
  lemma SameReach(g: Dag, order: seq<Id>, g': Dag, a: Id, b: Id)
    requires DagOk(g, order) && Within(g, g')
    ensures Reaches(g, a, b) ==> Reaches(g', a, b)
    ensures a in g && Reaches(g', a, b) ==> Reaches(g, a, b)
  {
    if Reaches(g, a, b) {
      var p :| Path(g, p) && p[0] == a && p[|p| - 1] == b;
      assert Path(g', p);
    }
    if a in g && Reaches(g', a, b) {
      var p :| Path(g', p) && p[0] == a && p[|p| - 1] == b;
      PathIsOld(g, order, g', p);
    }
  }

  lemma OldReach(g: Dag, order: seq<Id>, x: Id, n: Node, a: Id, b: Id)
    requires DagOk(g, order) && CanExtend(g, x, n)
    ensures Reaches(g, a, b) ==> Reaches(g[x := n], a, b)
    ensures a in g && Reaches(g[x := n], a, b) ==> Reaches(g, a, b)
  {
    NoRoot(g, order);
    SameReach(g, order, g[x := n], a, b);
  }

  lemma {:induction false} PathEndIsKnown(g: Dag, order: seq<Id>, p: seq<Id>)
    requires DagOk(g, order) && Path(g, p) && p[0] in g && p[|p| - 1] != Root
    ensures p[|p| - 1] in g
  {
    if |p| > 1 {
      assert p[|p| - 2] in g && p[|p| - 2 + 1] in Links(g[p[|p| - 2]]);
      OldLinksStay(g, order, p[|p| - 2]);
    }
  }

  /** Nothing delivered earlier depends on a new block. */
  lemma NewIsNotReached(g: Dag, order: seq<Id>, x: Id, n: Node, a: Id)
    requires DagOk(g, order) && CanExtend(g, x, n) && a in g
    ensures !Reaches(g[x := n], a, x)
  {
    if Reaches(g[x := n], a, x) {
      OldReach(g, order, x, n, a, x);
      var p :| Path(g, p) && p[0] == a && p[|p| - 1] == x;
      PathEndIsKnown(g, order, p);
    }
  }

  lemma RootReachesItself(g: Dag, b: Id)
    requires Root !in g && Reaches(g, Root, b)
    ensures b == Root
  {
    if b != Root {
      var l := ReachesStep(g, Root, b);
    }
  }

  /** No block depends directly on a block that its predecessor depends on. */
  ghost predicate FreshDag(g: Dag) {
    forall x, d | x in g && d in g[x].deps :: !Reaches(g, g[x].prev, d)
  }

  lemma ExtendKeepsFresh(g: Dag, order: seq<Id>, x: Id, n: Node)
    requires DagOk(g, order) && FreshDag(g) && CanExtend(g, x, n) && forall d | d in n.deps :: !Reaches(g, n.prev, d)
    ensures FreshDag(g[x := n])
  {
    var g' := g[x := n];
    NoRoot(g, order);
    assert NodeOk(x, n);
    forall y, d | y in g' && d in g'[y].deps ensures !Reaches(g', g'[y].prev, d) {
      var p := g'[y].prev;
      if y != x {
        assert NodeOk(y, g[y]);
        OldLinksStay(g, order, y);
      }
      assert p in Links(g'[y]);
      OldReach(g, order, x, n, p, d);
      if p == Root && Reaches(g', p, d) {
        RootReachesItself(g', d);
      }
    }
  }

  /** Nothing in `earlier` depends on anything in `later`. */
  ghost predicate Unrelated(g: Dag, earlier: seq<Id>, later: seq<Id>) {
    forall e, d | e in earlier && d in later :: !Reaches(g, e, d)
  }

  // ---------------------------------------------------------------- the stream of callbacks

  /** What the receiver tells the layer above, in order. */
  datatype Event = NewBlock(id: Id, node: Node) | Blame(src: nat)

  function DagOf(ev: seq<Event>): Dag {
    if ev == [] then map[] else
      var g := DagOf(ev[..|ev| - 1]);
      match ev[|ev| - 1]
      case NewBlock(x, n) => g[x := n]
      case Blame(_) => g
  }

  function BlamedOf(ev: seq<Event>): set<nat> {
    if ev == [] then {} else
      var b := BlamedOf(ev[..|ev| - 1]);
      match ev[|ev| - 1]
      case NewBlock(_, _) => b
      case Blame(s) => b + {s}
  }

  function Order(ev: seq<Event>): seq<Id> {
    if ev == [] then [] else
      var o := Order(ev[..|ev| - 1]);
      match ev[|ev| - 1]
      case NewBlock(x, _) => o + [x]
      case Blame(_) => o
  }

  /** An event that may follow: blocks of an unblamed source come in increasing height. */
  ghost predicate Admissible(cnt: nat, g: Dag, blamed: set<nat>, e: Event) {
    match e
    case NewBlock(x, n) =>
      && CanExtend(g, x, n)
      && x.Blk? && x.src < cnt
      && (forall y | y in g && SameSource(x, y) && x.src !in blamed :: Height(y) < Height(x))
    case Blame(s) => s < cnt && s !in blamed
  }

  ghost predicate StreamOk(cnt: nat, ev: seq<Event>) {
    ev != [] ==>
      && StreamOk(cnt, ev[..|ev| - 1])
      && Admissible(cnt, DagOf(ev[..|ev| - 1]), BlamedOf(ev[..|ev| - 1]), ev[|ev| - 1])
  }

  /** A well-formed stream describes a well-formed graph, each block reported once and after its links. */
  lemma {:induction false} StreamGivesDag(cnt: nat, ev: seq<Event>)
    requires StreamOk(cnt, ev)
    ensures DagOk(DagOf(ev), Order(ev))
  {
    if ev != [] {
      StreamGivesDag(cnt, ev[..|ev| - 1]);
      match ev[|ev| - 1]
      case NewBlock(x, n) => ExtendDag(DagOf(ev[..|ev| - 1]), Order(ev[..|ev| - 1]), x, n);
      case Blame(_) =>
    }
  }

  lemma {:induction false} StreamPrefix(cnt: nat, ev: seq<Event>, k: nat)
    requires StreamOk(cnt, ev) && k <= |ev|
    ensures StreamOk(cnt, ev[..k]) && BlamedOf(ev[..k]) <= BlamedOf(ev)
    ensures k < |ev| ==> Admissible(cnt, DagOf(ev[..k]), BlamedOf(ev[..k]), ev[k])
    ensures forall y | y in DagOf(ev[..k]) :: y in DagOf(ev) && DagOf(ev)[y] == DagOf(ev[..k])[y]
    ensures k < |ev| && ev[k].NewBlock? ==> ev[k].id in DagOf(ev) && DagOf(ev)[ev[k].id] == ev[k].node
  {
    if k == |ev| {
      assert ev[..k] == ev;
    } else {
      var pre := ev[..|ev| - 1];
      StreamPrefix(cnt, pre, k);
      assert pre[..k] == ev[..k];
      assert k < |pre| ==> pre[k] == ev[k];
    }
  }
}
