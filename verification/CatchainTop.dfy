/**
  The layer above the receiver: it keeps the set of "top" blocks from which the dependencies of the
  next own block are picked, marks what has been processed, and emits one preprocess callback a block.
 */
module CatchainTop {
  import opened CatchainDag

  // ---------------------------------------------------------------- what the fields mean

  /** The callbacks so far: each block once, after everything it links to. */
  ghost predicate SentOk(g: Dag, sent: seq<Id>) {
    && (forall i, j | 0 <= i < j < |sent| :: sent[i] != sent[j])
    && (forall i | 0 <= i < |sent| :: sent[i] in g)
    && (forall i, l | 0 <= i < |sent| && sent[i] in g && l in Links(g[sent[i]]) && l != Root :: l in sent[..i])
  }

  /** A set of blocks that contains all ancestors of its members. */
  ghost predicate Closed(g: Dag, done: set<Id>) {
    forall x | x in done :: x in g && forall l | l in Links(g[x]) && l != Root :: l in done
  }

  /** The highest block of every source that is not blamed. */
  ghost predicate TipsOk(cnt: nat, g: Dag, blamed: set<nat>, tips: map<nat, Id>) {
    && (forall i | i in tips :: i < cnt && i !in blamed && tips[i] in g && tips[i].Blk? && tips[i].src == i)
    && (forall x | x in g && x.Blk? && x.src !in blamed :: x.src in tips && x.height <= Height(tips[x.src]))
    && (forall x, y {:trigger SameSource(x, y)} | x in g && y in g && SameSource(x, y) && x.src !in blamed &&
       Height(x) == Height(y) :: x == y)
  }

  /** Some other source's tip depends on the tip of source `i`. */
  predicate Dominated(g: Dag, tips: map<nat, Id>, i: nat)
    requires i in tips && forall j | j in tips :: tips[j] in g
  {
    exists j | j in tips :: j != i && IsDescendantOf(g[tips[j]], g[tips[i]], Height(tips[i]))
  }

  /** The from-scratch definition of a top block. */
  predicate IsTop(g: Dag, tips: map<nat, Id>, processed: set<Id>, local: nat, i: nat)
    requires forall j | j in tips :: tips[j] in g
  {
    i in tips && i != local && tips[i] !in processed && !Dominated(g, tips, i)
  }

  function TopOf(g: Dag, tips: map<nat, Id>, processed: set<Id>, local: nat): set<Id>
    requires forall j | j in tips :: tips[j] in g
  {
    set i | i in tips && IsTop(g, tips, processed, local, i) :: tips[i]
  }

  // ---------------------------------------------------------------- closed sets

  lemma {:induction false} ClosedAlongPath(g: Dag, done: set<Id>, p: seq<Id>)
    requires Closed(g, done) && Path(g, p) && p[0] in done && p[|p| - 1] != Root && Root !in g
    ensures p[|p| - 1] in done
  {
    if |p| > 1 {
      assert p[1] in Links(g[p[0]]);
      if p[1] != Root {
        assert Path(g, p[1..]);
        ClosedAlongPath(g, done, p[1..]);
      }
    }
  }

  lemma ClosedReach(g: Dag, done: set<Id>, x: Id, y: Id)
    requires Closed(g, done) && x in done && Reaches(g, x, y) && y != Root && Root !in g
    ensures y in done
  {
    var p :| Path(g, p) && p[0] == x && p[|p| - 1] == y;
    ClosedAlongPath(g, done, p);
  }

  /** `done` extended by `x` and all its ancestors. */
  ghost predicate Marked(g: Dag, done: set<Id>, done': set<Id>, x: Id) {
    forall y :: y in done' <==> y in done || (y in g && Reaches(g, x, y))
  }

  /** After the links `ls` have been marked: */
  ghost predicate MarkedAll(g: Dag, done: set<Id>, done': set<Id>, ls: set<Id>) {
    forall y :: y in done' <==> y in done || (y in g && exists l :: l in ls && Reaches(g, l, y))
  }

  lemma MarkNothing(g: Dag, order: seq<Id>, done: set<Id>, x: Id)
    requires DagOk(g, order) && Closed(g, done)
    ensures x in done || x == Root ==> Marked(g, done, done, x)
  {
    NoRoot(g, order);
    if x in done || x == Root {
      forall y | y in g && Reaches(g, x, y) ensures y in done {
        if x == Root {
          if y != Root { var l := ReachesStep(g, x, y); }
        } else {
          ClosedReach(g, done, x, y);
        }
      }
    }
  }

  lemma MarkNext(g: Dag, done: set<Id>, done1: set<Id>, done2: set<Id>, ls: set<Id>, l: Id)
    requires MarkedAll(g, done, done1, ls) && Marked(g, done1, done2, l)
    ensures MarkedAll(g, done, done2, ls + {l})
  {
    forall y ensures y in done2 <==> y in done || (y in g && exists k :: k in ls + {l} && Reaches(g, k, y)) {
      if y in g && Reaches(g, l, y) { assert l in ls + {l}; }
      if k :| k in ls && Reaches(g, k, y) { assert k in ls + {l}; }
    }
  }

  lemma MarkSelf(g: Dag, done: set<Id>, done': set<Id>, x: Id)
    requires x in g && MarkedAll(g, done, done', Links(g[x])) && Closed(g, done')
    ensures Marked(g, done, done' + {x}, x)
  {
    forall y ensures y in done' + {x} <==> y in done || (y in g && Reaches(g, x, y)) {
      if y == x {
        ReachesSelf(g, x);
      } else {
        if y in done' && y !in done {
          var l :| l in Links(g[x]) && Reaches(g, l, y);
          ReachesVia(g, x, l, y);
        }
        if y in g && Reaches(g, x, y) {
          var l := ReachesStep(g, x, y);
          assert l in Links(g[x]) && Reaches(g, l, y);
        }
      }
    }
  }

  lemma MarkCloses(g: Dag, order: seq<Id>, done: set<Id>, done': set<Id>, x: Id)
    requires DagOk(g, order) && x in g && MarkedAll(g, done, done', Links(g[x])) && Closed(g, done')
    ensures Closed(g, done' + {x})
  {
    OldLinksStay(g, order, x);
    forall l | l in Links(g[x]) && l != Root ensures l in done' {
      ReachesSelf(g, l);
    }
  }

  // ---------------------------------------------------------------- reachability and growth

  /** The blocks of a source that is not blamed are one chain. */
  lemma {:induction false} UnblamedChain(cnt: nat, g: Dag, order: seq<Id>, blamed: set<nat>, tips: map<nat, Id>,
                                         x: Id, y: Id)
    requires DagOk(g, order) && TipsOk(cnt, g, blamed, tips) && x in g && y in g && SameSource(x, y) && x.src !in blamed
    requires Height(y) <= Height(x)
    ensures Reaches(g, x, y)
    decreases Height(x)
  {
    if Height(y) == Height(x) {
      ReachesSelf(g, x);
    } else {
      var p := g[x].prev;
      assert NodeOk(x, g[x]) && NodeOk(y, g[y]);
      OldLinksStay(g, order, x);
      assert p in Links(g[x]) && p != Root;
      assert SameSource(p, y);
      UnblamedChain(cnt, g, order, blamed, tips, p, y);
      ReachesVia(g, x, p, y);
    }
  }

  lemma TipReaches(cnt: nat, g: Dag, order: seq<Id>, blamed: set<nat>, tips: map<nat, Id>, y: Id)
    requires DagOk(g, order) && TipsOk(cnt, g, blamed, tips) && y in g && y.Blk? && y.src !in blamed
    ensures y.src in tips && Reaches(g, tips[y.src], y)
  {
    assert SameSource(tips[y.src], y);
    UnblamedChain(cnt, g, order, blamed, tips, tips[y.src], y);
  }

  lemma DominatedMeans(cnt: nat, g: Dag, order: seq<Id>, blamed: set<nat>, tips: map<nat, Id>, i: nat)
    requires DagOk(g, order) && TipsOk(cnt, g, blamed, tips) && i in tips
    ensures Dominated(g, tips, i) <==> exists j | j in tips :: j != i && Reaches(g, tips[j], tips[i])
  {
    hide DagOk, IsDescendantOf;
    forall j | j in tips ensures IsDescendantOf(g[tips[j]], g[tips[i]], Height(tips[i])) <==>
      Reaches(g, tips[j], tips[i]) {
      ClockDecidesReachability(g, order, tips[j], tips[i]);
    }
  }

  // ---------------------------------------------------------------- a new block of an unblamed source

  /** The predecessor of a new block of an unblamed source is that source's tip. */
  lemma PrevIsTip(cnt: nat, g: Dag, order: seq<Id>, blamed: set<nat>, tips: map<nat, Id>, x: Id, n: Node)
    requires DagOk(g, order) && TipsOk(cnt, g, blamed, tips)
    requires Admissible(cnt, g, blamed, NewBlock(x, n)) && x.src !in blamed
    ensures x.src in tips ==> tips[x.src] == n.prev
    ensures x.src !in tips ==> n.prev == Root
  {
    assert NodeOk(x, n) && n.prev in Links(n);
    assert forall y | y in g :: NodeOk(y, g[y]);
    assert x.src in tips ==> SameSource(x, tips[x.src]);
    assert x.src in tips && n.prev != Root ==> SameSource(tips[x.src], n.prev);
  }

  lemma NewTips(cnt: nat, g: Dag, order: seq<Id>, blamed: set<nat>, tips: map<nat, Id>, x: Id, n: Node)
    requires DagOk(g, order) && TipsOk(cnt, g, blamed, tips) && Admissible(cnt, g, blamed, NewBlock(x, n))
    ensures TipsOk(cnt, g[x := n], blamed, if x.src in blamed then tips else tips[x.src := x])
  {
    hide DagOk, ClockOk;
    var g' := g[x := n];
    var tips' := if x.src in blamed then tips else tips[x.src := x];
    assert NodeOk(x, n);
    forall a, b | a in g' && b in g' && SameSource(a, b) && a.src !in blamed && Height(a) == Height(b) ensures a == b {
      assert SameSource(x, a) ==> SameSource(x, b);
      assert SameSource(a, b);
    }
    forall a | a in g' && a.Blk? && a.src !in blamed ensures a.src in tips' && a.height <= Height(tips'[a.src]) {
      if a != x && a.src == x.src { assert SameSource(x, a); }
    }
  }

  /**
    Which old tips stay top blocks when `x`, of an unblamed source, arrives: those that were and that
    `x` does not link to. The converse needs that `x` links to no block of a blamed source.
   */
  lemma OldTopStays(cnt: nat, g: Dag, order: seq<Id>, blamed: set<nat>, tips: map<nat, Id>, processed: set<Id>,
                    local: nat, x: Id, n: Node, i: nat)
    requires DagOk(g, order) && TipsOk(cnt, g, blamed, tips)
    requires Admissible(cnt, g, blamed, NewBlock(x, n)) && x.src !in blamed
    requires i in tips && i != x.src
    ensures TipsOk(cnt, g[x := n], blamed, tips[x.src := x])
    ensures IsTop(g[x := n], tips[x.src := x], processed, local, i) ==>
              IsTop(g, tips, processed, local, i) && tips[i] !in n.deps
    ensures (&& (forall d | d in n.deps :: d.Blk? && d.src !in blamed)
             && IsTop(g, tips, processed, local, i) && tips[i] !in n.deps)
            ==> IsTop(g[x := n], tips[x.src := x], processed, local, i)
  {
    hide DagOk, TipsOk, CanExtend, Dominated, Reaches, SameSource;
    var g', tips', order' := g[x := n], tips[x.src := x], order + [x];
    ExtendDag(g, order, x, n);
    NewTips(cnt, g, order, blamed, tips, x, n);
    TipFacts(cnt, g, blamed, tips);
    TipFacts(cnt, g', blamed, tips');
    DominatedMeans(cnt, g, order, blamed, tips, i);
    DominatedMeans(cnt, g', order', blamed, tips', i);
    if tips[i] in n.deps || exists j | j in tips :: j != i && Reaches(g, tips[j], tips[i]) {
      DominationGrows(cnt, g, order, blamed, tips, tips', x, n, i);
    }
    if exists j | j in tips' :: j != i && Reaches(g', tips'[j], tips'[i]) {
      var j :| j in tips' && j != i && Reaches(g', tips'[j], tips'[i]);
      if forall d | d in n.deps :: d.Blk? && d.src !in blamed {
        NewDomination(cnt, g, order, blamed, tips, x, n, i, j);
      }
    }
  }

  lemma TipFacts(cnt: nat, g: Dag, blamed: set<nat>, tips: map<nat, Id>)
    requires TipsOk(cnt, g, blamed, tips)
    ensures forall j | j in tips :: tips[j] in g && tips[j].Blk? && tips[j].src == j
  {
  }

  /** What was dominated stays dominated, and a direct dependency becomes dominated. */
  lemma DominationGrows(cnt: nat, g: Dag, order: seq<Id>, blamed: set<nat>, tips: map<nat, Id>, tips': map<nat, Id>,
                        x: Id, n: Node, i: nat)
    requires DagOk(g, order) && TipsOk(cnt, g, blamed, tips)
    requires Admissible(cnt, g, blamed, NewBlock(x, n)) && x.src !in blamed
    requires i in tips && i != x.src
    requires tips' == tips[x.src := x]
    requires tips[i] in n.deps || exists j | j in tips :: j != i && Reaches(g, tips[j], tips[i])
    ensures exists j | j in tips' :: j != i && Reaches(g[x := n], tips'[j], tips[i])
  {
    hide DagOk, TipsOk, CanExtend;
    var g' := g[x := n];
    PrevIsTip(cnt, g, order, blamed, tips, x, n);
    if tips[i] in n.deps {
      ReachesSelf(g', tips[i]);
      ReachesVia(g', x, tips[i], tips[i]);
      assert tips'[x.src] == x;
    } else if j :| j in tips && j != i && Reaches(g, tips[j], tips[i]) {
      OldReach(g, order, x, n, tips[j], tips[i]);
      if j == x.src {
        ReachesVia(g', x, n.prev, tips[i]);
        assert tips'[x.src] == x;
      } else {
        assert tips'[j] == tips[j];
      }
    }
  }

  /** If `x` links only to unblamed sources, a tip it newly dominates is one of its direct dependencies. */
  lemma NewDomination(cnt: nat, g: Dag, order: seq<Id>, blamed: set<nat>, tips: map<nat, Id>, x: Id, n: Node, i: nat,
                      j: nat)
    requires DagOk(g, order) && TipsOk(cnt, g, blamed, tips)
    requires Admissible(cnt, g, blamed, NewBlock(x, n)) && x.src !in blamed
    requires i in tips && i != x.src && j in tips[x.src := x] && j != i
    requires Reaches(g[x := n], tips[x.src := x][j], tips[i])
    requires forall d | d in n.deps :: d.Blk? && d.src !in blamed
    ensures tips[i] in n.deps || exists k | k in tips :: k != i && Reaches(g, tips[k], tips[i])
  {
    hide DagOk, CanExtend;
    var g' := g[x := n];
    if j != x.src {
      OldReach(g, order, x, n, tips[j], tips[i]);
      assert Reaches(g, tips[j], tips[i]);
    } else {
      assert tips[i] != x;
      var l := ReachesStep(g', x, tips[i]);
      LinkIsOld(g, order, x, n, l, tips[i]);
      OldReach(g, order, x, n, l, tips[i]);
      if l == n.prev {
        PrevIsTip(cnt, g, order, blamed, tips, x, n);
        assert Reaches(g, tips[x.src], tips[i]);
      } else {
        assert l in n.deps;
        TipReaches(cnt, g, order, blamed, tips, l);
        ReachesTransitive(g, tips[l.src], l, tips[i]);
        if l.src == i {
          ReachesAntisymmetric(g, order, l, tips[i]);
        } else {
          assert Reaches(g, tips[l.src], tips[i]);
        }
      }
    }
  }

  lemma LinkIsOld(g: Dag, order: seq<Id>, x: Id, n: Node, l: Id, y: Id)
    requires DagOk(g, order) && CanExtend(g, x, n) && l in Links(n) && y in g && Reaches(g[x := n], l, y)
    ensures l in g && l != Root
  {
    NoRoot(g, order);
    if l == Root {
      assert NodeOk(x, n);
      var k := ReachesStep(g[x := n], Root, y);
    }
  }

  lemma NewIsTop(cnt: nat, g: Dag, order: seq<Id>, blamed: set<nat>, tips: map<nat, Id>, processed: set<Id>,
                 local: nat, x: Id, n: Node)
    requires DagOk(g, order) && TipsOk(cnt, g, blamed, tips)
    requires Admissible(cnt, g, blamed, NewBlock(x, n)) && x.src !in blamed
    requires Closed(g, processed)
    ensures TipsOk(cnt, g[x := n], blamed, tips[x.src := x])
    ensures IsTop(g[x := n], tips[x.src := x], processed, local, x.src) <==> x.src != local
  {
    hide DagOk, Reaches, SameSource, Dominated;
    var g', tips' := g[x := n], tips[x.src := x];
    ExtendDag(g, order, x, n);
    NewTips(cnt, g, order, blamed, tips, x, n);
    DominatedMeans(cnt, g', order + [x], blamed, tips', x.src);
    forall j | j in tips' && j != x.src ensures !Reaches(g', tips'[j], x) {
      NewIsNotReached(g, order, x, n, tips[j]);
    }
  }

  /** The tips once `x` has arrived. */
  function TipsAfter(blamed: set<nat>, tips: map<nat, Id>, x: Id): map<nat, Id>
    requires x.Blk?
  {
    if x.src in blamed then tips else tips[x.src := x]
  }

  /** What arrives in the set of top blocks when `x` does. */
  function Entering(blamed: set<nat>, local: nat, x: Id): set<Id>
    requires x.Blk?
  {
    if x.src in blamed || x.src == local then {} else {x}
  }

  function Superseded(blamed: set<nat>, x: Id, n: Node): set<Id>
    requires x.Blk?
  {
    {n.prev} + if x.src in blamed then {} else set d | d in n.deps
  }

  /** `x` comes from a blamed source, or links to no block of a blamed source. */
  predicate Plain(blamed: set<nat>, x: Id, n: Node) {
    x.Blk? && (x.src in blamed || forall d | d in n.deps :: d.Blk? && d.src !in blamed)
  }

  /** The incremental update never loses a top block, and is exact if the new block is `Plain`. */
  lemma TopAfterNew(cnt: nat, g: Dag, order: seq<Id>, blamed: set<nat>, tips: map<nat, Id>, processed: set<Id>,
                    local: nat, x: Id, n: Node)
    requires DagOk(g, order) && TipsOk(cnt, g, blamed, tips)
    requires Admissible(cnt, g, blamed, NewBlock(x, n)) && Closed(g, processed)
    ensures TipsOk(cnt, g[x := n], blamed, TipsAfter(blamed, tips, x))
    ensures TopOf(g[x := n], TipsAfter(blamed, tips, x), processed, local)
            <= TopOf(g, tips, processed, local) - Superseded(blamed, x, n) + Entering(blamed, local, x)
    ensures Plain(blamed, x, n) ==>
              TopOf(g[x := n], TipsAfter(blamed, tips, x), processed, local)
              == TopOf(g, tips, processed, local) - Superseded(blamed, x, n) + Entering(blamed, local, x)
  {
    LinkSource(cnt, g, blamed, x, n);
    hide DagOk, SameSource, CanExtend, TipsOk, Admissible, Closed, Dominated;
    NewTips(cnt, g, order, blamed, tips, x, n);
    if x.src in blamed {
      TopAfterBlamed(cnt, g, blamed, tips, processed, local, x, n);
    } else {
      TopAfterUnblamed(cnt, g, order, blamed, tips, processed, local, x, n);
    }
  }

  lemma TopAfterBlamed(cnt: nat, g: Dag, blamed: set<nat>, tips: map<nat, Id>, processed: set<Id>, local: nat, x: Id,
                       n: Node)
    requires TipsOk(cnt, g, blamed, tips) && Admissible(cnt, g, blamed, NewBlock(x, n)) && x.src in blamed
    ensures (forall j | j in tips :: tips[j] in g && tips[j] in g[x := n])
    ensures TopOf(g[x := n], tips, processed, local) == TopOf(g, tips, processed, local) - Superseded(blamed, x,
              n) + Entering(blamed, local, x)
  {
    hide Dominated, CanExtend;
    PrevSource(cnt, g, blamed, x, n);
    forall i | i in tips ensures IsTop(g[x := n], tips, processed, local, i) <==> IsTop(g, tips, processed, local, i) {
      SameDomination(g, g[x := n], tips, i);
    }
  }

  lemma TopAfterUnblamed(cnt: nat, g: Dag, order: seq<Id>, blamed: set<nat>, tips: map<nat, Id>, processed: set<Id>,
                         local: nat, x: Id, n: Node)
    requires DagOk(g, order) && TipsOk(cnt, g, blamed, tips)
    requires Admissible(cnt, g, blamed, NewBlock(x, n)) && Closed(g, processed) && x.src !in blamed
    requires TipsOk(cnt, g[x := n], blamed, tips[x.src := x])
    ensures TopOf(g[x := n], tips[x.src := x], processed, local) <= TopOf(g, tips, processed,
              local) - Superseded(blamed, x, n) + Entering(blamed, local, x)
    ensures Plain(blamed, x, n) ==>
              TopOf(g[x := n], tips[x.src := x], processed, local) == TopOf(g, tips, processed,
                local) - Superseded(blamed, x, n) + Entering(blamed, local, x)
  {
    LinkSource(cnt, g, blamed, x, n);
    hide DagOk, SameSource, CanExtend, Dominated, TipsOk, Admissible, Closed, IsTop;
    var g', tips' := g[x := n], tips[x.src := x];
    NewIsTop(cnt, g, order, blamed, tips, processed, local, x, n);
    TipFacts(cnt, g, blamed, tips);
    TipFacts(cnt, g', blamed, tips');
    PrevIsTip(cnt, g, order, blamed, tips, x, n);
    TopIsTip(g, tips, processed, local);
    TopIsTip(g', tips', processed, local);
    forall i | i in tips && i != x.src
      ensures IsTop(g', tips', processed, local, i) ==> IsTop(g, tips, processed, local, i) && tips[i] !in n.deps
      ensures Plain(blamed, x, n) && IsTop(g, tips, processed, local, i) && tips[i] !in n.deps ==>
                IsTop(g', tips', processed, local, i)
    {
      OldTopStays(cnt, g, order, blamed, tips, processed, local, x, n, i);
    }
  }

  lemma TopIsTip(g: Dag, tips: map<nat, Id>, processed: set<Id>, local: nat)
    requires forall j | j in tips :: tips[j] in g
    ensures forall i | IsTop(g, tips, processed, local, i) :: i in tips
  {
  }

  lemma LinkSource(cnt: nat, g: Dag, blamed: set<nat>, x: Id, n: Node)
    requires Admissible(cnt, g, blamed, NewBlock(x, n))
    ensures x.Blk? && x !in g && (n.prev.Blk? ==> n.prev.src == x.src)
    ensures forall d | d in n.deps :: d in g
  {
    assert NodeOk(x, n);
    assert forall d | d in n.deps :: d in Links(n);
  }

  lemma SameDomination(g: Dag, g': Dag, tips: map<nat, Id>, i: nat)
    requires i in tips && forall j | j in tips :: tips[j] in g && tips[j] in g' && g'[tips[j]] == g[tips[j]]
    ensures Dominated(g', tips, i) <==> Dominated(g, tips, i)
  {
  }

  lemma PrevSource(cnt: nat, g: Dag, blamed: set<nat>, x: Id, n: Node)
    requires Admissible(cnt, g, blamed, NewBlock(x, n))
    ensures n.prev.Blk? ==> n.prev.src == x.src
    ensures x !in g
  {
    assert NodeOk(x, n);
  }
}
