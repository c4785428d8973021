/**
  The class above the receiver. It consumes the receiver's callbacks, in order, and picks the
  dependencies of the next own block.
 */
module CatchainChain {
  import opened CatchainDag
  import opened CatchainTop

  // ---------------------------------------------------------------- the invariant, on values

  ghost function Elements(s: seq<Id>): set<Id> {
    set x | x in s
  }

  /** Every block of a source that is not blamed has been handed to the preprocess callback. */
  ghost predicate AllSent(g: Dag, blamed: set<nat>, sent: seq<Id>) {
    forall x | x in g && x.Blk? && x.src !in blamed :: x in sent
  }

  /** A top block is the tip of an unblamed source other than the local one. */
  ghost predicate TopSound(tips: map<nat, Id>, local: nat, top: set<Id>) {
    forall b | b in top :: b.Blk? && b.src in tips && tips[b.src] == b && b.src != local
  }

  /** Since the last blame no block of an unblamed source linked to a block of a blamed source. */
  ghost predicate Exact(ev: seq<Event>) {
    ev != [] ==>
      match ev[|ev| - 1]
      case NewBlock(x, n) => Exact(ev[..|ev| - 1]) && Plain(BlamedOf(ev[..|ev| - 1]), x, n)
      case Blame(_) => true
  }

  lemma {:induction false} BlameFreeIsExact(cnt: nat, ev: seq<Event>)
    requires StreamOk(cnt, ev) && BlamedOf(ev) == {}
    ensures Exact(ev)
  {
    if ev != [] {
      var pre := ev[..|ev| - 1];
      BlameFreeIsExact(cnt, pre);
      var x, n := ev[|ev| - 1].id, ev[|ev| - 1].node;
      assert NodeOk(x, n);
      assert forall d | d in n.deps :: d.Blk?;
    }
  }

  /** The stream, its graph and its blamed sources agree. */
  ghost predicate StreamInv(cnt: nat, ev: seq<Event>, g: Dag, blamed: set<nat>) {
    StreamOk(cnt, ev) && g == DagOf(ev) && blamed == BlamedOf(ev)
  }

  lemma StreamBlock(cnt: nat, ev: seq<Event>, g: Dag, blamed: set<nat>, x: Id, n: Node)
    requires StreamInv(cnt, ev, g, blamed) && Admissible(cnt, g, blamed, NewBlock(x, n))
    ensures StreamInv(cnt, ev + [NewBlock(x, n)], g[x := n], blamed)
    ensures Order(ev + [NewBlock(x, n)]) == Order(ev) + [x]
    ensures Exact(ev + [NewBlock(x, n)]) <==> Exact(ev) && Plain(blamed, x, n)
  {
    var ev' := ev + [NewBlock(x, n)];
    assert ev'[..|ev'| - 1] == ev;
  }

  lemma StreamBlame(cnt: nat, ev: seq<Event>, g: Dag, blamed: set<nat>, s: nat)
    requires StreamInv(cnt, ev, g, blamed) && s < cnt && s !in blamed
    ensures StreamInv(cnt, ev + [Blame(s)], g, blamed + {s})
    ensures Exact(ev + [Blame(s)])
  {
    var ev' := ev + [Blame(s)];
    assert ev'[..|ev'| - 1] == ev;
  }

  lemma StreamDag(cnt: nat, ev: seq<Event>, g: Dag, blamed: set<nat>)
    requires StreamInv(cnt, ev, g, blamed)
    ensures DagOk(g, Order(ev))
  {
    StreamGivesDag(cnt, ev);
  }

  // ---------------------------------------------------------------- callbacks

  lemma SentIsClosed(g: Dag, sent: seq<Id>)
    requires SentOk(g, sent)
    ensures Closed(g, Elements(sent))
  {
  }

  /** No link leads back to the block that holds it. */
  lemma LinkDoesNotReturn(g: Dag, order: seq<Id>, x: Id, l: Id)
    requires DagOk(g, order) && x in g && l in Links(g[x])
    ensures !Reaches(g, l, x)
  {
    if Reaches(g, l, x) {
      NoRoot(g, order);
      OldLinksStay(g, order, x);
      if l == Root {
        var k := ReachesStep(g, l, x);
      } else {
        ReachesSelf(g, l);
        ReachesVia(g, x, l, l);
        ReachesAntisymmetric(g, order, x, l);
      }
    }
  }

  lemma SendSelf(g: Dag, order: seq<Id>, done: set<Id>, sent: seq<Id>, x: Id)
    requires DagOk(g, order) && x in g && SentOk(g, sent) && x !in done
    requires MarkedAll(g, done, Elements(sent), Links(g[x]))
    ensures SentOk(g, sent + [x]) && Marked(g, done, Elements(sent + [x]), x)
  {
    hide SentOk, Reaches;
    SentIsClosed(g, sent);
    MarkSelf(g, done, Elements(sent), x);
    assert Elements(sent + [x]) == Elements(sent) + {x};
    forall l | l in Links(g[x]) ensures !Reaches(g, l, x) && (l != Root ==> l in sent) {
      LinkDoesNotReturn(g, order, x, l);
      OldLinksStay(g, order, x);
      ReachesSelf(g, l);
      assert l != Root ==> l in Elements(sent);
    }
    assert x !in Elements(sent);
    SentMore(g, sent, x);
  }

  lemma SentMore(g: Dag, sent: seq<Id>, x: Id)
    requires SentOk(g, sent) && x in g && x !in sent && forall l | l in Links(g[x]) && l != Root :: l in sent
    ensures SentOk(g, sent + [x])
  {
    var sent' := sent + [x];
    forall i, l | 0 <= i < |sent'| && sent'[i] in g && l in Links(g[sent'[i]]) && l != Root ensures l in sent'[..i] {
      assert sent'[..i] == sent[..i];
    }
  }

  lemma IndexOfLink(g: Dag, order: seq<Id>, i: nat, l: Id) returns (j: nat)
    requires DagOk(g, order) && i < |order| && l in Links(g[order[i]]) && l != Root
    ensures j < i && order[j] == l && l in g
  {
    OldLinksStay(g, order, order[i]);
    assert l in order[..i];
    j :| 0 <= j < i && order[j] == l;
  }

  /** The predecessor and the first `k` dependencies. */
  ghost function LinksUpTo(n: Node, k: nat): set<Id>
    requires k <= |n.deps|
  {
    {n.prev} + set d | d in n.deps[..k]
  }

  lemma AllMarked(g: Dag, done: set<Id>, done': set<Id>, n: Node)
    requires MarkedAll(g, done, done', LinksUpTo(n, |n.deps|))
    ensures MarkedAll(g, done, done', Links(n))
  {
    assert n.deps[..|n.deps|] == n.deps;
  }

  lemma DepsSoFar(g: Dag, done: set<Id>, done1: set<Id>, done2: set<Id>, n: Node, k: nat)
    requires k < |n.deps| && MarkedAll(g, done, done1, LinksUpTo(n, k)) && Marked(g, done1, done2, n.deps[k])
    ensures MarkedAll(g, done, done2, LinksUpTo(n, k + 1))
  {
    MarkNext(g, done, done1, done2, LinksUpTo(n, k), n.deps[k]);
    assert LinksUpTo(n, k) + {n.deps[k]} == LinksUpTo(n, k + 1);
  }

  lemma PrevMarked(g: Dag, done: set<Id>, done': set<Id>, n: Node)
    requires Marked(g, done, done', n.prev)
    ensures MarkedAll(g, done, done', LinksUpTo(n, 0))
  {
    assert MarkedAll(g, done, done', {n.prev});
    assert {n.prev} == LinksUpTo(n, 0);
  }

  // ---------------------------------------------------------------- one step of each method, on values

  lemma FlagsGrow(g: Dag, x: Id, n: Node, sent: seq<Id>, processed: set<Id>)
    requires x !in g && SentOk(g, sent) && Closed(g, processed)
    ensures SentOk(g[x := n], sent) && Closed(g[x := n], processed)
  {
  }

  lemma AllSentGrows(g: Dag, x: Id, n: Node, blamed: set<nat>, sent: seq<Id>, sent': seq<Id>)
    requires AllSent(g, blamed, sent) && x.Blk? && sent <= sent'
    requires x.src in blamed || Marked(g[x := n], Elements(sent), Elements(sent'), x)
    ensures AllSent(g[x := n], blamed, sent')
  {
    if x.src !in blamed {
      ReachesSelf(g[x := n], x);
      assert x in Elements(sent');
    }
  }

  lemma TopSoundGrows(cnt: nat, g: Dag, blamed: set<nat>, tips: map<nat, Id>, local: nat, top: set<Id>, x: Id,
                      n: Node, order: seq<Id>)
    requires DagOk(g, order) && TipsOk(cnt, g, blamed, tips)
    requires Admissible(cnt, g, blamed, NewBlock(x, n)) && TopSound(tips, local, top)
    ensures TopSound(TipsAfter(blamed, tips, x), local, top - Superseded(blamed, x, n) + Entering(blamed, local, x))
  {
    if x.src !in blamed {
      PrevIsTip(cnt, g, order, blamed, tips, x, n);
    }
  }

  /** What processing the tips `v` and their ancestors does to the from-scratch top blocks. */
  lemma TopAfterPick(cnt: nat, g: Dag, order: seq<Id>, blamed: set<nat>, tips: map<nat, Id>, processed: set<Id>,
                     processed': set<Id>, local: nat, v: set<Id>)
    requires DagOk(g, order) && TipsOk(cnt, g, blamed, tips) && MarkedAll(g, processed, processed', v)
    requires TopSound(tips, local, v)
    ensures TopOf(g, tips, processed', local) == TopOf(g, tips, processed, local) - v
  {
    hide DagOk, Dominated, Reaches;
    forall i | i in tips
      ensures IsTop(g, tips, processed', local, i) <==> IsTop(g, tips, processed, local, i) && tips[i] !in v {
      ReachesSelf(g, tips[i]);
      DominatedMeans(cnt, g, order, blamed, tips, i);
    }
  }

  lemma TipsWithout(cnt: nat, g: Dag, blamed: set<nat>, tips: map<nat, Id>, s: nat)
    requires TipsOk(cnt, g, blamed, tips)
    ensures TipsOk(cnt, g, blamed + {s}, tips - {s})
  {
  }

  /** The top blocks of the sources below `k`. */
  ghost function TopBelow(g: Dag, tips: map<nat, Id>, processed: set<Id>, local: nat, k: nat): set<Id>
    requires forall j | j in tips :: tips[j] in g
  {
    set i | i in tips && i < k && IsTop(g, tips, processed, local, i) :: tips[i]
  }

  lemma TopBelowNext(g: Dag, tips: map<nat, Id>, processed: set<Id>, local: nat, k: nat)
    requires forall j | j in tips :: tips[j] in g
    ensures TopBelow(g, tips, processed, local, k + 1)
            == TopBelow(g, tips, processed, local, k) + if IsTop(g, tips, processed, local, k) then {tips[k]} else {}
  {
  }

  lemma TopBelowAll(cnt: nat, g: Dag, blamed: set<nat>, tips: map<nat, Id>, processed: set<Id>, local: nat)
    requires TipsOk(cnt, g, blamed, tips)
    ensures TopBelow(g, tips, processed, local, cnt) == TopOf(g, tips, processed, local)
    ensures TopSound(tips, local, TopOf(g, tips, processed, local))
  {
  }

  /** The invariant of the class. */
  ghost predicate ChainInv(cnt: nat, local: nat, ev: seq<Event>, g: Dag, blamed: set<nat>, tips: map<nat, Id>,
                           top: set<Id>, processed: set<Id>, sent: seq<Id>) {
    && StreamInv(cnt, ev, g, blamed)
    && TipsOk(cnt, g, blamed, tips)
    && Closed(g, processed)
    && SentOk(g, sent) && AllSent(g, blamed, sent)
    && TopSound(tips, local, top)
    && (forall j | j in tips :: tips[j] in g)
    && TopOf(g, tips, processed, local) <= top
    && (Exact(ev) ==> top == TopOf(g, tips, processed, local))
  }

  lemma BlockStep(cnt: nat, local: nat, ev: seq<Event>, g: Dag, blamed: set<nat>, tips: map<nat, Id>, top: set<Id>,
                  processed: set<Id>, sent: seq<Id>,
                  x: Id, n: Node, sent': seq<Id>)
    requires ChainInv(cnt, local, ev, g, blamed, tips, top, processed, sent)
    requires Admissible(cnt, g, blamed, NewBlock(x, n))
    requires SentOk(g[x := n], sent') && sent <= sent'
    requires x.src in blamed || Marked(g[x := n], Elements(sent), Elements(sent'), x)
    ensures ChainInv(cnt, local, ev + [NewBlock(x, n)], g[x := n], blamed, TipsAfter(blamed, tips, x),
                     top - Superseded(blamed, x, n) + Entering(blamed, local, x), processed, sent')
  {
    hide StreamInv, TipsOk, Closed, SentOk, AllSent, TopSound, TopOf, Admissible, Marked, Exact, DagOk;
    var order := Order(ev);
    StreamDag(cnt, ev, g, blamed);
    LinksKnown(cnt, g, blamed, x, n);
    TopAfterNew(cnt, g, order, blamed, tips, processed, local, x, n);
    TopSoundGrows(cnt, g, blamed, tips, local, top, x, n, order);
    StreamBlock(cnt, ev, g, blamed, x, n);
    FlagsGrow(g, x, n, sent, processed);
    AllSentGrows(g, x, n, blamed, sent, sent');
    TipFacts(cnt, g[x := n], blamed, TipsAfter(blamed, tips, x));
  }

  lemma PickStep(cnt: nat, local: nat, ev: seq<Event>, g: Dag, blamed: set<nat>, tips: map<nat, Id>, top: set<Id>,
                 processed: set<Id>, sent: seq<Id>,
                 v: set<Id>, processed': set<Id>)
    requires ChainInv(cnt, local, ev, g, blamed, tips, top, processed, sent) && v <= top
    requires Closed(g, processed') && MarkedAll(g, processed, processed', v)
    ensures ChainInv(cnt, local, ev, g, blamed, tips, top - v, processed', sent)
  {
    hide StreamInv, TipsOk, Closed, SentOk, AllSent, TopOf, MarkedAll, Exact, DagOk;
    StreamDag(cnt, ev, g, blamed);
    TopAfterPick(cnt, g, Order(ev), blamed, tips, processed, processed', local, v);
  }

  // ---------------------------------------------------------------- the class

  class CatChain {
    const cnt: nat
    const local: nat
    const maxDeps: nat
    var g: Dag              // blocks_
    var top: set<Id>        // top_blocks_
    var tips: map<nat, Id>  // top_source_blocks_
    var blamed: set<nat>    // blamed_sources_
    var processed: set<Id>  // the per-block processed flag
    var sent: seq<Id>       // preprocess callbacks; also the per-block preprocess flag
    var processDeps: seq<Id>
    ghost var events: seq<Event>

    ghost predicate Valid()
      reads this
    {
      ChainInv(cnt, local, events, g, blamed, tips, top, processed, sent)
    }

    constructor (cnt: nat, local: nat, maxDeps: nat)
      requires local < cnt
      ensures Valid() && events == [] && g == map[] && this.cnt == cnt && this.local == local && this.maxDeps == maxDeps
      ensures top == {} && tips == map[] && blamed == {} && processed == {} && sent == [] && processDeps == []
    {
      this.cnt, this.local, this.maxDeps := cnt, local, maxDeps;
      g, top, tips, blamed, processed, sent, processDeps, events := map[], {}, map[], {}, {}, [], [], [];
    }

    /** Emits the callbacks of `x` and of its ancestors that have not had theirs. */
    method SendPreprocess(x: Id, ghost order: seq<Id>, ghost i: nat)
      requires DagOk(g, order) && SentOk(g, sent) && i < |order| && order[i] == x && x in g
      modifies this`sent
      ensures SentOk(g, sent) && old(sent) <= sent
      ensures Marked(g, Elements(old(sent)), Elements(sent), x)
      decreases i
    {
      hide DagOk, SentOk, Marked, MarkedAll, Closed;
      ghost var done := Elements(sent);
      SentIsClosed(g, sent);
      if x in sent {
        MarkNothing(g, order, done, x);
        return;
      }
      var n := g[x];
      if n.prev != Root {
        ghost var j := IndexOfLink(g, order, i, n.prev);
        SendPreprocess(n.prev, order, j);
      } else {
        MarkNothing(g, order, done, Root);
      }
      PrevMarked(g, done, Elements(sent), n);
      for k := 0 to |n.deps|
        invariant SentOk(g, sent) && old(sent) <= sent
        invariant MarkedAll(g, done, Elements(sent), LinksUpTo(n, k))
      {
        DepIsBlock(g, order, x, k);
        ghost var j := IndexOfLink(g, order, i, n.deps[k]);
        ghost var done1 := Elements(sent);
        SendPreprocess(n.deps[k], order, j);
        DepsSoFar(g, done, done1, Elements(sent), n, k);
      }
      AllMarked(g, done, Elements(sent), n);
      SendSelf(g, order, done, sent, x);
      sent := sent + [x];
    }

    /** Marks `x` and all its ancestors as processed. */
    method SetProcessed(x: Id, ghost order: seq<Id>, ghost i: nat)
      requires DagOk(g, order) && Closed(g, processed) && i < |order| && order[i] == x && x in g
      modifies this`processed
      ensures Closed(g, processed)
      ensures Marked(g, old(processed), processed, x)
      decreases i
    {
      hide DagOk, Marked, MarkedAll, Closed;
      ghost var done := processed;
      MarkNothing(g, order, done, x);
      if x in processed {
        return;
      }
      var n := g[x];
      if n.prev != Root {
        ghost var j := IndexOfLink(g, order, i, n.prev);
        SetProcessed(n.prev, order, j);
      } else {
        MarkNothing(g, order, done, Root);
      }
      PrevMarked(g, done, processed, n);
      for k := 0 to |n.deps|
        invariant Closed(g, processed)
        invariant MarkedAll(g, done, processed, LinksUpTo(n, k))
      {
        DepIsBlock(g, order, x, k);
        ghost var j := IndexOfLink(g, order, i, n.deps[k]);
        ghost var done1 := processed;
        SetProcessed(n.deps[k], order, j);
        DepsSoFar(g, done, done1, processed, n, k);
      }
      AllMarked(g, done, processed, n);
      MarkSelf(g, done, processed, x);
      MarkCloses(g, order, done, processed, x);
      processed := processed + {x};
    }

    /** A block delivered by the receiver. */
    method OnNewBlock(x: Id, n: Node)
      requires Valid() && Admissible(cnt, g, blamed, NewBlock(x, n))
      modifies this`g, this`top, this`tips, this`sent, this`events
      ensures Valid() && events == old(events) + [NewBlock(x, n)]
      ensures g == old(g)[x := n] && tips == TipsAfter(blamed, old(tips), x)
      ensures top == old(top) - Superseded(blamed, x, n) + Entering(blamed, local, x)
      ensures old(sent) <= sent
      ensures if x.src in blamed then sent == old(sent) else Marked(g, Elements(old(sent)), Elements(sent), x)
    {
      hide ChainInv, SentOk, Admissible, Marked, DagOk, Closed;
      ghost var order := Order(events);
      ChainFacts(cnt, local, events, g, blamed, tips, top, processed, sent);
      LinksKnown(cnt, g, blamed, x, n);
      FlagsGrow(g, x, n, sent, processed);
      ExtendDag(g, order, x, n);
      if n.prev != Root {
        assert n.prev in g;
        top := top - {n.prev};
      }
      for i := 0 to |n.deps|
        invariant top == old(top) - {n.prev} - if x.src in blamed then {} else set d | d in n.deps[..i]
        invariant g == old(g) && tips == old(tips) && sent == old(sent) && events == old(events)
      {
        if x.src !in blamed {
          top := top - {n.deps[i]};
        }
        assert n.deps[i] in g;
      }
      assert n.deps[..|n.deps|] == n.deps;
      g := g[x := n];
      events := events + [NewBlock(x, n)];
      if x.src !in blamed {
        SendPreprocess(x, order + [x], |order|);
        tips := tips[x.src := x];
        if x.src != local {
          top := top + {x};
        }
      }
      assert top == old(top) - Superseded(blamed, x, n) + Entering(blamed, local, x);
      BlockStep(cnt, local, old(events), old(g), blamed, old(tips), old(top), processed, old(sent), x, n, sent);
    }

    /** A source is blamed: its tip no longer counts, and the top blocks are computed afresh. */
    method OnBlame(s: nat)
      requires Valid() && s < cnt
      modifies this`top, this`tips, this`blamed, this`events
      ensures Valid()
      ensures old(s in blamed) ==> unchanged(this)
      ensures old(s !in blamed) ==>
                events == old(events) + [Blame(s)] && blamed == old(blamed) + {s} && tips == old(tips) - {s}
      ensures old(s !in blamed) ==> top == TopOf(g, tips, processed, local)
    {
      hide StreamInv, TipsOk, Closed, SentOk, TopSound, TopOf, Exact, IsDescendantOf;
      if s in blamed {
        return;
      }
      StreamBlame(cnt, events, g, blamed, s);
      TipsWithout(cnt, g, blamed, tips, s);
      blamed := blamed + {s};
      tips := tips - {s};
      events := events + [Blame(s)];
      top := {};
      for i := 0 to cnt
        invariant blamed == old(blamed) + {s} && tips == old(tips) - {s} && events == old(events) + [Blame(s)]
        invariant top == TopBelow(g, tips, processed, local, i)
      {
        TopBelowNext(g, tips, processed, local, i);
        if i !in blamed && i in tips && i != local {
          var b := tips[i];
          var f := true;
          if b in processed {
            continue;
          }
          for j := 0 to cnt
            invariant f
            invariant forall k | k in tips && k < j && k != i :: !IsDescendantOf(g[tips[k]], g[b], Height(b))
          {
            if i != j && j !in blamed && j in tips {
              if IsDescendantOf(g[tips[j]], g[b], Height(b)) {
                f := false;
                break;
              }
            }
          }
          if f {
            top := top + {b};
          }
        }
      }
      TopBelowAll(cnt, g, blamed, tips, processed, local);
    }

    /** Picks the dependencies of the next own block. */
    method SendProcess() returns (v: seq<Id>)
      requires Valid()
      modifies this`top, this`processed, this`processDeps
      ensures Valid()
      ensures processDeps == v && |v| <= maxDeps && (|v| < maxDeps ==> top == {})
      ensures Picked(old(top), top, v)
      ensures MarkedAll(g, old(processed), processed, Elements(v))
    {
      hide ChainInv, DagOk, Closed, SentOk, Marked, MarkedAll, Picked, Elements;
      ghost var order := Order(events);
      MarkedNone(g, processed, top);
      ChainFacts(cnt, local, events, g, blamed, tips, top, processed, sent);
      v := [];
      while top != {} && |v| < maxDeps
        invariant |v| <= maxDeps
        invariant Picked(old(top), top, v)
        invariant Closed(g, processed) && MarkedAll(g, old(processed), processed, Elements(v))
        decreases |top|
      {
        var b :| b in top;
        ghost var was, wasTop := processed, top;
        TopBlock(cnt, local, events, g, blamed, tips, old(top), old(processed), sent, top, v, b);
        top := top - {b};
        if b.src !in blamed {
          assert top + {b} == wasTop;
          PickNext(old(top), top, v, b);
          v := v + [b];
          ghost var i := KnownIndex(g, order, b);
          SetProcessed(b, order, i);
          MarkNext(g, old(processed), was, processed, Elements(v[..|v| - 1]), b);
        }
      }
      processDeps := v;
      PickedSet(old(top), top, v);
      PickStep(cnt, local, events, g, blamed, tips, old(top), old(processed), sent, Elements(v), processed);
    }
  }

  lemma LinksKnown(cnt: nat, g: Dag, blamed: set<nat>, x: Id, n: Node)
    requires Admissible(cnt, g, blamed, NewBlock(x, n))
    ensures x.Blk? && x !in g && CanExtend(g, x, n)
    ensures n.prev != Root ==> n.prev in g
    ensures forall i | 0 <= i < |n.deps| :: n.deps[i] in g
  {
    assert NodeOk(x, n);
    assert forall d | d in n.deps :: d in Links(n);
  }

  lemma ChainFacts(cnt: nat, local: nat, ev: seq<Event>, g: Dag, blamed: set<nat>, tips: map<nat, Id>, top: set<Id>,
                   processed: set<Id>, sent: seq<Id>)
    requires ChainInv(cnt, local, ev, g, blamed, tips, top, processed, sent)
    ensures DagOk(g, Order(ev)) && SentOk(g, sent) && Closed(g, processed) && Root !in top
  {
    StreamDag(cnt, ev, g, blamed);
  }

  lemma TopBlock(cnt: nat, local: nat, ev: seq<Event>, g: Dag, blamed: set<nat>, tips: map<nat, Id>, top: set<Id>,
                 processed: set<Id>, sent: seq<Id>,
                 rest: set<Id>, v: seq<Id>, b: Id)
    requires ChainInv(cnt, local, ev, g, blamed, tips, top, processed, sent) && Picked(top, rest, v) && b in rest
    ensures b.Blk? && b in g && b.src !in blamed
  {
  }

  /** `v` lists, each once, the blocks that left the top blocks. */
  ghost predicate Picked(top: set<Id>, top': set<Id>, v: seq<Id>) {
    && Elements(v) <= top && top' == top - Elements(v)
    && forall i, j | 0 <= i < j < |v| :: v[i] != v[j]
  }

  lemma PickNext(top: set<Id>, rest: set<Id>, v: seq<Id>, b: Id)
    requires b !in rest && Picked(top, rest + {b}, v)
    ensures Picked(top, rest, v + [b]) && Elements(v + [b]) == Elements(v) + {b} && (v + [b])[..|v|] == v
  {
    assert Elements(v + [b]) == Elements(v) + {b};
    assert b in rest + {b};
  }

  lemma MarkedNone(g: Dag, done: set<Id>, top: set<Id>)
    ensures MarkedAll(g, done, done, Elements([])) && Picked(top, top, [])
  {
  }

  lemma PickedSet(top: set<Id>, top': set<Id>, v: seq<Id>)
    requires Picked(top, top', v)
    ensures Elements(v) <= top && top' == top - Elements(v)
  {
  }

  lemma KnownIndex(g: Dag, order: seq<Id>, x: Id) returns (i: nat)
    requires DagOk(g, order) && x in g
    ensures i < |order| && order[i] == x
  {
    i :| 0 <= i < |order| && order[i] == x;
  }

  lemma DepIsBlock(g: Dag, order: seq<Id>, x: Id, k: nat)
    requires DagOk(g, order) && x in g && k < |g[x].deps|
    ensures g[x].deps[k] in Links(g[x]) && g[x].deps[k] != Root
  {
    assert NodeOk(x, g[x]);
  }
}
