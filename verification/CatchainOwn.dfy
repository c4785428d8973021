/**
  The receiver and the layer above it as one system. The two are actors: the layer above sees the
  receiver's callbacks late, and the dependency lists it picks wait in a mailbox until the receiver
  builds an own block from them. The theorem is that, without blame, a list picked at any moment still
  passes the receiver's checks when its own block is built.
 */
module CatchainOwn {
  import opened CatchainDag
  import opened CatchainTop
  import opened CatchainChain
  import opened CatchainTopTheorems
  import State = CatchainState
  import Tables = CatchainTables
  import Receiver = CatchainReceiver

  // ---------------------------------------------------------------- the invariant

  /** All that the last own block depends on has been seen above, and is processed or known to the local tip. */
  ghost predicate PastSeen(all: Dag, g: Dag, tips: map<nat, Id>, processed: set<Id>, local: nat, last: Id) {
    forall y {:trigger Foreign(local, y)} | y in all && Foreign(local, y) && Reaches(all, last, y) ::
      y in g && (y in processed || (local in tips && Reaches(g, tips[local], y)))
  }

  /** The waiting lists: processed foreign blocks that neither the last own block nor an earlier list depends on. */
  ghost predicate ListOk(all: Dag, g: Dag, processed: set<Id>, local: nat, last: Id, deps: seq<Id>) {
    forall d | d in deps :: d in g && d in processed && Foreign(local, d) && !Reaches(all, last, d)
  }

  ghost predicate WaitingOk(all: Dag, g: Dag, processed: set<Id>, local: nat, last: Id, pend: seq<seq<Id>>) {
    && (forall i | 0 <= i < |pend| :: ListOk(all, g, processed, local, last, pend[i]))
    && (forall i, j | 0 <= i < j < |pend| :: Unrelated(g, pend[i], pend[j]))
  }

  /** `last` is the last own block in `all`, or `Root` if there is none. */
  ghost predicate LastOk(all: Dag, local: nat, last: Id) {
    && (last != Root ==> last in all && last.Blk? && last.src == local)
    && (forall y | y in all && y.Blk? && y.src == local :: y.height <= Height(last))
  }

  ghost predicate OwnInv(all: Dag, g: Dag, tips: map<nat, Id>, processed: set<Id>, local: nat, last: Id,
                         pend: seq<seq<Id>>) {
    && Within(g, all) && LastOk(all, local, last)
    && PastSeen(all, g, tips, processed, local, last)
    && WaitingOk(all, g, processed, local, last, pend)
  }

  // ---------------------------------------------------------------- the steps keep it

  /** The layer above picks `v`. */
  lemma PickKeeps(cnt: nat, local: nat, ev: seq<Event>, g: Dag, tips: map<nat, Id>, top: set<Id>, processed: set<Id>,
                  sent: seq<Id>,
                  all: Dag, last: Id, pend: seq<seq<Id>>, v: seq<Id>, processed': set<Id>)
    requires ChainInv(cnt, local, ev, g, {}, tips, top, processed, sent) && Exact(ev)
    requires OwnInv(all, g, tips, processed, local, last, pend)
    requires Elements(v) <= top && MarkedAll(g, processed, processed', Elements(v))
    ensures OwnInv(all, g, tips, processed', local, last, pend + [v])
  {
    hide DagOk, Reaches, Exact, StreamInv, SentOk, TipsOk, TopOf;
    StreamDag(cnt, ev, g, {});
    forall d | d in v ensures d in g && d in processed' && Foreign(local, d) && !Reaches(all, last, d) {
      assert d in Elements(v);
      TopIsAntichain(cnt, local, ev, g, {}, tips, top, processed, sent, d);
      ReachesSelf(g, d);
    }
    forall i, e, d | 0 <= i < |pend| && e in pend[i] && d in v ensures !Reaches(g, e, d) {
      assert d in Elements(v) && ListOk(all, g, processed, local, last, pend[i]) && Foreign(local, e);
      TopIsAntichain(cnt, local, ev, g, {}, tips, top, processed, sent, d);
      if Reaches(g, e, d) {
        NoRoot(g, Order(ev));
        ClosedReach(g, processed, e, d);
      }
    }
    var pend' := pend + [v];
    forall i | 0 <= i < |pend'| ensures ListOk(all, g, processed', local, last, pend'[i]) {
      if i < |pend| {
        assert ListOk(all, g, processed, local, last, pend[i]);
      }
    }
  }

  /** The layer above sees the next block `z`. */
  lemma SeeKeeps(cnt: nat, local: nat, ev: seq<Event>, g: Dag, tips: map<nat, Id>, processed: set<Id>,
                 all: Dag, last: Id, pend: seq<seq<Id>>, z: Id, n: Node)
    requires DagOk(g, Order(ev)) && TipsOk(cnt, g, {}, tips) && Admissible(cnt, g, {}, NewBlock(z, n))
    requires OwnInv(all, g, tips, processed, local, last, pend) && z in all && all[z] == n
    ensures OwnInv(all, g[z := n], tips[z.src := z], processed, local, last, pend)
  {
    hide DagOk, TipsOk, SameSource;
    var order, g', tips' := Order(ev), g[z := n], tips[z.src := z];
    LinksKnown(cnt, g, {}, z, n);
    PrevIsTip(cnt, g, order, {}, tips, z, n);
    forall y | y in all && Foreign(local, y) && Reaches(all, last, y)
      ensures y in g' && (y in processed || (local in tips' && Reaches(g', tips'[local], y)))
    {
      if y !in processed {
        OldReach(g, order, z, n, tips[local], y);
        if z.src == local {
          ReachesVia(g', z, n.prev, y);
        }
      }
    }
    forall i | 0 <= i < |pend| ensures ListOk(all, g', processed, local, last, pend[i]) {
      assert ListOk(all, g, processed, local, last, pend[i]);
    }
    forall i, j | 0 <= i < j < |pend| ensures Unrelated(g', pend[i], pend[j]) {
      assert Unrelated(g, pend[i], pend[j]) && ListOk(all, g, processed, local, last, pend[i]);
      forall e, d | e in pend[i] && d in pend[j] ensures !Reaches(g', e, d) {
        assert Foreign(local, e);
        OldReach(g, order, z, n, e, d);
      }
    }
  }

  /** The receiver delivers a block `z` of another source. */
  lemma DeliverKeeps(cnt: nat, local: nat, ev: seq<Event>, g: Dag, tips: map<nat, Id>, processed: set<Id>,
                     all: Dag, last: Id, pend: seq<seq<Id>>, z: Id, n: Node)
    requires DagOk(all, Order(ev)) && Admissible(cnt, all, {}, NewBlock(z, n)) && z.src != local
    requires OwnInv(all, g, tips, processed, local, last, pend)
    ensures OwnInv(all[z := n], g, tips, processed, local, last, pend)
  {
    hide DagOk, Unrelated;
    var order, all' := Order(ev), all[z := n];
    LinksKnown(cnt, all, {}, z, n);
    NoRoot(all, order);
    forall y | y in all' ensures Reaches(all', last, y) ==> y in all && Reaches(all, last, y) {
      ReachedWasKnown(all, order, z, n, last, y);
    }
    forall i | 0 <= i < |pend| ensures ListOk(all', g, processed, local, last, pend[i]) {
      assert ListOk(all, g, processed, local, last, pend[i]);
    }
  }

  lemma ReachedWasKnown(all: Dag, order: seq<Id>, z: Id, n: Node, last: Id, y: Id)
    requires DagOk(all, order) && CanExtend(all, z, n) && y in all[z := n] && (last == Root || last in all)
    ensures Reaches(all[z := n], last, y) ==> y in all && Reaches(all, last, y)
  {
    if Reaches(all[z := n], last, y) {
      NoRoot(all, order);
      assert NodeOk(z, n);
      if last == Root {
        var l := ReachesStep(all[z := n], last, y);
      } else {
        NewIsNotReached(all, order, z, n, last);
        OldReach(all, order, z, n, last, y);
      }
    }
  }

  /** What the own block `x` depends on: itself, the past of the last own block, the past of its dependencies. */
  lemma OwnPast(all: Dag, order: seq<Id>, g: Dag, gorder: seq<Id>, last: Id, x: Id, n: Node, y: Id)
    requires DagOk(all, order) && DagOk(g, gorder) && Within(g, all) && CanExtend(all, x, n) && n.prev == last
    requires forall d | d in n.deps :: d in g
    requires y in all[x := n] && Reaches(all[x := n], x, y) && y != x
    ensures y in all && (Reaches(all, last, y) || exists e :: e in n.deps && y in g && Reaches(g, e, y))
  {
    var l := ReachesStep(all[x := n], x, y);
    NoRoot(all, order);
    if l == n.prev {
      ReachedWasKnown(all, order, x, n, last, y);
    } else {
      OldReach(all, order, x, n, l, y);
      SameReach(g, gorder, all, l, y);
      var p :| Path(g, p) && p[0] == l && p[|p| - 1] == y;
      PathEndIsKnown(g, gorder, p);
    }
  }

  /** The receiver builds the own block `x` on `last` from the first waiting list. */
  lemma CreateKeeps(cnt: nat, local: nat, ev: seq<Event>, gev: seq<Event>, g: Dag, tips: map<nat, Id>,
                    processed: set<Id>,
                    all: Dag, last: Id, pend: seq<seq<Id>>, x: Id, n: Node)
    requires DagOk(all, Order(ev)) && DagOk(g, Order(gev)) && Closed(g, processed)
    requires Admissible(cnt, all, {}, NewBlock(x, n))
    requires OwnInv(all, g, tips, processed, local, last, pend) && pend != []
    requires x.src == local && n.prev == last && n.deps == pend[0]
    ensures OwnInv(all[x := n], g, tips, processed, local, x, pend[1..])
  {
    hide DagOk, Reaches, Closed;
    var order, gorder, all' := Order(ev), Order(gev), all[x := n];
    LinksKnown(cnt, all, {}, x, n);
    NoRoot(all, order);
    NoRoot(g, gorder);
    assert NodeOk(x, n) && ListOk(all, g, processed, local, last, pend[0]);
    assert forall d | d in n.deps :: Foreign(local, d);
    forall y | y in all' && Foreign(local, y) && Reaches(all', x, y)
      ensures y in g && (y in processed || (local in tips && Reaches(g, tips[local], y)))
    {
      OwnPast(all, order, g, gorder, last, x, n, y);
      if !Reaches(all, last, y) {
        var e :| e in n.deps && y in g && Reaches(g, e, y);
        ClosedReach(g, processed, e, y);
      }
    }
    var pend' := pend[1..];
    forall i | 0 <= i < |pend'| ensures ListOk(all', g, processed, local, x, pend'[i]) {
      assert pend'[i] == pend[i + 1] && ListOk(all, g, processed, local, last, pend[i + 1]) &&
        Unrelated(g, pend[0], pend[i + 1]);
      forall d | d in pend'[i] ensures d in g && d in processed && Foreign(local, d) && !Reaches(all', x, d) {
        assert Foreign(local, d) && d in all;
        if Reaches(all', x, d) {
          OwnPast(all, order, g, gorder, last, x, n, d);
        }
      }
    }
    forall i, j | 0 <= i < j < |pend'| ensures Unrelated(g, pend'[i], pend'[j]) {
      assert Unrelated(g, pend[i + 1], pend[j + 1]);
    }
    forall y | y in all' && y.Blk? && y.src == local ensures y.height <= x.height {
      assert y != x ==> SameSource(x, y);
    }
  }

  /** The list the receiver builds an own block from passes its checks. */
  lemma WaitingListPasses(all: Dag, order: seq<Id>, g: Dag, tips: map<nat, Id>, processed: set<Id>, local: nat,
                          last: Id, pend: seq<seq<Id>>, d: Id)
    requires DagOk(all, order) && OwnInv(all, g, tips, processed, local, last, pend) && pend != [] && d in pend[0]
    ensures d in all && Foreign(local, d)
    ensures last != Root ==> !IsDescendantOf(all[last], all[d], Height(d))
  {
    assert ListOk(all, g, processed, local, last, pend[0]) && Foreign(local, d);
    if last != Root {
      ClockDecidesReachability(all, order, last, d);
    }
  }

  // ---------------------------------------------------------------- runs of the whole system

  /** The receiver's callbacks `ev`, of which the layer above has seen `seen`, its fields, and the mailbox. */
  datatype Sys = Sys(ev: seq<Event>, seen: nat, tips: map<nat, Id>, top: set<Id>, processed: set<Id>, sent: seq<Id>,
                     pend: seq<seq<Id>>, last: Id)

  datatype Step = Deliver(z: Id, n: Node) | See(sent: seq<Id>) | Pick(v: seq<Id>, processed: set<Id>)
      | Create(x: Id, n: Node)

  /** At most `maxDeps` dependencies, of different sources. */
  ghost predicate ShapeOk(maxDeps: nat, v: seq<Id>) {
    |v| <= maxDeps && forall i, j | 0 <= i < j < |v| :: v[i].Blk? && v[j].Blk? && v[i].src != v[j].src
  }

  ghost predicate SysInv(cnt: nat, local: nat, maxDeps: nat, s: Sys) {
    && s.seen <= |s.ev| && StreamInv(cnt, s.ev, DagOf(s.ev), {})
    && ChainInv(cnt, local, s.ev[..s.seen], DagOf(s.ev[..s.seen]), {}, s.tips, s.top, s.processed, s.sent)
    && OwnInv(DagOf(s.ev), DagOf(s.ev[..s.seen]), s.tips, s.processed, local, s.last, s.pend)
    && forall i | 0 <= i < |s.pend| :: ShapeOk(maxDeps, s.pend[i])
  }

  /** Just started: everything seen, nothing picked yet. */
  ghost predicate Started(cnt: nat, local: nat, s: Sys) {
    && s.seen == |s.ev| && s.pend == [] && BlamedOf(s.ev) == {}
    && ChainInv(cnt, local, s.ev, DagOf(s.ev), {}, s.tips, s.top, s.processed, s.sent)
    && LastOk(DagOf(s.ev), local, s.last)
  }

  ghost predicate Took(cnt: nat, local: nat, maxDeps: nat, s: Sys, step: Step, s': Sys)
    requires s.seen <= |s.ev|
  {
    var all, g := DagOf(s.ev), DagOf(s.ev[..s.seen]);
    match step
    case Deliver(z, n) =>
      && Admissible(cnt, all, {}, NewBlock(z, n)) && z.src != local
      && s' == s.(ev := s.ev + [NewBlock(z, n)])
    case See(sent) =>
      && s.seen < |s.ev| && s.ev[s.seen].NewBlock? && s.ev[s.seen].id.Blk?
      && var x, n := s.ev[s.seen].id, s.ev[s.seen].node;
      && SentOk(g[x := n], sent) && s.sent <= sent && Marked(g[x := n], Elements(s.sent), Elements(sent), x)
      && s' == s.(seen := s.seen + 1, tips := TipsAfter({}, s.tips, x),
                  top := s.top - Superseded({}, x, n) + Entering({}, local, x), sent := sent)
    case Pick(v, processed) =>
      && Picked(s.top, s.top - Elements(v), v) && |v| <= maxDeps
      && Closed(g, processed) && MarkedAll(g, s.processed, processed, Elements(v))
      && s' == s.(top := s.top - Elements(v), processed := processed, pend := s.pend + [v])
    case Create(x, n) =>
      && s.pend != [] && Admissible(cnt, all, {}, NewBlock(x, n)) && x.src == local && n.prev == s.last &&
         n.deps == s.pend[0]
      && s' == s.(ev := s.ev + [NewBlock(x, n)], last := x, pend := s.pend[1..])
  }

  lemma StartedIsSafe(cnt: nat, local: nat, maxDeps: nat, s: Sys)
    requires Started(cnt, local, s)
    ensures SysInv(cnt, local, maxDeps, s)
  {
    var g := DagOf(s.ev);
    assert s.ev[..s.seen] == s.ev;
    StreamDag(cnt, s.ev, g, {});
    NoRoot(g, Order(s.ev));
    forall y | y in g && Foreign(local, y) && Reaches(g, s.last, y)
      ensures local in s.tips && Reaches(g, s.tips[local], y) {
      if s.last == Root {
        var l := ReachesStep(g, s.last, y);
      } else {
        TipReaches(cnt, g, Order(s.ev), {}, s.tips, s.last);
        ReachesTransitive(g, s.tips[local], s.last, y);
      }
    }
  }

  lemma StepIsSafe(cnt: nat, local: nat, maxDeps: nat, s: Sys, step: Step, s': Sys)
    requires SysInv(cnt, local, maxDeps, s) && Took(cnt, local, maxDeps, s, step, s')
    ensures SysInv(cnt, local, maxDeps, s')
  {
    hide ChainInv, OwnInv, StreamInv, DagOk, DagOf, Admissible, ShapeOk;
    var all, g := DagOf(s.ev), DagOf(s.ev[..s.seen]);
    StreamDag(cnt, s.ev, all, {});
    SeenFacts(cnt, local, s);
    match step
    case Deliver(z, n) =>
      StreamBlock(cnt, s.ev, all, {}, z, n);
      StreamIs(cnt, s'.ev, all[z := n]);
      DeliverKeeps(cnt, local, s.ev, g, s.tips, s.processed, all, s.last, s.pend, z, n);
      assert s'.ev[..s.seen] == s.ev[..s.seen];
    case See(sent) =>
      var x, n := s.ev[s.seen].id, s.ev[s.seen].node;
      NextSeen(cnt, local, s);
      BlockStep(cnt, local, s.ev[..s.seen], g, {}, s.tips, s.top, s.processed, s.sent, x, n, sent);
      SeeKeeps(cnt, local, s.ev[..s.seen], g, s.tips, s.processed, all, s.last, s.pend, x, n);
      StreamBlock(cnt, s.ev[..s.seen], g, {}, x, n);
      StreamIs(cnt, s.ev[..s.seen] + [NewBlock(x, n)], g[x := n]);
      assert s'.ev[..s'.seen] == s.ev[..s.seen] + [NewBlock(x, n)];
    case Pick(v, processed) =>
      PickedSet(s.top, s'.top, v);
      PickStep(cnt, local, s.ev[..s.seen], g, {}, s.tips, s.top, s.processed, s.sent, Elements(v), processed);
      BlameFreeNow(cnt, s.ev[..s.seen], g);
      PickKeeps(cnt, local, s.ev[..s.seen], g, s.tips, s.top, s.processed, s.sent, all, s.last, s.pend, v, processed);
      PickedShape(cnt, local, maxDeps, s, v);
    case Create(x, n) =>
      StreamBlock(cnt, s.ev, all, {}, x, n);
      StreamIs(cnt, s'.ev, all[x := n]);
      CreateKeeps(cnt, local, s.ev, s.ev[..s.seen], g, s.tips, s.processed, all, s.last, s.pend, x, n);
      assert s'.ev[..s.seen] == s.ev[..s.seen];
  }

  lemma StreamIs(cnt: nat, ev: seq<Event>, g: Dag)
    requires StreamInv(cnt, ev, g, {})
    ensures DagOf(ev) == g
  {
  }

  lemma SeenFacts(cnt: nat, local: nat, s: Sys)
    requires s.seen <= |s.ev|
    requires ChainInv(cnt, local, s.ev[..s.seen], DagOf(s.ev[..s.seen]), {}, s.tips, s.top, s.processed, s.sent)
    ensures DagOk(DagOf(s.ev[..s.seen]), Order(s.ev[..s.seen])) && Closed(DagOf(s.ev[..s.seen]), s.processed)
    ensures TipsOk(cnt, DagOf(s.ev[..s.seen]), {}, s.tips) && StreamInv(cnt, s.ev[..s.seen], DagOf(s.ev[..s.seen]), {})
  {
    ChainFacts(cnt, local, s.ev[..s.seen], DagOf(s.ev[..s.seen]), {}, s.tips, s.top, s.processed, s.sent);
  }

  lemma NextSeen(cnt: nat, local: nat, s: Sys)
    requires s.seen < |s.ev| && s.ev[s.seen].NewBlock? && StreamInv(cnt, s.ev, DagOf(s.ev), {})
    ensures Admissible(cnt, DagOf(s.ev[..s.seen]), {}, NewBlock(s.ev[s.seen].id, s.ev[s.seen].node))
    ensures s.ev[s.seen].id in DagOf(s.ev) && DagOf(s.ev)[s.ev[s.seen].id] == s.ev[s.seen].node
  {
    StreamPrefix(cnt, s.ev, s.seen);
  }

  lemma BlameFreeNow(cnt: nat, ev: seq<Event>, g: Dag)
    requires StreamInv(cnt, ev, g, {})
    ensures Exact(ev)
  {
    BlameFreeIsExact(cnt, ev);
  }

  lemma PickedShape(cnt: nat, local: nat, maxDeps: nat, s: Sys, v: seq<Id>)
    requires s.seen <= |s.ev|
    requires ChainInv(cnt, local, s.ev[..s.seen], DagOf(s.ev[..s.seen]), {}, s.tips, s.top, s.processed, s.sent)
    requires Picked(s.top, s.top - Elements(v), v) && |v| <= maxDeps
    ensures ShapeOk(maxDeps, v)
  {
    assert forall i | 0 <= i < |v| :: v[i] in Elements(v);
  }

  lemma {:induction false} RunIsSafe(cnt: nat, local: nat, maxDeps: nat, run: seq<Sys>, steps: seq<Step>)
    requires |run| == |steps| + 1 && Started(cnt, local, run[0])
    requires forall i | 0 <= i < |steps| ::
               run[i].seen <= |run[i].ev| && Took(cnt, local, maxDeps, run[i], steps[i], run[i + 1])
    ensures SysInv(cnt, local, maxDeps, run[|steps|])
  {
    hide Started, Took, SysInv;
    var m := |steps|;
    if m == 0 {
      StartedIsSafe(cnt, local, maxDeps, run[0]);
    } else {
      RunIsSafe(cnt, local, maxDeps, run[..m], steps[..m - 1]);
      StepIsSafe(cnt, local, maxDeps, run[m - 1], steps[m - 1], run[m - 1 + 1]);
    }
  }

  /**
    Main theorem. In every blame-free run, at every moment, the next list the receiver will build an own
    block from holds at most `maxDeps` delivered blocks of different foreign sources, none of which the
    last own block depends on, by the comparison of timestamps the receiver makes.
   */
  lemma OwnDepsAlwaysPass(cnt: nat, local: nat, maxDeps: nat, run: seq<Sys>, steps: seq<Step>, s: Sys)
    requires |run| == |steps| + 1 && Started(cnt, local, run[0]) && s == run[|steps|]
    requires forall i | 0 <= i < |steps| ::
               run[i].seen <= |run[i].ev| && Took(cnt, local, maxDeps, run[i], steps[i], run[i + 1])
    ensures s.pend != [] ==> ShapeOk(maxDeps, s.pend[0])
    ensures s.pend != [] ==> forall d | d in s.pend[0] :: d in DagOf(s.ev) && Foreign(local, d)
    ensures s.last != Root ==> s.last in DagOf(s.ev) && s.last.Blk? && s.last.src == local
    ensures s.pend != [] && s.last != Root ==>
              forall d | d in s.pend[0] :: !IsDescendantOf(DagOf(s.ev)[s.last], DagOf(s.ev)[d], Height(d))
  {
    hide Started, Took, ChainInv, DagOk, DagOf, WaitingOk, PastSeen, IsDescendantOf;
    RunIsSafe(cnt, local, maxDeps, run, steps);
    StreamDag(cnt, s.ev, DagOf(s.ev), {});
    if s.pend != [] {
      forall d | d in s.pend[0]
        ensures d in DagOf(s.ev) && Foreign(local, d)
        ensures s.last != Root ==> !IsDescendantOf(DagOf(s.ev)[s.last], DagOf(s.ev)[d], Height(d))
      {
        WaitingListPasses(DagOf(s.ev), Order(s.ev), DagOf(s.ev[..s.seen]), s.tips, s.processed, local, s.last,
          s.pend, d);
      }
    }
  }

  /**
    So the links of the next own block are what the receiver asks for: with its own tables in the state the
    run describes, they are delivered, of different foreign sources, few enough, and fresh.
   */
  lemma OwnDepsAreFresh(cnt: nat, local: nat, maxDeps: nat, run: seq<Sys>, steps: seq<Step>, s: Sys, t: Tables.Table,
                        q: seq<Id>, book: Tables.Book)
    requires |run| == |steps| + 1 && Started(cnt, local, run[0]) && s == run[|steps|] && s.pend != []
    requires forall i | 0 <= i < |steps| ::
               run[i].seen <= |run[i].ev| && Took(cnt, local, maxDeps, run[i], steps[i], run[i + 1])
    requires Tables.TableInv(cnt, t, q, DagOf(s.ev), {})
    requires State.EventsOk(cnt, s.ev, DagOf(s.ev), book.blamed) && |book.ids| == cnt
    ensures Tables.LinksDelivered(t.st, State.Link(s.last, s.pend[0]))
    ensures Tables.FreshDeps(t, book, State.Link(s.last, s.pend[0]))
    ensures ShapeOk(maxDeps, s.pend[0])
    ensures forall d | d in s.pend[0] :: d.Blk? && d.src < cnt && d.src != local && d.height > 0
    ensures s.last == Root || (s.last.Blk? && s.last.src == local)
  {
    hide Started, Took, DagOf, SysInv, IsDescendantOf, Tables.TableInv, Tables.FreshDeps, Tables.LinksDelivered,
         StreamOk, ShapeOk;
    RunIsSafe(cnt, local, maxDeps, run, steps);
    BlamedNone(cnt, local, maxDeps, s);
    OwnDepsAlwaysPass(cnt, local, maxDeps, run, steps, s);
    PassingIsFresh(cnt, t, q, DagOf(s.ev), book, s.last, s.pend[0]);
  }

  /** `d` refers to `x`. */
  predicate RefersTo(cnt: nat, incarnation: nat, d: Tables.Dep, x: Id) {
    if x == Root then d.src == cnt && d.height == 0 && d.data == incarnation && d.sig == 0
    else d.src == x.src && d.height == x.height && d.data == x.data
  }

  /** The message of an own block on `last` with dependencies `deps`. */
  ghost predicate Built(cnt: nat, incarnation: nat, local: nat, last: Id, deps: seq<Id>, m: Receiver.Msg) {
    && m.src == local && m.height == Height(last) + 1 && RefersTo(cnt, incarnation, m.prev, last)
    && |m.deps| == |deps| && forall i | 0 <= i < |deps| :: RefersTo(cnt, incarnation, m.deps[i], deps[i])
  }

  lemma BuiltIsValid(cnt: nat, maxDeps: nat, incarnation: nat, sigOk: (Id, nat) -> bool, local: nat, last: Id,
                     deps: seq<Id>, m: Receiver.Msg,
                     known: map<Id, State.BlockState>)
    requires Built(cnt, incarnation, local, last, deps, m) && local < cnt
    requires last == Root || (last.Blk? && last.src == local && last.height > 0)
    requires ShapeOk(maxDeps, deps) && last in known
    requires forall d | d in deps :: d.Blk? && d.src < cnt && d.src != local && d.height > 0 && d in known
    requires !m.payload.Empty? && sigOk(Blk(local, Height(last) + 1, m.data), m.sig)
    ensures Receiver.ValidMsg(cnt, maxDeps, incarnation, known, sigOk, m) && Receiver.NoRootDeps(m)
    ensures Receiver.MsgLink(m) == State.Link(last, deps)
  {
    forall i | 0 <= i < |m.deps|
      ensures m.deps[i].height > 0 && m.deps[i].src != local && Tables.DepId(m.deps[i]) == deps[i]
      ensures Tables.ValidDep(cnt, incarnation, known, sigOk, m.deps[i])
    {
      assert deps[i] in deps;
    }
    assert Receiver.MsgLink(m).deps == deps;
  }

  /**
    The system and the receiver together: in every blame-free run the next own block, once it is signed, is
    valid, and adding it delivers it at once.
   */
  method SendOwn(rec: Receiver.Receiver, ghost run: seq<Sys>, ghost steps: seq<Step>, ghost s: Sys, m: Receiver.Msg)
    requires |run| == |steps| + 1 && Started(rec.cnt, rec.local, run[0]) && s == run[|steps|] && s.pend != []
    requires forall i | 0 <= i < |steps| ::
               run[i].seen <= |run[i].ev| && Took(rec.cnt, rec.local, rec.maxDeps, run[i], steps[i], run[i + 1])
    requires rec.Valid() && rec.q == [] && rec.events == s.ev && rec.local < rec.cnt
    requires Built(rec.cnt, rec.incarnation, rec.local, s.last, s.pend[0], m)
    requires rec.checkSignature(Receiver.MsgId(m), m.sig)
    requires !m.payload.Empty? && !m.payload.ForkProof?
    requires Receiver.MsgId(m) !in rec.t.st || rec.t.st[Receiver.MsgId(m)] == State.None
    modifies rec
    ensures rec.Valid() && rec.q == [] && s.ev <= rec.events
    ensures Receiver.MsgId(m) in rec.t.st && rec.t.st[Receiver.MsgId(m)] == State.Delivered
    ensures rec.t.lk == old(rec.t.lk)[Receiver.MsgId(m) := State.Link(s.last, s.pend[0])]
  {
    hide Started, Took, DagOf, Tables.TableInv, Tables.BookInv, State.ForkIdsOk, Tables.FreshDeps,
         Tables.LinksDelivered, StreamOk, ShapeOk, Built, Receiver.ValidMsg, Tables.Passing;
    hide FreshDag, State.Evolves, Tables.Quiescent, Receiver.NoRootDeps;
    assert rec.g == DagOf(s.ev);
    Tables.BookLength(rec.cnt, rec.t.st, rec.s);
    OwnDepsAreFresh(rec.cnt, rec.local, rec.maxDeps, run, steps, s, rec.t, rec.q, rec.s);
    DeliveredKnown(rec.t.st, s.last, s.pend[0]);
    BuiltId(rec.cnt, rec.incarnation, rec.local, s.last, s.pend[0], m);
    LastHeight(rec.cnt, rec.t, rec.q, rec.g, s.last);
    BuiltIsValid(rec.cnt, rec.maxDeps, rec.incarnation, rec.checkSignature, rec.local, s.last, s.pend[0], m, rec.t.st);
    Tables.FreshPasses(rec.cnt, rec.incarnation, rec.checkSignature, rec.t, rec.s,
      rec.t.st[Receiver.MsgId(m) := State.None], State.Link(s.last, s.pend[0]), m.payload);
    rec.AddOwnBlock(m);
  }

  lemma BuiltId(cnt: nat, incarnation: nat, local: nat, last: Id, deps: seq<Id>, m: Receiver.Msg)
    requires Built(cnt, incarnation, local, last, deps, m)
    ensures Receiver.MsgId(m) == Blk(local, Height(last) + 1, m.data)
  {
  }

  lemma DeliveredKnown(st: map<Id, State.BlockState>, last: Id, deps: seq<Id>)
    requires Tables.LinksDelivered(st, State.Link(last, deps))
    ensures last in st && st[last] == State.Delivered && forall d | d in deps :: d in st
  {
    assert State.IsLink(State.Link(last, deps), last);
    forall d | d in deps ensures d in st {
      assert State.IsLink(State.Link(last, deps), d);
    }
  }

  lemma LastHeight(cnt: nat, t: Tables.Table, q: seq<Id>, g: Dag, x: Id)
    requires Tables.TableInv(cnt, t, q, g, {}) && x in t.st
    ensures x == Root || x.height > 0
  {
    hide State.HealthOk, State.RevOk, State.PendingOk, State.QueueOk, State.ClocksOk, State.GraphOk, State.NextOk,
         State.NextFrom, State.RunOk;
  }

  lemma PassingIsFresh(cnt: nat, t: Tables.Table, q: seq<Id>, g: Dag, book: Tables.Book, last: Id, deps: seq<Id>)
    requires Tables.TableInv(cnt, t, q, g, {}) && book.blamed == {} && |book.ids| == cnt
    requires (last != Root ==> last in g) && forall d | d in deps :: d in g && d.Blk?
    requires last != Root ==> forall d | d in deps :: !IsDescendantOf(g[last], g[d], Height(d))
    ensures Tables.LinksDelivered(t.st, State.Link(last, deps)) && Tables.FreshDeps(t, book, State.Link(last, deps))
    ensures forall d | d in deps :: d.src < cnt && d.height > 0
  {
    hide Tables.TableInv;
    InGraph(cnt, t, q, g, last);
    forall d | d in deps
      ensures d in t.st && t.st[d] == State.Delivered && d in t.fork && d.src < cnt
      ensures d.height > At(t.clk[last], t.fork[d]) && d.height > 0
    {
      InGraph(cnt, t, q, g, d);
    }
  }

  lemma InGraph(cnt: nat, t: Tables.Table, q: seq<Id>, g: Dag, x: Id)
    requires Tables.TableInv(cnt, t, q, g, {}) && (x == Root || x in g)
    ensures x in t.st && t.st[x] == State.Delivered && x in t.clk
    ensures if x == Root then t.clk[x] == []
            else && x.height > 0 && x.src < cnt && x in g && x in t.fork
                 && g[x].fork == t.fork[x] && g[x].vt == t.clk[x]
  {
    hide State.HealthOk, State.RevOk, State.PendingOk, State.QueueOk, State.ClocksOk, State.NextOk, State.RunOk;
  }

  lemma BlamedNone(cnt: nat, local: nat, maxDeps: nat, s: Sys)
    requires SysInv(cnt, local, maxDeps, s)
    ensures BlamedOf(s.ev) == {}
  {
  }
}
