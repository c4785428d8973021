/**
  How an own block is sent: signed, stored, pointed to by the last-block pointer, and only then shown
  to anybody; and how a restarted receiver resumes from that pointer. Storage commits writes in the
  order they were issued; a crash keeps some prefix of them that contains everything acknowledged. A
  failed check ends the program, which leaves what a crash leaves.

  The theorem is that, whatever is asked for and whatever the crashes, the own blocks ever held in memory (and
  so ever delivered or served) form one chain: `chain` only grows, and it has one block per height. It holds as
  long as no restart finds a fork among the blocks it reads; `Recover` tells whether it did, and `ShowSecond` what
  comes of it.
 */
module CatchainPipeline {
  import opened CatchainDag
  import opened CatchainState
  import opened CatchainTables
  import opened CatchainTheorems
  import opened CatchainReplay
  import opened CatchainReceiver
  import opened CatchainRestart

  // ---------------------------------------------------------------- storage

  datatype Write = Put(m: Msg) | Point(id: Id)

  /** The stored blocks after the writes `log`. */
  function Disk(log: seq<Write>): map<Id, Msg> {
    if log == [] then map[] else
      match log[|log| - 1]
      case Put(m) => Disk(log[..|log| - 1])[MsgId(m) := m]
      case Point(_) => Disk(log[..|log| - 1])
  }

  /** The stored last-block pointer; `Root` if none was written. */
  function Pointer(log: seq<Write>): Id {
    if log == [] then Root else
      match log[|log| - 1]
      case Put(_) => Pointer(log[..|log| - 1])
      case Point(x) => x
  }

  lemma {:induction false} Appended(log: seq<Write>, w: Write)
    ensures Disk(log + [w]) == if w.Put? then Disk(log)[MsgId(w.m) := w.m] else Disk(log)
    ensures Pointer(log + [w]) == if w.Point? then w.id else Pointer(log)
  {
    assert (log + [w])[..|log|] == log;
  }

  // ---------------------------------------------------------------- the invariant

  /** An own block with its links. */
  datatype Own = Own(id: Id, k: Link)

  /** One block per height, each linked to the one before. */
  ghost predicate ChainOk(local: nat, chain: seq<Own>) {
    forall i | 0 <= i < |chain| ::
      chain[i].id.Blk? && chain[i].id.src == local && chain[i].id.height == i + 1 && chain[i].k.prev == Tip(chain[..i])
  }

  ghost function Tip(chain: seq<Own>): Id {
    if chain == [] then Root else chain[|chain| - 1].id
  }

  ghost predicate InChain(chain: seq<Own>, x: Id) {
    exists i :: 0 <= i < |chain| && chain[i].id == x
  }

  /** The next own block: it continues the chain and its dependencies are blocks of others. */
  ghost predicate NextOwn(local: nat, chain: seq<Own>, x: Id, k: Link) {
    && x.Blk? && x.src == local && x.height == |chain| + 1 && k.prev == Tip(chain)
    && forall d | d in k.deps :: Foreign(local, d)
  }

  /** A name that others can know: an own block that was never shown cannot be named, as signatures cannot be forged. */
  ghost predicate Nameable(local: nat, chain: seq<Own>, x: Id) {
    x == Root || Foreign(local, x) || InChain(chain, x)
  }

  ghost predicate Honest(local: nat, chain: seq<Own>, k: Link) {
    forall l | IsLink(k, l) :: Nameable(local, chain, l)
  }

  ghost predicate HonestMsg(local: nat, chain: seq<Own>, m: Msg) {
    && MsgId(m) != Root && Nameable(local, chain, MsgId(m)) && Honest(local, chain, MsgLink(m))
    && HonestProof(local, chain, m.payload)
  }

  ghost predicate HonestProof(local: nat, chain: seq<Own>, pl: Payload) {
    pl.ForkProof? ==> Nameable(local, chain, DepId(pl.left)) && Nameable(local, chain, DepId(pl.right))
  }

  /** The block `p` and all its ancestors are stored, without cycles. */
  ghost predicate Anchored(lk: map<Id, Link>, p: Id) {
    p != Root ==> exists ord :: Ordered(lk, ord) && p in ord
  }

  ghost predicate ChainStored(lk: map<Id, Link>, chain: seq<Own>) {
    forall i | 0 <= i < |chain| :: chain[i].id in lk && lk[chain[i].id] == chain[i].k
  }

  /** What a restart from blocks with links `lk` and pointer `p` needs. */
  ghost predicate LinksOk(local: nat, lk: map<Id, Link>, p: Id, chain: seq<Own>) {
    && Root !in lk && ChainStored(lk, chain) && Anchored(lk, p)
    && (forall x | x in lk :: Honest(local, chain, lk[x]))
    && (p == Tip(chain) || (p in lk && NextOwn(local, chain, p, lk[p])))
  }

  ghost predicate StoreOk(local: nat, d: map<Id, Msg>, p: Id, chain: seq<Own>) {
    Filed(d) && LinksOk(local, LinksOf(d), p, chain) && forall x | x in d :: HonestProof(local, chain, d[x].payload)
  }

  /** Every prefix of the writes that a crash may leave is good. */
  ghost predicate LogOk(local: nat, log: seq<Write>, durable: nat, chain: seq<Own>) {
    durable <= |log| && forall n | durable <= n <= |log| :: StoreOk(local, Disk(log[..n]), Pointer(log[..n]), chain)
  }

  /** From `from` on the pointer is `x`. */
  ghost predicate PointsTo(log: seq<Write>, from: nat, x: Id) {
    from <= |log| && forall n | from <= n <= |log| :: Pointer(log[..n]) == x
  }

  /** From `from` on `m` is stored. */
  ghost predicate Keeps(log: seq<Write>, from: nat, m: Msg) {
    from <= |log| && forall n | from <= n <= |log| :: MsgId(m) in Disk(log[..n]) && Disk(log[..n])[MsgId(m)] == m
  }

  /** A block that is neither ill nor known by name only. */
  ghost predicate Live(t: Table, x: Id) {
    x in t.lk && x in t.st && (t.st[x] == Initialized || t.st[x] == Delivered)
  }

  /** Memory: live blocks are stored with the same links, and the own blocks known are the chain, all delivered. */
  ghost predicate MemOk(local: nat, lk: map<Id, Link>, t: Table, chain: seq<Own>) {
    && (forall x | Live(t, x) :: x in lk && lk[x] == t.lk[x])
    && (forall x | x in t.st && x != Root && !Foreign(local, x) :: InChain(chain, x))
    && (forall i | 0 <= i < |chain| :: chain[i].id in t.st && t.st[chain[i].id] == Delivered)
  }

  /** Delivered blocks are stored with the same links. */
  ghost predicate StoredDag(lk: map<Id, Link>, g: Dag) {
    forall x | x in g :: x in lk && lk[x] == Link(g[x].prev, g[x].deps)
  }

  // ---------------------------------------------------------------- elementary facts

  lemma {:induction false} ChainHeights(local: nat, chain: seq<Own>, x: Id, k: Link)
    requires ChainOk(local, chain) && NextOwn(local, chain, x, k)
    ensures !InChain(chain, x) && ChainOk(local, chain + [Own(x, k)]) && Tip(chain + [Own(x, k)]) == x
  {
    var c := chain + [Own(x, k)];
    forall i | 0 <= i < |c|
      ensures c[i].id.Blk? && c[i].id.src == local && c[i].id.height == i + 1 && c[i].k.prev == Tip(c[..i]) {
      assert c[..i] == chain[..i];
      if i == |chain| {
        assert chain[..i] == chain;
      }
    }
  }

  lemma {:induction false} GrownChain(local: nat, chain: seq<Own>, o: Own, k: Link)
    requires Honest(local, chain, k)
    ensures Honest(local, chain + [o], k)
  {
    forall l | IsLink(k, l) ensures Nameable(local, chain + [o], l) {
      GrownName(local, chain, o, l);
    }
  }

  lemma {:induction false} GrownName(local: nat, chain: seq<Own>, o: Own, x: Id)
    ensures Nameable(local, chain, x) ==> Nameable(local, chain + [o], x)
  {
    if InChain(chain, x) {
      var i :| 0 <= i < |chain| && chain[i].id == x;
      assert (chain + [o])[i].id == x;
    }
  }

  lemma GrownProof(local: nat, chain: seq<Own>, o: Own, pl: Payload)
    requires HonestProof(local, chain, pl)
    ensures HonestProof(local, chain + [o], pl)
  {
    if pl.ForkProof? {
      GrownName(local, chain, o, DepId(pl.left));
      GrownName(local, chain, o, DepId(pl.right));
    }
  }

  /** An honest fork proof is not against the own chain. */
  lemma {:induction false} NotAccused(local: nat, chain: seq<Own>, pl: Payload)
    requires ChainOk(local, chain) && HonestProof(local, chain, pl)
    ensures !Accuses(pl, local)
  {
    if Accuses(pl, local) {
      var i :| 0 <= i < |chain| && chain[i].id == DepId(pl.left);
      var j :| 0 <= j < |chain| && chain[j].id == DepId(pl.right);
    }
  }

  lemma LinksOfPut(d: map<Id, Msg>, m: Msg)
    ensures LinksOf(d[MsgId(m) := m]) == LinksOf(d)[MsgId(m) := MsgLink(m)]
  {
  }

  lemma {:induction false} OrderedAppend(lk: map<Id, Link>, ord: seq<Id>, x: Id)
    requires Ordered(lk, ord) && x in lk && forall l | IsLink(lk[x], l) && l != Root :: l in ord
    ensures Ordered(lk, ord + [x])
  {
    var o := ord + [x];
    forall i, l | 0 <= i < |o| && IsLink(lk[o[i]], l) && l != Root ensures l in o[..i] {
      assert o[..i] == ord[..i];
      if i == |ord| {
        assert ord[..i] == ord;
      }
    }
  }

  lemma {:induction false} Prefixes(log: seq<Write>, w: Write)
    ensures forall n | 0 <= n <= |log| :: (log + [w])[..n] == log[..n]
    ensures (log + [w])[..|log| + 1] == log + [w] && log[..|log|] == log
  {
  }

  /** One more write is good if the state after it is. */
  lemma {:induction false} LogGrows(local: nat, log: seq<Write>, durable: nat, chain: seq<Own>, w: Write)
    requires LogOk(local, log, durable, chain) && StoreOk(local, Disk(log + [w]), Pointer(log + [w]), chain)
    ensures LogOk(local, log + [w], durable, chain)
  {
    hide StoreOk, Disk, Pointer;
    Prefixes(log, w);
  }

  lemma {:induction false} PointsGrow(log: seq<Write>, from: nat, x: Id, w: Write)
    requires PointsTo(log, from, x) && Pointer(log + [w]) == x
    ensures PointsTo(log + [w], from, x)
  {
    hide Pointer;
    Prefixes(log, w);
  }

  lemma {:induction false} KeepsGrow(log: seq<Write>, from: nat, m: Msg, w: Write)
    requires Keeps(log, from, m) && MsgId(m) in Disk(log + [w]) && Disk(log + [w])[MsgId(m)] == m
    ensures Keeps(log + [w], from, m)
  {
    hide Disk;
    Prefixes(log, w);
  }

  /** What holds after all writes. */
  lemma {:induction false} LogNow(local: nat, log: seq<Write>, durable: nat, chain: seq<Own>)
    requires LogOk(local, log, durable, chain)
    ensures StoreOk(local, Disk(log), Pointer(log), chain)
  {
    hide StoreOk, Disk, Pointer;
    assert log[..|log|] == log;
  }

  lemma {:induction false} StartsNow(log: seq<Write>, x: Id, m: Msg)
    ensures Pointer(log) == x ==> PointsTo(log, |log|, x)
    ensures MsgId(m) in Disk(log) && Disk(log)[MsgId(m)] == m ==> Keeps(log, |log|, m)
  {
    hide Disk, Pointer;
    assert log[..|log|] == log;
  }

  lemma {:induction false} HoldsNow(log: seq<Write>, from: nat, x: Id, m: Msg)
    ensures PointsTo(log, from, x) ==> Pointer(log) == x
    ensures Keeps(log, from, m) ==> MsgId(m) in Disk(log) && Disk(log)[MsgId(m)] == m
  {
    hide Disk, Pointer;
    assert log[..|log|] == log;
  }

  // ---------------------------------------------------------------- where a restart may start

  ghost predicate LinksIn(k: Link, g: Dag) {
    forall l | IsLink(k, l) && l != Root :: l in g
  }

  /** `p` is delivered, or its links are. */
  ghost predicate Startable(g: Dag, lk: map<Id, Link>, p: Id) {
    p == Root || p in g || (p in lk && LinksIn(lk[p], g))
  }

  /** Between delivered blocks, links as stored are links of the graph. */
  lemma {:induction false} StoredPath(lk: map<Id, Link>, g: Dag, order: seq<Id>, p: seq<Id>)
    requires StoredDag(lk, g) && DagOk(g, order) && Root !in lk && LinkPath(lk, p) && (p[0] in g || p[0] == Root)
    ensures Path(g, p) && (p[|p| - 1] in g || p[|p| - 1] == Root)
    decreases |p|
  {
    if |p| > 1 {
      var q := p[1..];
      assert p[0] in lk && IsLink(lk[p[0]], p[0 + 1]) && q[0] == p[1] && LinkPath(lk, q);
      OldLinksStay(g, order, p[0]);
      assert p[1] in Links(g[p[0]]);
      StoredPath(lk, g, order, q);
      forall i | 0 <= i < |p| - 1 ensures p[i] in g && p[i + 1] in Links(g[p[i]]) {
        if i > 0 {
          assert q[i - 1] == p[i] && q[i - 1 + 1] == p[i + 1];
        }
      }
    }
  }

  lemma StoredReaches(lk: map<Id, Link>, g: Dag, order: seq<Id>, a: Id, b: Id)
    requires StoredDag(lk, g) && DagOk(g, order) && Root !in lk && Linked(lk, a, b) && (a in g || a == Root)
    ensures Reaches(g, a, b) && (b in g || b == Root)
  {
    hide DagOk, StoredDag;
    var p :| LinkPath(lk, p) && p[0] == a && p[|p| - 1] == b;
    StoredPath(lk, g, order, p);
  }

  lemma StoredOrder(lk: map<Id, Link>, g: Dag, order: seq<Id>)
    requires StoredDag(lk, g) && DagOk(g, order)
    ensures Ordered(lk, order)
  {
    forall i, l | 0 <= i < |order| && IsLink(lk[order[i]], l) && l != Root ensures l in order[..i] {
      assert order[i] in order && order[i] in g && l in Links(g[order[i]]);
    }
  }

  lemma StartAnchored(lk: map<Id, Link>, g: Dag, order: seq<Id>, p: Id)
    requires StoredDag(lk, g) && DagOk(g, order) && Startable(g, lk, p)
    ensures Anchored(lk, p)
  {
    hide Ordered, StoredDag, IsLink;
    StoredOrder(lk, g, order);
    assert forall x :: x in order <==> x in g;
    if p in g {
      assert Ordered(lk, order) && p in order;
    } else if p != Root {
      OrderedAppend(lk, order, p);
      assert Ordered(lk, order + [p]) && p in order + [p];
    }
  }

  /**
    When `p` needs nothing but blocks whose predecessors do not depend on their direct dependencies: exactly if
    `p` itself is delivered or such a block. All others were accepted.
   */
  lemma StartFresh(lk: map<Id, Link>, g: Dag, order: seq<Id>, p: Id)
    requires StoredDag(lk, g) && DagOk(g, order) && FreshDag(g) && Root !in lk && Startable(g, lk, p)
    ensures FreshBelow(lk, p) <==>
              p == Root || p in g || (p in lk && forall e | e in lk[p].deps :: !Reaches(g, lk[p].prev, e))
  {
    hide DagOk, Reaches, Linked, IsLink;
    if p == Root || p in g || (p in lk && forall e | e in lk[p].deps :: !Reaches(g, lk[p].prev, e)) {
      forall x, e | Needed(lk, p, x) && x in lk && e in lk[x].deps ensures !Linked(lk, lk[x].prev, e) {
        StartNeeds(lk, g, order, p, x);
        if x in g {
          PrevIn(g, order, x);
        } else {
          assert IsLink(lk[x], lk[x].prev) by { PrevLink(lk[x]); }
        }
        if Linked(lk, lk[x].prev, e) {
          StoredReaches(lk, g, order, lk[x].prev, e);
        }
      }
    } else {
      LinkedSelf(lk, p);
      var e :| e in lk[p].deps && Reaches(g, lk[p].prev, e);
      ReachesStored(lk, g, lk[p].prev, e);
    }
  }

  lemma ReachesStored(lk: map<Id, Link>, g: Dag, a: Id, b: Id)
    requires StoredDag(lk, g) && Reaches(g, a, b)
    ensures Linked(lk, a, b)
  {
    var p :| Path(g, p) && p[0] == a && p[|p| - 1] == b;
    forall i | 0 <= i < |p| - 1 ensures p[i] in lk && IsLink(lk[p[i]], p[i + 1]) {
      assert p[i] in g && p[i + 1] in Links(g[p[i]]);
    }
    assert LinkPath(lk, p);
  }

  lemma PrevIn(g: Dag, order: seq<Id>, x: Id)
    requires DagOk(g, order) && x in g
    ensures g[x].prev in g || g[x].prev == Root
  {
    OldLinksStay(g, order, x);
    assert g[x].prev in Links(g[x]);
  }

  lemma StartNeeds(lk: map<Id, Link>, g: Dag, order: seq<Id>, p: Id, x: Id)
    requires StoredDag(lk, g) && DagOk(g, order) && Root !in lk && Startable(g, lk, p) && Needed(lk, p, x)
    ensures x in g || (x == p && p in lk && p !in g && p != Root)
  {
    hide DagOk, Reaches, StoredDag;
    if p in g || p == Root {
      StoredReaches(lk, g, order, p, x);
    } else if x != p {
      var q :| LinkPath(lk, q) && q[0] == p && q[|q| - 1] == x;
      assert q[0] in lk && IsLink(lk[q[0]], q[0 + 1]) && LinkPath(lk, q[1..]);
      StoredPath(lk, g, order, q[1..]);
    }
  }

  // ---------------------------------------------------------------- the writes

  /** Writing a block that is not delivered and not pointed to. */
  lemma {:induction false} LinksWith(local: nat, lk: map<Id, Link>, p: Id, chain: seq<Own>, g: Dag, order: seq<Id>,
                                     x: Id, k: Link)
    requires LinksOk(local, lk, p, chain) && StoredDag(lk, g) && DagOk(g, order) && Startable(g, lk, p)
    requires x !in g && x != p && x != Root && Honest(local, chain, k)
    requires forall i | 0 <= i < |chain| :: chain[i].id in g
    ensures LinksOk(local, lk[x := k], p, chain)
  {
    hide Honest, NextOwn, DagOk, Anchored;
    var lk' := lk[x := k];
    assert StoredDag(lk', g) && Startable(g, lk', p);
    StartAnchored(lk', g, order, p);
    assert forall i | 0 <= i < |chain| :: chain[i].id in g;
  }

  lemma {:induction false} PutStore(local: nat, log: seq<Write>, durable: nat, chain: seq<Own>, g: Dag,
                                    order: seq<Id>, m: Msg)
    requires LogOk(local, log, durable, chain) && StoredDag(LinksOf(Disk(log)), g) && DagOk(g, order)
    requires Startable(g, LinksOf(Disk(log)), Pointer(log)) && forall i | 0 <= i < |chain| :: chain[i].id in g
    requires MsgId(m) !in g && MsgId(m) != Pointer(log) && MsgId(m) != Root
    requires Honest(local, chain, MsgLink(m)) && NoRootDeps(m)
    requires HonestProof(local, chain, m.payload)
    ensures LogOk(local, log + [Put(m)], durable, chain)
    ensures LinksOf(Disk(log + [Put(m)])) == LinksOf(Disk(log))[MsgId(m) := MsgLink(m)]
  {
    hide LogOk, LinksOk, Disk, Pointer, Honest, HonestProof, NoRootDeps, DagOk, StoredDag, Startable, LinksOf;
    Appended(log, Put(m));
    LogNow(local, log, durable, chain);
    LinksOfPut(Disk(log), m);
    LinksWith(local, LinksOf(Disk(log)), Pointer(log), chain, g, order, MsgId(m), MsgLink(m));
    LogGrows(local, log, durable, chain, Put(m));
  }

  // ---------------------------------------------------------------- an own block under way

  /** Where an own block stands; `end` is the number of writes whose acknowledgement it waits for. */
  datatype Phase = Down | Idle | Signing(x: Id, k: Link) | Storing(m: Msg, end: nat) | Pointing(m: Msg, end: nat)

  datatype Request = Request(data: nat, deps: seq<Id>)

  /** The dependency lists not yet used, in the order in which own blocks will be built from them. */
  ghost function Lists(phase: Phase, waiting: seq<Request>): seq<seq<Id>> {
    InFlight(phase) + seq(|waiting|, i requires 0 <= i < |waiting| => waiting[i].deps)
  }

  ghost function InFlight(phase: Phase): seq<seq<Id>> {
    match phase
    case Down => []
    case Idle => []
    case Signing(_, k) => [k.deps]
    case Storing(m, _) => [MsgLink(m).deps]
    case Pointing(m, _) => [MsgLink(m).deps]
  }

  /** The lists hold delivered blocks of others. */
  ghost predicate ListsOk(local: nat, g: Dag, ls: seq<seq<Id>>) {
    forall i, e | 0 <= i < |ls| && e in ls[i] :: e in g && Foreign(local, e)
  }

  ghost predicate PhaseOk(local: nat, log: seq<Write>, durable: nat, phase: Phase, g: Dag, chain: seq<Own>) {
    match phase
    case Down => true
    case Idle => PointsTo(log, durable, Tip(chain))
    case Signing(x, k) => PointsTo(log, durable, Tip(chain)) && NextOwn(local, chain, x, k) && LinksIn(k, g)
    case Storing(m, end) =>
      PointsTo(log, durable, Tip(chain)) && NextOwn(local, chain, MsgId(m), MsgLink(m)) && LinksIn(MsgLink(m), g) &&
        Keeps(log, end, m)
    case Pointing(m, end) =>
      PointsTo(log, end, MsgId(m)) && NextOwn(local, chain, MsgId(m), MsgLink(m)) && LinksIn(MsgLink(m), g) &&
        Keeps(log, end, m)
  }

  /** The next own block of each phase. */
  ghost predicate PhaseNames(phase: Phase, x: Id) {
    match phase
    case Down => false
    case Idle => false
    case Signing(y, _) => x == y
    case Storing(m, _) => x == MsgId(m)
    case Pointing(m, _) => x == MsgId(m)
  }

  /** From the pointer after all writes a restart may start. */
  lemma {:induction false} PointerNow(local: nat, log: seq<Write>, durable: nat, phase: Phase, g: Dag,
                                      chain: seq<Own>)
    requires PhaseOk(local, log, durable, phase, g, chain) && phase != Down && durable <= |log|
    requires forall i | 0 <= i < |chain| :: chain[i].id in g
    ensures Pointer(log) == if phase.Pointing? then MsgId(phase.m) else Tip(chain)
    ensures Startable(g, LinksOf(Disk(log)), Pointer(log))
  {
    hide Disk, Pointer;
    assert log[..|log|] == log;
  }

  lemma {:induction false} PutKeepsPhase(local: nat, log: seq<Write>, durable: nat, phase: Phase, g: Dag, g': Dag,
                                         chain: seq<Own>, m: Msg)
    requires PhaseOk(local, log, durable, phase, g, chain) && !PhaseNames(phase, MsgId(m))
    requires forall x | x in g :: x in g'
    ensures PhaseOk(local, log + [Put(m)], durable, phase, g', chain) && PhaseOk(local, log, durable, phase, g', chain)
  {
    hide Disk, Pointer, PointsTo, Keeps, Tip, NextOwn;
    var w := Put(m);
    Appended(log, w);
    HoldsNow(log, durable, Tip(chain), m);
    if PointsTo(log, durable, Tip(chain)) {
      PointsGrow(log, durable, Tip(chain), w);
    }
    match phase
    case Down =>
    case Idle =>
    case Signing(y, j) =>
    case Storing(n, end) =>
      HoldsNow(log, end, MsgId(n), n);
      KeepsGrow(log, end, n, w);
    case Pointing(n, end) =>
      HoldsNow(log, end, MsgId(n), n);
      KeepsGrow(log, end, n, w);
      PointsGrow(log, end, MsgId(n), w);
  }

  /** The next own block is stored; nothing that matters so far has its name. */
  lemma {:induction false} PutOwn(local: nat, log: seq<Write>, durable: nat, chain: seq<Own>, g: Dag, order: seq<Id>,
                                  m: Msg)
    requires LogOk(local, log, durable, chain) && StoredDag(LinksOf(Disk(log)), g) && DagOk(g, order)
    requires ChainOk(local, chain)
    requires PhaseOk(local, log, durable, Signing(MsgId(m), MsgLink(m)), g, chain) && NoRootDeps(m) && MsgId(m) !in g
    requires HonestProof(local, chain, m.payload)
    requires forall i | 0 <= i < |chain| :: chain[i].id in g
    ensures LogOk(local, log + [Put(m)], durable, chain)
    ensures PhaseOk(local, log + [Put(m)], durable, Storing(m, |log| + 1), g, chain)
    ensures LinksOf(Disk(log + [Put(m)])) == LinksOf(Disk(log))[MsgId(m) := MsgLink(m)]
  {
    hide LogOk, Disk, Pointer, PointsTo, Keeps, StoredDag, DagOk, ChainOk, Startable, NoRootDeps, LinksOf, MsgLink,
         HonestProof;
    var w := Put(m);
    Appended(log, w);
    LogLength(local, log, durable, chain);
    PointerNow(local, log, durable, Signing(MsgId(m), MsgLink(m)), g, chain);
    ChainHeights(local, chain, MsgId(m), MsgLink(m));
    TipInChain(chain, MsgId(m));
    OwnIsHonest(local, chain, MsgId(m), MsgLink(m));
    PutStore(local, log, durable, chain, g, order, m);
    PointsGrow(log, durable, Tip(chain), w);
    StartsNow(log + [w], MsgId(m), m);
  }

  lemma LogLength(local: nat, log: seq<Write>, durable: nat, chain: seq<Own>)
    requires LogOk(local, log, durable, chain)
    ensures durable <= |log|
  {
  }

  lemma OwnIsHonest(local: nat, chain: seq<Own>, x: Id, k: Link)
    requires NextOwn(local, chain, x, k)
    ensures Honest(local, chain, k)
  {
    TipInChain(chain, x);
    forall l | IsLink(k, l) ensures Nameable(local, chain, l) {
    }
  }

  lemma {:induction false} TipInChain(chain: seq<Own>, x: Id)
    ensures !InChain(chain, x) && x != Root ==> x != Tip(chain)
    ensures Tip(chain) == Root || InChain(chain, Tip(chain))
  {
    if chain != [] {
      assert chain[|chain| - 1].id == Tip(chain);
    }
  }

  lemma {:induction false} PointOwn(local: nat, log: seq<Write>, durable: nat, chain: seq<Own>, g: Dag,
                                    order: seq<Id>, m: Msg, end: nat)
    requires LogOk(local, log, durable, chain) && StoredDag(LinksOf(Disk(log)), g) && DagOk(g, order)
    requires PhaseOk(local, log, durable, Storing(m, end), g, chain)
    ensures LogOk(local, log + [Point(MsgId(m))], durable, chain) && Disk(log + [Point(MsgId(m))]) == Disk(log)
    ensures PhaseOk(local, log + [Point(MsgId(m))], durable, Pointing(m, |log| + 1), g, chain)
  {
    hide LogOk, Disk, Pointer, PointsTo, Keeps, ChainStored, Honest, HonestProof, DagOk, Anchored, StoredDag;
    var x, w, d := MsgId(m), Point(MsgId(m)), Disk(log);
    Appended(log, w);
    LogNow(local, log, durable, chain);
    HoldsNow(log, end, x, m);
    assert Startable(g, LinksOf(d), x);
    StartAnchored(LinksOf(d), g, order, x);
    assert StoreOk(local, d, x, chain);
    LogGrows(local, log, durable, chain, w);
    StartsNow(log + [w], x, m);
  }

  /** The pointer is acknowledged: the block may be shown. */
  lemma {:induction false} ShowOwn(local: nat, log: seq<Write>, durable: nat, chain: seq<Own>, g: Dag, m: Msg, end: nat)
    requires LogOk(local, log, durable, chain) && ChainOk(local, chain)
    requires PhaseOk(local, log, durable, Pointing(m, end), g, chain) && end <= durable
    ensures var chain' := chain + [Own(MsgId(m), MsgLink(m))];
            ChainOk(local, chain') && LogOk(local, log, durable, chain') && PointsTo(log, durable, Tip(chain')) &&
              Tip(chain') == MsgId(m)
  {
    hide ChainOk, Ordered, Anchored, Disk, Pointer, Filed, MsgLink, HonestProof;
    var o := Own(MsgId(m), MsgLink(m));
    var chain' := chain + [o];
    ChainHeights(local, chain, o.id, o.k);
    forall n | durable <= n <= |log| ensures StoreOk(local, Disk(log[..n]), Pointer(log[..n]), chain') {
      assert StoreOk(local, Disk(log[..n]), Pointer(log[..n]), chain);
      ShowStored(local, LinksOf(Disk(log[..n])), Pointer(log[..n]), chain, o);
      forall x | x in Disk(log[..n]) ensures HonestProof(local, chain', Disk(log[..n])[x].payload) {
        GrownProof(local, chain, o, Disk(log[..n])[x].payload);
      }
    }
  }

  lemma {:induction false} ShowStored(local: nat, lk: map<Id, Link>, p: Id, chain: seq<Own>, o: Own)
    requires LinksOk(local, lk, p, chain) && p == o.id && o.id in lk && lk[o.id] == o.k
    ensures LinksOk(local, lk, p, chain + [o])
  {
    hide Anchored, Honest;
    forall x | x in lk ensures Honest(local, chain + [o], lk[x]) {
      GrownChain(local, chain, o, lk[x]);
    }
  }

  lemma {:induction false} CutLog(local: nat, log: seq<Write>, durable: nat, chain: seq<Own>, n: nat)
    requires LogOk(local, log, durable, chain) && durable <= n <= |log|
    ensures LogOk(local, log[..n], n, chain)
  {
    assert log[..n][..n] == log[..n];
  }

  // ---------------------------------------------------------------- memory

  lemma MemDag(cnt: nat, local: nat, lk: map<Id, Link>, t: Table, q: seq<Id>, g: Dag, chain: seq<Own>)
    requires TableInv(cnt, t, q, g, {}) && MemOk(local, lk, t, chain) && ChainOk(local, chain)
    ensures StoredDag(lk, g) && (forall i | 0 <= i < |chain| :: chain[i].id in g)
    ensures Tip(chain) in g || Tip(chain) == Root
    ensures forall x | x in g :: Live(t, x)
  {
    hide HealthOk, RevOk, PendingOk, QueueOk, ClocksOk, NextOk, NextFrom, RunOk, LinkOk, LinksKnown;
    forall x | x in g ensures Live(t, x) && x in lk && lk[x] == Link(g[x].prev, g[x].deps) {
      assert Live(t, x);
    }
  }

  /** A later graph of the same receiver contains the earlier one. */
  lemma GraphGrows(cnt: nat, ev: seq<Event>, g: Dag, blamed: set<nat>, ev': seq<Event>, g': Dag, blamed': set<nat>)
    requires EventsOk(cnt, ev, g, blamed) && EventsOk(cnt, ev', g', blamed') && ev <= ev'
    ensures Within(g, g') && DagOk(g, Order(ev)) && DagOk(g', Order(ev')) && FreshDag(g) && FreshDag(g')
  {
    hide DagOk, FreshDag, StreamOk;
    assert ev'[..|ev|] == ev;
    StreamPrefix(cnt, ev', |ev|);
    StreamGivesDag(cnt, ev);
    StreamGivesDag(cnt, ev');
    NoRoot(g', Order(ev'));
  }

  lemma ListsGrow(local: nat, g: Dag, g': Dag, ls: seq<seq<Id>>)
    requires ListsOk(local, g, ls) && Within(g, g')
    ensures ListsOk(local, g', ls)
  {
  }

  /** A block has been received; it is stored unless it was invalid or held already. */
  lemma MemReceived(cnt: nat, local: nat, lk: map<Id, Link>, t: Table, t': Table, chain: seq<Own>, x: Id, k: Link,
                    stored: bool, entered: bool)
    requires MemOk(local, lk, t, chain) && LinksStored(t.st, t.lk) && LinksStored(t'.st, t'.lk) && Evolves(t.st, t'.st)
    requires t'.lk == if entered then t.lk[x := k] else t.lk
    requires entered ==> stored && (x !in t.st || t.st[x] == None)
    requires stored ==> !(x in t.st && (t.st[x] == Initialized || t.st[x] == Delivered)) && x != Root
    requires forall y | y in t'.st :: y in t.st || Nameable(local, chain, y)
    ensures MemOk(local, if stored then lk[x := k] else lk, t', chain)
  {
    hide IsLink, InChain;
    var lk' := if stored then lk[x := k] else lk;
    forall y | Live(t', y) ensures y in lk' && lk'[y] == t'.lk[y] {
      if !(entered && y == x) {
        assert y in t.lk && y in t.st && t.st[y] != None;
        assert Live(t, y);
      }
    }
  }

  /** An own block has been delivered. */
  lemma MemShown(local: nat, lk: map<Id, Link>, t: Table, t': Table, chain: seq<Own>, x: Id, k: Link)
    requires MemOk(local, lk, t, chain) && LinksStored(t.st, t.lk) && Evolves(t.st, t'.st) && x in lk
    requires lk[x] == k && x !in t.st
    requires t'.lk == t.lk[x := k] && t'.st.Keys == t.st.Keys + {x} && t'.st[x] == Delivered
    ensures MemOk(local, lk, t', chain + [Own(x, k)])
  {
    hide IsLink;
    var chain' := chain + [Own(x, k)];
    forall y | Live(t', y) ensures y in lk && lk[y] == t'.lk[y] {
      if y != x {
        assert Live(t, y);
      }
    }
    forall y | y in t'.st && y != Root && !Foreign(local, y) ensures InChain(chain', y) {
      if y == x {
        assert chain'[|chain|].id == x;
      } else {
        var i :| 0 <= i < |chain| && chain[i].id == y;
        assert chain'[i].id == y;
      }
    }
  }

  /** No own block is ill. */
  lemma OwnHealthy(local: nat, lk: map<Id, Link>, t: Table, chain: seq<Own>)
    requires MemOk(local, lk, t, chain)
    ensures NoneIll(t.st, local)
  {
    forall y | y in t.st && y.Blk? && y.src == local ensures t.st[y] != Ill {
      assert InChain(chain, y);
    }
  }

  /** A message of an honest network brings nothing new about the own source. */
  lemma HonestIsHarmless(local: nat, lk: map<Id, Link>, t: Table, chain: seq<Own>, m: Msg)
    requires MemOk(local, lk, t, chain) && ChainOk(local, chain) && HonestMsg(local, chain, m)
    ensures Harmless(t.st, LinkSet(MsgLink(m)) + {MsgId(m)}, m.payload, local)
  {
    hide ChainOk, Accuses, HonestProof;
    NotAccused(local, chain, m.payload);
    forall y | y in LinkSet(MsgLink(m)) + {MsgId(m)} && y.Blk? && y.src == local ensures y in t.st {
      assert Nameable(local, chain, y);
    }
  }

  /** The next own block is not known, and no known block of its source is as high. */
  lemma OwnIsNew(cnt: nat, local: nat, lk: map<Id, Link>, t: Table, s: Book, chain: seq<Own>, x: Id, k: Link)
    requires MemOk(local, lk, t, chain) && ChainOk(local, chain) && NextOwn(local, chain, x, k)
    requires BookInv(cnt, t.st, s, {}, {}) && local < cnt && local !in s.blamed
    ensures x !in t.st && |s.at| == cnt && x.height !in s.at[local]
  {
    hide ReceivedOk, DeliveredOk;
    ChainHeights(local, chain, x, k);
    assert SourceOk(local, t.st, s.ids[local], s.at[local], s.dh[local], s.rh[local]);
    forall h | h in s.at[local] ensures h <= |chain| {
      var y := s.at[local][h];
      assert y in t.st && y.Blk? && y.src == local && y.height == h && InChain(chain, y);
      var i :| 0 <= i < |chain| && chain[i].id == y;
    }
  }

  /** An own block that is delivered: no dependency is refused, and its fork proof is one. */
  ghost predicate Fits(cnt: nat, incarnation: nat, sigOk: (Id, nat) -> bool, g: Dag, blamed: set<nat>,
                       known: map<Id, BlockState>, m: Msg) {
    && (forall e | e in MsgLink(m).deps :: !Refused(g, blamed, MsgLink(m).prev, e))
    && (m.payload.ForkProof? ==> ProofOk(cnt, incarnation, known, sigOk, m.payload.left, m.payload.right))
  }

  /** The payload tells of the fork `f`. */
  predicate Tells(pl: Payload, f: Fork) {
    pl.ForkProof? && DepId(pl.left) == f.left && DepId(pl.right) == f.right
  }

  /** What is told of a fork that was found is a proof. */
  lemma ToldIsProof(cnt: nat, incarnation: nat, sigOk: (Id, nat) -> bool, t: Table, q: seq<Id>, g: Dag, s: Book,
                    x: Id, f: Fork, pl: Payload)
    requires TableInv(cnt, t, q, g, {}) && BookInv(cnt, t.st, s, {}, {}) && f in s.prepared && Tells(pl, f)
    ensures ProofOk(cnt, incarnation, t.st[x := None], sigOk, pl.left, pl.right)
  {
    hide HealthOk, RevOk, PendingOk, QueueOk, ClocksOk, GraphOk, NextOk, NextFrom, RunOk, LinkOk, LinksKnown;
    hide SourcesOk, ReceivedOk, DeliveredOk;
    assert ForkNamed(t.st, f);
  }

  lemma PrevBooked(cnt: nat, t: Table, q: seq<Id>, g: Dag, x: Id)
    requires TableInv(cnt, t, q, g, {}) && (x in g || x == Root)
    ensures x in t.st && t.st[x] == Delivered && x in t.clk && (x != Root ==> x.Blk? && x in t.fork && x.src < cnt)
  {
    hide HealthOk, RevOk, PendingOk, QueueOk, NextOk, NextFrom, RunOk, LinkOk, LinksKnown;
  }

  lemma LinksInDelivered(cnt: nat, t: Table, q: seq<Id>, g: Dag, k: Link)
    requires TableInv(cnt, t, q, g, {}) && LinksIn(k, g)
    ensures LinksDelivered(t.st, k)
  {
    hide TableInv, IsLink;
    forall l | IsLink(k, l) ensures l in t.st && t.st[l] == Delivered {
      PrevBooked(cnt, t, q, g, l);
    }
  }

  lemma ValidGrows(cnt: nat, maxDeps: nat, incarnation: nat, known: map<Id, BlockState>, known': map<Id, BlockState>,
                   sigOk: (Id, nat) -> bool, m: Msg)
    requires ValidMsg(cnt, maxDeps, incarnation, known, sigOk, m) && known.Keys <= known'.Keys
    ensures ValidMsg(cnt, maxDeps, incarnation, known', sigOk, m)
  {
    assert forall i | 0 <= i < |m.deps| :: ValidDep(cnt, incarnation, known, sigOk, m.deps[i]);
  }

  // ---------------------------------------------------------------- the steps, on values

  lemma ForeignName(local: nat, lk: map<Id, Link>, t: Table, chain: seq<Own>, m: Msg)
    requires MemOk(local, lk, t, chain) && HonestMsg(local, chain, m)
    requires !(MsgId(m) in t.st && t.st[MsgId(m)] == Delivered)
    ensures Foreign(local, MsgId(m))
  {
  }

  lemma ForeignIsOther(local: nat, log: seq<Write>, durable: nat, phase: Phase, g: Dag, chain: seq<Own>, x: Id)
    requires ChainOk(local, chain) && PhaseOk(local, log, durable, phase, g, chain) && phase != Down
    requires Foreign(local, x)
    ensures !PhaseNames(phase, x) && x != Tip(chain)
  {
  }

  /** A block has been received and, if `stored`, written. */
  lemma ReceiveKeeps(cnt: nat, local: nat, log: seq<Write>, durable: nat, phase: Phase, waiting: seq<Request>,
                     chain: seq<Own>,
                     t: Table, q: seq<Id>, g: Dag, ev: seq<Event>, blamed: set<nat>,
                     t': Table, q': seq<Id>, g': Dag, ev': seq<Event>, blamed': set<nat>, m: Msg, stored: bool,
                       entered: bool)
    requires ChainOk(local, chain) && LogOk(local, log, durable, chain) && MemOk(local, LinksOf(Disk(log)), t, chain)
    requires TableInv(cnt, t, q, g, {}) && EventsOk(cnt, ev, g, blamed) && TableInv(cnt, t', q', g', {})
    requires EventsOk(cnt, ev', g', blamed') && ev <= ev'
    requires PhaseOk(local, log, durable, phase, g, chain) && phase != Down
    requires ListsOk(local, g, Lists(phase, waiting))
    requires Evolves(t.st, t'.st) && t'.lk == if entered then t.lk[MsgId(m) := MsgLink(m)] else t.lk
    requires entered ==> stored && (MsgId(m) !in t.st || t.st[MsgId(m)] == None)
    requires stored ==> !(MsgId(m) in t.st && (t.st[MsgId(m)] == Initialized || t.st[MsgId(m)] == Delivered))
    requires stored ==> HonestMsg(local, chain, m) && NoRootDeps(m)
    requires t'.st.Keys <= t.st.Keys + if stored then LinkSet(MsgLink(m)) + {MsgId(m)} else {}
    ensures var log' := if stored then log + [Put(m)] else log;
            && LogOk(local, log', durable, chain) && MemOk(local, LinksOf(Disk(log')), t', chain)
            && PhaseOk(local, log', durable, phase, g', chain) && ListsOk(local, g', Lists(phase, waiting))
  {
    hide ChainOk, LogOk, MemOk, TableInv, EventsOk, Heeded, Vouched, PhaseOk, ListsOk, Evolves, Disk, Lists, LinksOf,
         StoredDag,
         DagOk, FreshDag, Startable, NoRootDeps;
    hide HonestProof, Honest, InChain, PhaseNames, MsgLink;
    var x, k, lk := MsgId(m), MsgLink(m), LinksOf(Disk(log));
    MemDag(cnt, local, lk, t, q, g, chain);
    GraphGrows(cnt, ev, g, blamed, ev', g', blamed');
    ListsGrow(local, g, g', Lists(phase, waiting));
    LogLength(local, log, durable, chain);
    TablesLinks(cnt, t, q, g);
    TablesLinks(cnt, t', q', g');
    forall y | y in t'.st ensures y in t.st || Nameable(local, chain, y) {
      if stored && IsLink(k, y) {
        HonestLink(local, chain, k, y);
      }
    }
    MemReceived(cnt, local, lk, t, t', chain, x, k, stored, entered);
    if stored {
      PointerNow(local, log, durable, phase, g, chain);
      ForeignName(local, lk, t, chain, m);
      ForeignIsOther(local, log, durable, phase, g, chain, x);
      PhasePointer(phase, x);
      PutStore(local, log, durable, chain, g, Order(ev), m);
    }
    SamePhase(local, log, durable, phase, g, g', chain, m);
  }

  lemma HonestLink(local: nat, chain: seq<Own>, k: Link, y: Id)
    requires Honest(local, chain, k) && IsLink(k, y)
    ensures Nameable(local, chain, y)
  {
  }

  lemma PhasePointer(phase: Phase, x: Id)
    requires !PhaseNames(phase, x)
    ensures phase.Pointing? ==> MsgId(phase.m) != x
  {
  }

  lemma TablesLinks(cnt: nat, t: Table, q: seq<Id>, g: Dag)
    requires TableInv(cnt, t, q, g, {})
    ensures LinksStored(t.st, t.lk) && forall x | x in g :: x in t.st && t.st[x] == Delivered
  {
    hide HealthOk, RevOk, PendingOk, QueueOk, ClocksOk, NextOk, NextFrom, RunOk, LinkOk, LinksKnown;
  }

  lemma SamePhase(local: nat, log: seq<Write>, durable: nat, phase: Phase, g: Dag, g': Dag, chain: seq<Own>, m: Msg)
    requires PhaseOk(local, log, durable, phase, g, chain) && Within(g, g')
    ensures PhaseOk(local, log, durable, phase, g', chain)
    ensures !PhaseNames(phase, MsgId(m)) ==> PhaseOk(local, log + [Put(m)], durable, phase, g', chain)
  {
    hide PointsTo, Keeps, NextOwn, Disk, Pointer, PhaseNames;
    if !PhaseNames(phase, MsgId(m)) {
      PutKeepsPhase(local, log, durable, phase, g, g', chain, m);
    }
  }

  /** An own block has been delivered. */
  lemma ShowKeeps(cnt: nat, local: nat, log: seq<Write>, durable: nat, m: Msg, end: nat, waiting: seq<Request>,
                  chain: seq<Own>,
                  t: Table, q: seq<Id>, g: Dag, ev: seq<Event>, blamed: set<nat>,
                  t': Table, q': seq<Id>, g': Dag, ev': seq<Event>, blamed': set<nat>)
    requires ChainOk(local, chain) && LogOk(local, log, durable, chain) && MemOk(local, LinksOf(Disk(log)), t, chain)
    requires TableInv(cnt, t, q, g, {}) && EventsOk(cnt, ev, g, blamed) && TableInv(cnt, t', q', g', {})
    requires EventsOk(cnt, ev', g', blamed') && ev <= ev'
    requires PhaseOk(local, log, durable, Pointing(m, end), g, chain) && end <= durable
    requires ListsOk(local, g, Lists(Pointing(m, end), waiting))
    requires Evolves(t.st, t'.st) && t'.lk == t.lk[MsgId(m) := MsgLink(m)]
    requires t'.st.Keys == t.st.Keys + {MsgId(m)} && MsgId(m) !in t.st
    requires t'.st[MsgId(m)] == Delivered
    ensures var chain' := chain + [Own(MsgId(m), MsgLink(m))];
            && ChainOk(local, chain') && LogOk(local, log, durable, chain') &&
               MemOk(local, LinksOf(Disk(log)), t', chain')
            && PhaseOk(local, log, durable, Idle, g', chain') && Tip(chain') == MsgId(m) &&
               ListsOk(local, g', Lists(Idle, waiting))
  {
    hide ChainOk, LogOk, MemOk, TableInv, EventsOk, Heeded, Vouched, ListsOk, Evolves, Disk, LinksOf, StoredDag,
         DagOk, FreshDag,
         PointsTo, MsgLink;
    var x, k, lk := MsgId(m), MsgLink(m), LinksOf(Disk(log));
    MemDag(cnt, local, lk, t, q, g, chain);
    GraphGrows(cnt, ev, g, blamed, ev', g', blamed');
    TablesLinks(cnt, t, q, g);
    HoldsNow(log, end, x, m);
    ShowOwn(local, log, durable, chain, g, m, end);
    LinksAt(Disk(log), m);
    MemShown(local, lk, t, t', chain, x, k);
    ListsGrow(local, g, g', Lists(Pointing(m, end), waiting));
    ListsUsed(local, g', Lists(Pointing(m, end), waiting));
    assert Lists(Pointing(m, end), waiting)[1..] == Lists(Idle, waiting);
  }

  lemma LinksAt(d: map<Id, Msg>, m: Msg)
    requires MsgId(m) in d && d[MsgId(m)] == m
    ensures MsgId(m) in LinksOf(d) && LinksOf(d)[MsgId(m)] == MsgLink(m)
  {
  }

  // ---------------------------------------------------------------- restart

  /** The chain after a restart from pointer `p`. */
  ghost function Recovered(lk: map<Id, Link>, p: Id, chain: seq<Own>): seq<Own> {
    if p == Tip(chain) || p !in lk then chain else chain + [Own(p, lk[p])]
  }

  lemma {:induction false} RecoveredStore(local: nat, d: map<Id, Msg>, p: Id, chain: seq<Own>)
    requires ChainOk(local, chain) && StoreOk(local, d, p, chain)
    ensures var chain' := Recovered(LinksOf(d), p, chain);
            ChainOk(local, chain') && StoreOk(local, d, p, chain') && Tip(chain') == p
  {
    hide ChainOk, Anchored, FreshBelow, Filed, Honest, HonestProof, LinksOf;
    var lk := LinksOf(d);
    if p != Tip(chain) {
      var o := Own(p, lk[p]);
      ChainHeights(local, chain, p, lk[p]);
      ShowStored(local, lk, p, chain, o);
      forall x | x in d ensures HonestProof(local, chain + [o], d[x].payload) {
        GrownProof(local, chain, o, d[x].payload);
      }
    }
  }

  /** If the pointed-to block is delivered, so is the whole chain, following prev links. */
  lemma {:induction false} ChainDelivered(local: nat, lk: map<Id, Link>, st: map<Id, BlockState>, tlk: map<Id, Link>,
                                          chain: seq<Own>, i: nat)
    requires ChainOk(local, chain) && ChainStored(lk, chain) && HealthOk(st, tlk, {})
    requires LinksStored(st, tlk) && i < |chain|
    requires Tip(chain) in st && st[Tip(chain)] == Delivered && forall x | x in tlk :: x in lk && tlk[x] == lk[x]
    ensures chain[i].id in st && st[chain[i].id] == Delivered
    decreases |chain| - i
  {
    if i < |chain| - 1 {
      ChainDelivered(local, lk, st, tlk, chain, i + 1);
      assert chain[..i + 1][i] == chain[i];
      var y := chain[i + 1].id;
      assert y in tlk && IsLink(tlk[y], chain[i].id);
    }
  }

  lemma {:induction false} RecoveredMem(cnt: nat, local: nat, d: map<Id, Msg>, p: Id, chain: seq<Own>, t: Table,
                                        q: seq<Id>, g: Dag)
    requires ChainOk(local, chain) && StoreOk(local, d, p, chain) && Tip(chain) == p
    requires Loading(d, p, t, []) && TableInv(cnt, t, q, g, {})
    requires p in t.st && t.st[p] == Delivered
    ensures MemOk(local, LinksOf(d), t, chain)
  {
    hide ChainOk, Anchored, FreshBelow, Filed, HonestProof, RevOk, PendingOk, QueueOk, ClocksOk, GraphOk, NextOk,
         NextFrom, RunOk, LinkOk, LinksKnown, HealthOk, LinksHeld, ChainStored, Honest, Needed;
    var lk := LinksOf(d);
    assert forall x | x in t.lk :: x in lk && t.lk[x] == lk[x];
    forall i | 0 <= i < |chain| ensures chain[i].id in t.st && t.st[chain[i].id] == Delivered {
      ChainDelivered(local, lk, t.st, t.lk, chain, i);
    }
    forall x | x in t.st && x != Root && !Foreign(local, x) ensures InChain(chain, x) {
      NeededIsOwn(local, lk, p, chain, x);
    }
  }

  lemma NeededIsOwn(local: nat, lk: map<Id, Link>, p: Id, chain: seq<Own>, x: Id)
    requires LinksOk(local, lk, p, chain) && Tip(chain) == p && Needed(lk, p, x) && !Foreign(local, x)
    ensures InChain(chain, x)
  {
    hide Anchored, FreshBelow, ChainStored, Linked, Honest;
    if x == p {
      TipInChain(chain, p);
    } else {
      var y := LinkedLast(lk, p, x);
      HonestLink(local, chain, lk[y], x);
    }
  }

  lemma NothingSent(local: nat, log: seq<Write>, chain: seq<Own>)
    requires ChainOk(local, chain) && LogOk(local, log, |log|, chain) && Pointer(log) == Root
    ensures chain == [] && MemOk(local, LinksOf(Disk(log)), FreshTable(), chain)
    ensures PhaseOk(local, log, |log|, Idle, map[], chain) && Recovered(LinksOf(Disk(log)), Root, chain) == chain
    ensures FreshBelow(LinksOf(Disk(log)), Root) && Unforked(LinksOf(Disk(log)), Root)
  {
    hide Disk, Pointer;
    LogNow(local, log, |log|, chain);
    StartsNow(log, Root, Msg(0, 0, 0, 0, Dep(0, 0, 0, 0), [], Empty));
  }

  lemma StoredOrd(local: nat, d: map<Id, Msg>, p: Id, chain: seq<Own>) returns (ord: seq<Id>)
    requires StoreOk(local, d, p, chain) && p != Root
    ensures Filed(d) && Ordered(LinksOf(d), ord) && p in ord
  {
    ord :| Ordered(LinksOf(d), ord) && p in ord;
  }

  lemma {:induction false} LogNowIs(local: nat, log: seq<Write>, chain: seq<Own>)
    requires StoreOk(local, Disk(log), Pointer(log), chain)
    ensures LogOk(local, log, |log|, chain)
  {
    assert log[..|log|] == log;
  }

  lemma NothingStored(local: nat)
    ensures ChainOk(local, []) && LogOk(local, [], 0, [])
  {
    hide Linked;
    var log: seq<Write> := [];
    assert log[..0] == log;
  }

  lemma MoreDurable(local: nat, log: seq<Write>, durable: nat, phase: Phase, g: Dag, chain: seq<Own>, n: nat)
    requires LogOk(local, log, durable, chain) && durable <= n <= |log|
    ensures LogOk(local, log, n, chain)
    ensures PhaseOk(local, log, durable, phase, g, chain) ==> PhaseOk(local, log, n, phase, g, chain)
  {
    hide StoreOk, NextOwn, LinksIn, Disk, Pointer;
  }

  // ---------------------------------------------------------------- requests

  /** The payload hashes and dependencies of own blocks shown. */
  ghost function MadeOf(shown: seq<Own>): (rs: seq<Request>)
    ensures |rs| == |shown|
    ensures forall i | 0 <= i < |shown| && shown[i].id.Blk? :: rs[i] == Request(shown[i].id.data, shown[i].k.deps)
  {
    seq(|shown|, i requires 0 <= i < |shown| =>
        if shown[i].id.Blk? then Request(shown[i].id.data, shown[i].k.deps) else Request(0, []))
  }

  /** Those of the own block being made. */
  ghost function Making(phase: Phase): seq<Request> {
    match phase
    case Down => []
    case Idle => []
    case Signing(x, k) => if x.Blk? then [Request(x.data, k.deps)] else []
    case Storing(m, _) => [Request(m.data, MsgLink(m).deps)]
    case Pointing(m, _) => [Request(m.data, MsgLink(m).deps)]
  }

  /** No request is lost, doubled or out of order: what was shown since, what is being made and what waits. */
  ghost predicate Accounted(asked: seq<Request>, base: nat, chain: seq<Own>, phase: Phase, waiting: seq<Request>) {
    base <= |chain| && asked == MadeOf(chain[base..]) + Making(phase) + waiting
  }

  /** A block is shown and the next one begun. */
  lemma AccountedShow(asked: seq<Request>, base: nat, chain: seq<Own>, m: Msg, end: nat, waiting: seq<Request>,
                      local: nat, last: Id)
    requires Accounted(asked, base, chain, Pointing(m, end), waiting) && MsgId(m).Blk? && MsgId(m).data == m.data
    ensures var (p, w) := Next(local, last, waiting);
            Accounted(asked, base, chain + [Own(MsgId(m), MsgLink(m))], p, w)
  {
    hide MsgLink;
    var o := Own(MsgId(m), MsgLink(m));
    assert (chain + [o])[base..] == chain[base..] + [o];
    assert MadeOf(chain[base..] + [o]) == MadeOf(chain[base..]) + [Request(m.data, MsgLink(m).deps)];
    if waiting != [] {
      assert waiting == [waiting[0]] + waiting[1..];
    }
  }

  /** One more request. */
  lemma AccountedMore(asked: seq<Request>, base: nat, chain: seq<Own>, local: nat, last: Id, phase: Phase,
                      waiting: seq<Request>, r: Request)
    requires Accounted(asked, base, chain, phase, waiting) && phase != Down && (phase == Idle ==> waiting == [])
    ensures var (p, w) := Enqueued(local, last, phase, waiting, r); Accounted(asked + [r], base, chain, p, w)
  {
  }

  /** What is begun next. */
  lemma NextIs(local: nat, chain: seq<Own>, waiting: seq<Request>)
    requires ChainOk(local, chain)
    ensures waiting == [] ==> Next(local, Tip(chain), waiting) == (Idle, [])
    ensures waiting != [] ==>
              Next(local, Tip(chain), waiting) ==
                (Signing(Blk(local, |chain| + 1, waiting[0].data), Link(Tip(chain), waiting[0].deps)), waiting[1..])
  {
    TipHeight(local, chain);
  }

  /** The block being made goes on. */
  lemma AccountedOn(asked: seq<Request>, base: nat, chain: seq<Own>, m: Msg, waiting: seq<Request>, a: nat, b: nat)
    requires MsgId(m).Blk? && MsgId(m).data == m.data
    ensures Accounted(asked, base, chain, Signing(MsgId(m), MsgLink(m)), waiting) ==>
              Accounted(asked, base, chain, Storing(m, a), waiting)
    ensures Accounted(asked, base, chain, Storing(m, a), waiting) ==>
              Accounted(asked, base, chain, Pointing(m, b), waiting)
  {
    hide MsgLink;
  }

  lemma AccountedNone(chain: seq<Own>)
    ensures Accounted([], |chain|, chain, Idle, [])
  {
  }

  /** An own block is built on the last one. */
  function Begun(local: nat, last: Id, r: Request): Phase {
    Signing(Blk(local, Height(last) + 1, r.data), Link(last, r.deps))
  }

  /** The next own block once one is shown, and the requests that then wait. */
  function Next(local: nat, last: Id, waiting: seq<Request>): (r: (Phase, seq<Request>))
    ensures r.0 == Idle ==> r.1 == []
    ensures r.0.Idle? || r.0.Signing?
  {
    if waiting == [] then (Idle, []) else (Begun(local, last, waiting[0]), waiting[1..])
  }

  /** What one more request leads to. */
  function Enqueued(local: nat, last: Id, phase: Phase, waiting: seq<Request>, r: Request): (Phase, seq<Request>) {
    if phase == Idle then (Begun(local, last, r), waiting) else (phase, waiting + [r])
  }

  /** What the forks just found lead to: one own block each, without dependencies. */
  function Requested(local: nat, last: Id, hash: Fork -> nat, phase: Phase, waiting: seq<Request>,
                     forks: seq<Fork>): (Phase, seq<Request>) {
    if forks == [] then (phase, waiting) else
      var (p, w) := Requested(local, last, hash, phase, waiting, forks[..|forks| - 1]);
      Enqueued(local, last, p, w, Request(hash(forks[|forks| - 1]), []))
  }

  /** One own block without dependencies was asked for per fork, in order. */
  ghost predicate Told(asked: seq<Request>, asked': seq<Request>, hash: Fork -> nat, forks: seq<Fork>) {
    |asked'| == |asked| + |forks| && asked <= asked' &&
    forall i | 0 <= i < |forks| :: asked'[|asked| + i] == Request(hash(forks[i]), [])
  }

  lemma ToldNone(asked: seq<Request>, hash: Fork -> nat)
    ensures Told(asked, asked, hash, [])
  {
  }

  lemma ToldMore(asked: seq<Request>, asked': seq<Request>, hash: Fork -> nat, forks: seq<Fork>, n: nat, i: nat)
    requires n <= i < |forks| && Told(asked, asked', hash, forks[n..i])
    ensures Told(asked, asked' + [Request(hash(forks[i]), [])], hash, forks[n..i + 1])
  {
    assert forks[n..i + 1] == forks[n..i] + [forks[i]];
  }

  lemma RequestedNone(local: nat, last: Id, hash: Fork -> nat, phase: Phase, waiting: seq<Request>)
    ensures Requested(local, last, hash, phase, waiting, []) == (phase, waiting)
  {
  }

  lemma {:induction false} RequestedNext(local: nat, last: Id, hash: Fork -> nat, phase: Phase,
                                         waiting: seq<Request>, forks: seq<Fork>, n: nat, i: nat)
    requires n <= i < |forks|
    ensures var (p, w) := Requested(local, last, hash, phase, waiting, forks[n..i]);
            Requested(local, last, hash, phase, waiting, forks[n..i + 1]) == Enqueued(local, last, p, w,
              Request(hash(forks[i]), []))
  {
    assert forks[n..i + 1][..i - n] == forks[n..i];
  }

  lemma ListsUsed(local: nat, g: Dag, ls: seq<seq<Id>>)
    requires ListsOk(local, g, ls)
    ensures ls != [] ==> ListsOk(local, g, ls[1..])
  {
  }

  lemma ListsMore(local: nat, g: Dag, ls: seq<seq<Id>>, deps: seq<Id>)
    requires ListsOk(local, g, ls) && forall e | e in deps :: e in g && Foreign(local, e)
    ensures ListsOk(local, g, ls + [deps])
  {
  }

  /** The lists after one more request. */
  lemma ListsNext(local: nat, last: Id, phase: Phase, waiting: seq<Request>, r: Request)
    requires phase != Down && (phase == Idle ==> waiting == [])
    ensures var (p, w) := Enqueued(local, last, phase, waiting, r); Lists(p, w) == Lists(phase, waiting) + [r.deps]
  {
  }

  lemma BegunOk(local: nat, log: seq<Write>, durable: nat, g: Dag, chain: seq<Own>, r: Request, ls: seq<seq<Id>>)
    requires ChainOk(local, chain) && PhaseOk(local, log, durable, Idle, g, chain)
    requires Tip(chain) in g || Tip(chain) == Root
    requires ListsOk(local, g, ls) && r.deps in ls
    ensures PhaseOk(local, log, durable, Begun(local, Tip(chain), r), g, chain)
  {
    hide PointsTo;
    TipHeight(local, chain);
    var i :| 0 <= i < |ls| && ls[i] == r.deps;
  }

  lemma {:induction false} TipHeight(local: nat, chain: seq<Own>)
    requires ChainOk(local, chain)
    ensures Height(Tip(chain)) == |chain|
  {
  }

  /** The dependencies of an own block are not the root. */
  lemma OwnLinksPlain(local: nat, chain: seq<Own>, m: Msg)
    requires NextOwn(local, chain, MsgId(m), MsgLink(m))
    ensures NoRootDeps(m)
  {
    var k := MsgLink(m);
    forall i | 0 <= i < |m.deps| ensures m.deps[i].height > 0 {
      assert k.deps[i] == DepId(m.deps[i]) && k.deps[i] in k.deps;
    }
  }

  lemma UnharmedMeans(t: Table, s: Book, l: nat)
    requires Unharmed(t, s, l)
    ensures l !in s.blamed
  {
  }

  lemma MemPut(local: nat, lk: map<Id, Link>, t: Table, chain: seq<Own>, x: Id, k: Link)
    requires MemOk(local, lk, t, chain) && x !in t.st
    ensures MemOk(local, lk[x := k], t, chain)
  {
  }

  // ---------------------------------------------------------------- the class

  class Sender {
    const cnt: nat
    const local: nat
    const maxDeps: nat
    const incarnation: nat
    const checkSignature: (Id, nat) -> bool
    /** The payload hash of an own block that tells of a fork. */
    const proofHash: Fork -> nat

    // storage: the writes issued, and how many of them are acknowledged
    var log: seq<Write>
    var durable: nat

    // memory
    var phase: Phase
    var waiting: seq<Request>
    var last: Id
    var rec: Receiver

    /** Every own block ever shown, in order. */
    ghost var chain: seq<Own>
    /** How many of them were shown before the program was last started, and all that it was asked for since. */
    ghost var base: nat
    ghost var asked: seq<Request>

    ghost predicate Valid()
      reads this, rec
    {
      ChainOk(local, chain) && LogOk(local, log, durable, chain) && local < cnt && (phase != Down ==> Up())
    }

    /** The program runs. */
    ghost predicate Up()
      reads this, rec
    {
      && rec.Valid() && rec.q == [] && Same(rec) && MemOk(local, LinksOf(Disk(log)), rec.t, chain) && last == Tip(chain)
      && PhaseOk(local, log, durable, phase, rec.g, chain) && ListsOk(local, rec.g, Lists(phase, waiting))
      && Unharmed(rec.t, rec.s, local) && Checked(rec.t.st, phase, chain) && (phase == Idle ==> waiting == [])
      && Accounted(asked, base, chain, phase, waiting)
    }

    ghost predicate Same(r: Receiver) {
      r.cnt == cnt && r.local == local && r.maxDeps == maxDeps && r.incarnation == incarnation &&
        r.checkSignature == checkSignature
    }

    /** A block that is stored or being stored has been validated. */
    ghost predicate Checked(known: map<Id, BlockState>, phase: Phase, chain: seq<Own>) {
      phase.Storing? || phase.Pointing? ==>
        ValidMsg(cnt, maxDeps, incarnation, known, checkSignature, phase.m) && NoRootDeps(phase.m) &&
          HonestProof(local, chain, phase.m.payload)
    }

    constructor (cnt: nat, local: nat, maxDeps: nat, incarnation: nat, checkSignature: (Id, nat) -> bool,
                 proofHash: Fork -> nat)
      requires local < cnt
      ensures Valid() && phase == Down && chain == [] && log == [] && durable == 0
      ensures waiting == [] && last == Root && base == 0 && asked == []
    {
      hide Up, FreshTable, FreshBook;
      hide ChainOk, LogOk, MemOk, PhaseOk, ListsOk, Unharmed, Checked, TableInv, BookInv, ForkIdsOk, EventsOk,
           Heeded, Vouched, Disk,
           LinksOf, Lists;
      this.cnt, this.local, this.maxDeps, this.incarnation := cnt, local, maxDeps, incarnation;
      this.checkSignature, this.proofHash := checkSignature, proofHash;
      rec := new Receiver(cnt, local, maxDeps, incarnation, checkSignature);
      log, durable, phase, waiting, last, chain := [], 0, Down, [], Root, [];
      base, asked := 0, [];
      new;
      NothingStored(local);
    }

    /** The program is started on the writes of earlier runs, in which `chain` was shown. */
    constructor Stored(cnt: nat, local: nat, maxDeps: nat, incarnation: nat, checkSignature: (Id, nat) -> bool,
                       proofHash: Fork -> nat, log: seq<Write>, ghost chain: seq<Own>)
      requires local < cnt && ChainOk(local, chain) && LogOk(local, log, |log|, chain)
      ensures Valid() && phase == Down && this.chain == chain && this.log == log && durable == |log|
      ensures this.cnt == cnt && this.local == local && this.maxDeps == maxDeps && this.incarnation == incarnation
      ensures this.checkSignature == checkSignature && this.proofHash == proofHash
    {
      hide Up, FreshTable, FreshBook;
      hide ChainOk, LogOk, MemOk, PhaseOk, ListsOk, Unharmed, Checked, TableInv, BookInv, ForkIdsOk, EventsOk,
           Heeded, Vouched, Disk,
           LinksOf, Lists;
      this.cnt, this.local, this.maxDeps, this.incarnation := cnt, local, maxDeps, incarnation;
      this.checkSignature, this.proofHash := checkSignature, proofHash;
      rec := new Receiver(cnt, local, maxDeps, incarnation, checkSignature);
      this.log, durable, phase, waiting, last, this.chain := log, |log|, Down, [], Root, chain;
      base, asked := |chain|, [];
    }

    /** Storage acknowledges some more writes. */
    method Commit(n: nat)
      requires Valid() && durable <= n <= |log|
      modifies this`durable
      ensures Valid() && durable == n
    {
      hide Accounted, ChainOk, LogOk, MemOk, PhaseOk, ListsOk, Unharmed, Checked, TableInv, BookInv, ForkIdsOk,
           EventsOk, Heeded, Vouched, Disk,
           LinksOf, Lists;
      MoreDurable(local, log, durable, phase, rec.g, chain, n);
      durable := n;
    }

    /** A crash: memory is lost, and of the writes some prefix with all acknowledged ones survives. */
    method Crash(n: nat)
      requires Valid() && durable <= n <= |log|
      modifies this`log, this`durable, this`phase, this`waiting, this`last
      ensures Valid() && phase == Down && log == old(log)[..n] && durable == n && waiting == [] && last == Root
    {
      hide Accounted, ChainOk, LogOk, MemOk, PhaseOk, ListsOk, Unharmed, Checked, TableInv, BookInv, ForkIdsOk,
           EventsOk, Heeded, Vouched, Disk,
           LinksOf, Lists;
      CutLog(local, log, durable, chain, n);
      log, durable, phase := log[..n], n, Down;
      waiting, last := [], Root;
    }

    /**
      A block arrives from another node; its signatures are those of an honest network. Forks that its names
      reveal are told in own blocks.
     */
    method Receive(m: Msg)
      requires Valid() && phase != Down && 0 <= m.src < cnt
      requires ValidMsg(cnt, maxDeps, incarnation, rec.t.st, checkSignature, m) ==>
                 NoRootDeps(m) && HonestMsg(local, chain, m)
      modifies this`log, this`phase, this`waiting, this`asked, rec
      ensures Valid() && phase != Down && old(rec.s.prepared) <= rec.s.prepared
      ensures Told(old(asked), asked, proofHash, rec.s.prepared[|old(rec.s.prepared)|..])
      ensures log == old(log) + if old(rec.Stores(m, rec.t)) then [Put(m)] else []
      ensures (phase, waiting) == Requested(local, last, proofHash, old(phase), old(waiting),
                rec.s.prepared[|old(rec.s.prepared)|..])
    {
      hide Accounted, ChainOk, LogOk, MemOk, PhaseOk, ListsOk, Unharmed, Checked, TableInv, BookInv, ForkIdsOk,
           EventsOk, Heeded, Vouched, Disk,
           LinksOf, ValidMsg, NoRootDeps, HonestMsg;
      hide Evolves, Quiescent, Harmless, NoneIll, Lists, MsgLink;
      var stored, n := rec.Stores(m, rec.t), |rec.s.prepared|;
      ghost var t, q, g, ev, s := rec.t, rec.q, rec.g, rec.events, rec.s;
      ghost var entered := ValidMsg(cnt, maxDeps, incarnation, t.st, checkSignature, m) &&
        (MsgId(m) !in t.st || t.st[MsgId(m)] == None);
      if ValidMsg(cnt, maxDeps, incarnation, t.st, checkSignature, m) {
        HonestIsHarmless(local, LinksOf(Disk(log)), t, chain, m);
      }
      rec.ReceiveBlock(m);
      ReceiveKeeps(cnt, local, log, durable, phase, waiting, chain, t, q, g, ev, s.blamed, rec.t, rec.q, rec.g,
        rec.events, rec.s.blamed, m, stored, entered);
      if stored {
        log := log + [Put(m)];
      }
      OwnHealthy(local, LinksOf(Disk(log)), rec.t, chain);
      StillChecked(t.st, rec.t.st);
      Tell(n);
    }

    /** Ask for an own block for each fork found since there were `n`. */
    method Tell(n: nat)
      requires n <= |rec.s.prepared| && phase != Down && Valid()
      modifies this`phase, this`waiting, this`asked
      ensures Told(old(asked), asked, proofHash, rec.s.prepared[n..])
      ensures (phase, waiting) == Requested(local, last, proofHash, old(phase), old(waiting), rec.s.prepared[n..])
      ensures phase != Down && Valid()
    {
      hide ChainOk, LogOk, MemOk, PhaseOk, ListsOk, Unharmed, Checked, TableInv, BookInv, ForkIdsOk, EventsOk,
           Heeded, Vouched, Disk,
           LinksOf, Lists, Told, Accounted, Requested, Enqueued;
      var i := n;
      assert rec.s.prepared[n..i] == [];
      ToldNone(asked, proofHash);
      RequestedNone(local, last, proofHash, phase, waiting);
      while i < |rec.s.prepared|
        invariant n <= i <= |rec.s.prepared| && Valid() && phase != Down
        invariant Told(old(asked), asked, proofHash, rec.s.prepared[n..i])
        invariant (phase, waiting) == Requested(local, last, proofHash, old(phase), old(waiting), rec.s.prepared[n..i])
      {
        RequestedNext(local, last, proofHash, old(phase), old(waiting), rec.s.prepared, n, i);
        ToldMore(old(asked), asked, proofHash, rec.s.prepared, n, i);
        AddBlock(proofHash(rec.s.prepared[i]), []);
        i := i + 1;
      }
      assert rec.s.prepared[n..i] == rec.s.prepared[n..];
    }

    lemma StillChecked(known: map<Id, BlockState>, known': map<Id, BlockState>)
      requires Evolves(known, known') && Checked(known, phase, chain)
      ensures Checked(known', phase, chain)
    {
      hide ValidMsg, HonestProof, NoRootDeps;
      if phase.Storing? || phase.Pointing? {
        ValidGrows(cnt, maxDeps, incarnation, known, known', checkSignature, phase.m);
      }
    }

    /** The layer above asks for an own block; only one is sent at a time. The own source is never blamed. */
    method AddBlock(data: nat, deps: seq<Id>)
      requires Valid() && phase != Down && forall e | e in deps :: e in rec.g && Foreign(local, e)
      modifies this`phase, this`waiting, this`asked
      ensures Valid() && phase != Down && local !in rec.s.blamed && asked == old(asked) + [Request(data, deps)]
      ensures (phase, waiting) == Enqueued(local, last, old(phase), old(waiting), Request(data, deps))
      ensures old(phase) == Idle ==>
                phase == Signing(Blk(local, |chain| + 1, data), Link(Tip(chain), deps)) && waiting == []
      ensures old(phase) != Idle ==> phase == old(phase) && waiting == old(waiting) + [Request(data, deps)]
    {
      hide Accounted, ChainOk, LogOk, MemOk, PhaseOk, Disk, LinksOf, TableInv, BookInv, ForkIdsOk, EventsOk, Heeded,
           Vouched, ListsOk,
           Lists,
           HonestProof, ValidMsg, NoRootDeps, Unharmed;
      UnharmedMeans(rec.t, rec.s, local);
      ListsNext(local, last, phase, waiting, Request(data, deps));
      ListsMore(local, rec.g, Lists(phase, waiting), deps);
      AccountedMore(asked, base, chain, local, last, phase, waiting, Request(data, deps));
      TipHeight(local, chain);
      asked := asked + [Request(data, deps)];
      if phase != Idle {
        waiting := waiting + [Request(data, deps)];
        return;
      }
      MemDag(cnt, local, LinksOf(Disk(log)), rec.t, rec.q, rec.g, chain);
      BegunOk(local, log, durable, rec.g, chain, Request(data, deps), Lists(phase, waiting) + [deps]);
      phase := Begun(local, last, Request(data, deps));
    }

    /** The signature is ready: the block goes to storage, unless it is invalid, which ends the program. */
    method Signed(m: Msg)
      requires Valid() && phase.Signing? && MsgId(m) == phase.x && MsgLink(m) == phase.k
      requires HonestProof(local, chain, m.payload)
      modifies this`phase, this`log
      ensures Valid()
      ensures if ValidMsg(cnt, maxDeps, incarnation, rec.t.st, checkSignature, m)
              then log == old(log) + [Put(m)] && phase == Storing(m, |log|)
              else log == old(log) && phase == Down
    {
      hide Accounted, ChainOk, LogOk, MemOk, Disk, LinksOf, TableInv, BookInv, ForkIdsOk, EventsOk, Heeded, Vouched,
           ListsOk,
           HonestProof,
           ValidMsg, Unharmed, Pointer, Keeps, PointsTo;
      hide MsgLink, NoRootDeps, LinksIn, StoredDag, DagOk, FreshDag;
      var good := rec.Validate(m);
      if !good {
        phase := Down;
        return;
      }
      ghost var lk := LinksOf(Disk(log));
      OwnLinksPlain(local, chain, m);
      UnharmedMeans(rec.t, rec.s, local);
      OwnIsNew(cnt, local, lk, rec.t, rec.s, chain, MsgId(m), MsgLink(m));
      MemDag(cnt, local, lk, rec.t, rec.q, rec.g, chain);
      GraphGrows(cnt, rec.events, rec.g, rec.s.blamed, rec.events, rec.g, rec.s.blamed);
      TablesLinks(cnt, rec.t, rec.q, rec.g);
      PutOwn(local, log, durable, chain, rec.g, Order(rec.events), m);
      MemPut(local, lk, rec.t, chain, MsgId(m), MsgLink(m));
      AccountedOn(asked, base, chain, m, waiting, |log| + 1, 0);
      log := log + [Put(m)];
      phase := Storing(m, |log|);
    }

    /** The block is stored: now the pointer. */
    method BlockStored()
      requires Valid() && phase.Storing? && phase.end <= durable
      modifies this`phase, this`log
      ensures Valid() && log == old(log) + [Point(MsgId(old(phase).m))] && phase == Pointing(old(phase).m, |log|)
    {
      hide Accounted, ChainOk, LogOk, MemOk, Disk, LinksOf, TableInv, BookInv, ForkIdsOk, EventsOk, Heeded, Vouched,
           ListsOk,
           HonestProof,
           ValidMsg, Unharmed, Pointer, Keeps, PointsTo;
      hide MsgLink, NoRootDeps, LinksIn, StoredDag, DagOk, FreshDag;
      MemDag(cnt, local, LinksOf(Disk(log)), rec.t, rec.q, rec.g, chain);
      GraphGrows(cnt, rec.events, rec.g, rec.s.blamed, rec.events, rec.g, rec.s.blamed);
      PointOwn(local, log, durable, chain, rec.g, Order(rec.events), phase.m, phase.end);
      AccountedOn(asked, base, chain, phase.m, waiting, phase.end, |log| + 1);
      log := log + [Point(MsgId(phase.m))];
      phase := Pointing(phase.m, |log|);
    }

    /**
      The pointer is stored: only now is the block delivered, and so shown to others, unless a check fails, which
      ends the program. That is so exactly if a dependency is refused or the block carries a bad fork proof; a block
      that tells of a fork the program found is fine. If its predecessor depends on one of its dependencies, no
      restart will succeed either.
     */
    method PointerStored()
      requires Valid() && phase.Pointing? && phase.end <= durable
      modifies this`phase, this`waiting, this`last, this`chain, rec
      ensures Valid() && log == old(log)
      ensures chain == old(chain) + if phase == Down then [] else [Own(MsgId(old(phase).m), MsgLink(old(phase).m))]
      ensures phase != Down <==>
                Fits(cnt, incarnation, checkSignature, old(rec.g), old(rec.s).blamed,
                     old(rec.t).st[MsgId(old(phase).m) := None], old(phase).m)
      ensures forall f | f in old(rec.s).prepared && Tells(old(phase).m.payload, f) ::
                MsgLink(old(phase).m).deps == [] ==> phase != Down
      ensures phase != Down ==> last == MsgId(old(phase).m)
      ensures phase != Down && old(waiting) == [] ==> phase == Idle && waiting == []
      ensures phase != Down && old(waiting) != [] ==>
                && phase == Signing(Blk(local, |chain| + 1, old(waiting)[0].data), Link(last, old(waiting)[0].deps))
                && waiting == old(waiting)[1..]
      ensures FreshBelow(LinksOf(Disk(log)), Pointer(log)) <==>
                forall e | e in MsgLink(old(phase).m).deps :: !Reaches(old(rec.g), old(last), e)
    {
      hide ChainOk, LogOk, MemOk, PhaseOk, Disk, LinksOf, TableInv, BookInv, ForkIdsOk, EventsOk, Heeded, Vouched,
           ListsOk, Lists,
           HonestProof, ValidMsg, Unharmed, Pointer;
      hide MsgLink, NoRootDeps, LinksIn, Evolves, Quiescent, Decided, NoneIll, Accuses, LinksDelivered, Next, Fits,
           Tells, Accounted, FreshBelow;
      var m, end := phase.m, phase.end;
      ghost var t, q, g, ev, s := rec.t, rec.q, rec.g, rec.events, rec.s;
      ghost var lk := LinksOf(Disk(log));
      OwnReady(cnt, local, log, durable, m, end, waiting, chain, t, q, g, s);
      PointedFresh(cnt, local, log, durable, m, end, chain, t, q, g, ev, s.blamed);
      forall f | f in s.prepared && Tells(m.payload, f) && MsgLink(m).deps == []
        ensures Fits(cnt, incarnation, checkSignature, g, s.blamed, t.st[MsgId(m) := None], m) {
        ToldFits(cnt, incarnation, checkSignature, t, q, g, s, f, m);
      }
      rec.AddOwnBlock(m);
      DecidedMeans(cnt, incarnation, checkSignature, t, q, g, s, old(rec.totalForks), ev, rec.t, m);
      var x := MsgId(m);
      if rec.t.st[x] != Delivered {
        phase := Down;
        return;
      }
      ShowKeeps(cnt, local, log, durable, m, end, waiting, chain, t, q, g, ev, s.blamed, rec.t, rec.q, rec.g,
        rec.events, rec.s.blamed);
      OwnHealthy(local, lk, rec.t, chain + [Own(x, MsgLink(m))]);
      last, chain := x, chain + [Own(x, MsgLink(m))];
      NextKeeps(cnt, local, log, durable, waiting, chain, rec.t, rec.q, rec.g);
      AccountedShow(asked, base, old(chain), m, end, waiting, local, last);
      NextIs(local, chain, waiting);
      phase, waiting := Next(local, last, waiting).0, Next(local, last, waiting).1;
    }

    /**
      Restart from the pointer. The blocks it needs are run again; the pointed-to block is delivered only if none of
      them depends directly on what its predecessor depends on, and then surely if they are steady and valid by
      their signatures alone. If they have a fork, the program goes on with an own block begun on the root (`split`).
     */
    method Recover() returns (split: bool)
      requires Valid() && phase == Down && durable == |log|
      modifies this`phase, this`waiting, this`last, this`chain, this`base, this`asked, this`rec
      ensures fresh(rec)
      ensures log == old(log) && if split then Split() else Valid() && waiting == [] && (phase == Down || phase == Idle)
      ensures phase != Down ==> (split <==> !Unforked(LinksOf(Disk(log)), Pointer(log)))
      ensures phase != Down ==>
                last == Pointer(log) && chain == Recovered(LinksOf(Disk(log)), Pointer(log), old(chain))
      ensures phase != Down ==> FreshBelow(LinksOf(Disk(log)), Pointer(log))
      ensures phase == Down ==> chain == old(chain)
      ensures (&& AllAlone(cnt, maxDeps, incarnation, checkSignature, Disk(log), Pointer(log))
               && Steady(LinksOf(Disk(log)), Pointer(log)) && FreshBelow(LinksOf(Disk(log)), Pointer(log)))
              ==> phase != Down
    {
      hide Accounted, ChainOk, LogOk, MemOk, PhaseOk, Disk, LinksOf, TableInv, BookInv, ForkIdsOk, EventsOk, Heeded,
           Vouched, ListsOk,
           StoreOk,
           Unharmed, NoneIll, Pointer, Recovered, Requested;
      hide Loading, Needed, Unforked, FreshBelow, Steady, AllAlone, Filed, Ordered, Accuses;
      var d, p := Disk(log), Pointer(log);
      waiting, split := [], false;
      if p == Root {
        NothingSent(local, log, chain);
        StartEmpty();
        return;
      }
      LogNow(local, log, durable, chain);
      ghost var ord := StoredOrd(local, d, p, chain);
      var r, ok := Restore(cnt, local, maxDeps, incarnation, checkSignature, d, p, ord);
      rec := r;
      PointerNeeded(d, p);
      if ok && p in rec.t.st && rec.t.st[p] == Delivered {
        split := Resume();
      }
    }

    /** A start with nothing stored. */
    method StartEmpty()
      requires ChainOk(local, chain) && LogOk(local, log, |log|, chain) && durable == |log| && local < cnt
      requires Pointer(log) == Root && chain == [] && waiting == []
      modifies this`phase, this`last, this`base, this`asked, this`rec
      ensures Valid() && phase == Idle && last == Root && fresh(rec)
    {
      hide ChainOk, LogOk, MemOk, PhaseOk, Disk, LinksOf, TableInv, BookInv, ForkIdsOk, EventsOk, Heeded, Vouched,
           ListsOk,
           Unharmed, Pointer, Accounted;
      NothingSent(local, log, chain);
      rec := new Receiver(cnt, local, maxDeps, incarnation, checkSignature);
      FreshUnharmed(cnt, local);
      NoLists(local, rec.g);
      AccountedNone(chain);
      last, phase := Root, Idle;
      base, asked := |chain|, [];
    }

    /** The last step of a restart: the pointed-to block has been delivered again. */
    method Resume() returns (split: bool)
      requires ChainOk(local, chain) && LogOk(local, log, |log|, chain) && durable == |log| && local < cnt
      requires Pointer(log) != Root && Loading(Disk(log), Pointer(log), rec.t, [])
      requires rec.Valid() && rec.q == [] && Same(rec)
      requires Pointer(log) in rec.t.st && rec.t.st[Pointer(log)] == Delivered
      requires (&& rec.s.prepared == [] && NoneIll(rec.t.st, local)
                && (forall x | x in Disk(log) :: !Accuses(Disk(log)[x].payload, local)))
               ==> Unharmed(rec.t, rec.s, local)
      modifies this`phase, this`waiting, this`last, this`chain, this`base, this`asked
      ensures phase != Down && if split then Split() else Valid() && waiting == [] && phase == Idle
      ensures split <==> rec.s.prepared != []
      ensures last == Pointer(log) && chain == Recovered(LinksOf(Disk(log)), Pointer(log), old(chain))
      ensures FreshBelow(LinksOf(Disk(log)), Pointer(log))
    {
      hide Accounted, ChainOk, LogOk, MemOk, PhaseOk, Disk, LinksOf, TableInv, BookInv, ForkIdsOk, EventsOk, Heeded,
           Vouched, ListsOk,
           Unharmed,
           NoneIll, Pointer, Recovered, Requested, Loading, FreshBelow, Accuses;
      Resumed(cnt, local, log, chain, rec.t, rec.q, rec.g, rec.events, rec.s.blamed);
      chain := Recovered(LinksOf(Disk(log)), Pointer(log), chain);
      last, split := Pointer(log), rec.s.prepared != [];
      if split {
        FirstRequest(local, proofHash, rec.s.prepared);
        phase, waiting := Requested(local, Root, proofHash, Idle, [], rec.s.prepared).0,
                          Requested(local, Root, proofHash, Idle, [], rec.s.prepared).1;
      } else {
        NoLists(local, rec.g);
        AccountedNone(chain);
        phase, waiting := Idle, [];
        base, asked := |chain|, [];
      }
    }

    /** The program runs after a restart that found a fork: own blocks are begun on the root, not on the last one. */
    ghost predicate Split()
      reads this, rec
    {
      && chain != [] && rec.s.prepared != [] && local < cnt && last == Tip(chain) && ChainOk(local, chain)
      && (phase, waiting) == Requested(local, Root, proofHash, Idle, [], rec.s.prepared)
      && phase == Begun(local, Root, Request(proofHash(rec.s.prepared[0]), []))
      && rec.q == [] && Same(rec) && MemOk(local, LinksOf(Disk(log)), rec.t, chain) && rec.Valid()
    }

    /** The message of the own block under way, which tells of the first fork found. */
    ghost predicate Second(m: Msg)
      reads this, rec
    {
      && phase.Signing? && chain != [] && rec.s.prepared != [] && MsgId(m) == phase.x && MsgLink(m) == phase.k
      && Tells(m.payload, rec.s.prepared[0]) && ValidMsg(cnt, maxDeps, incarnation, rec.t.st, checkSignature, m)
      && chain[0].id.Blk? && m.data != chain[0].id.data && Split()
    }

    /**
      What comes of it: the block that tells of the fork is signed, stored, pointed to and shown. It is a second own
      block of height 1, and the program then blames itself.
     */
    method ShowSecond(m: Msg)
      requires Second(m)
      modifies this`log, this`durable, this`phase, this`last, rec
      ensures log == old(log) + [Put(m)] + [Point(MsgId(m))] && durable == |log| && Pointer(log) == last == MsgId(m)
      ensures chain != [] && TwoOwn(local, rec.g, rec.s.blamed, chain[0].id, MsgId(m)) && rec.Valid()
    {
      hide ChainOk, MemOk, Disk, LinksOf, TableInv, BookInv, ForkIdsOk, EventsOk, Heeded, Vouched, Requested,
           ValidMsg, Pointer, MsgLink,
           Evolves, Quiescent, Decided, LinksDelivered, Fits, Tells, NoRootDeps, Unharmed, Accuses, TwoOwn;
      ghost var t, q, g, ev, s := rec.t, rec.q, rec.g, rec.events, rec.s;
      SecondReady(cnt, local, LinksOf(Disk(log)), t, q, g, chain, m);
      Appended(log, Put(m));
      log := log + [Put(m)];
      Appended(log, Point(MsgId(m)));
      log := log + [Point(MsgId(m))];
      durable := |log|;
      ToldFits(cnt, incarnation, checkSignature, t, q, g, s, s.prepared[0], m);
      rec.AddOwnBlock(m);
      DecidedMeans(cnt, incarnation, checkSignature, t, q, g, s, old(rec.totalForks), ev, rec.t, m);
      TwoDelivered(cnt, local, t, rec.t, rec.q, rec.g, rec.s, chain[0].id, MsgId(m));
      last, phase := MsgId(m), Idle;
    }
  }

  /** What the last step of an own block needs. */
  lemma OwnReady(cnt: nat, local: nat, log: seq<Write>, durable: nat, m: Msg, end: nat, waiting: seq<Request>,
                 chain: seq<Own>,
                 t: Table, q: seq<Id>, g: Dag, s: Book)
    requires ChainOk(local, chain) && MemOk(local, LinksOf(Disk(log)), t, chain)
    requires PhaseOk(local, log, durable, Pointing(m, end), g, chain)
    requires TableInv(cnt, t, q, g, {}) && BookInv(cnt, t.st, s, {}, {}) && Unharmed(t, s, local)
    requires local < cnt && HonestProof(local, chain, m.payload)
    ensures LinksDelivered(t.st, MsgLink(m)) && MsgId(m) !in t.st && MsgId(m).Blk?
    ensures m.src == local == MsgId(m).src && m.height == MsgId(m).height
    ensures |s.at| == cnt && m.height !in s.at[local] && !Accuses(m.payload, local)
  {
    hide ChainOk, MemOk, Disk, LinksOf, TableInv, BookInv, HonestProof, LinksIn, MsgLink, Accuses, PointsTo, Keeps,
         LinksDelivered;
    UnharmedMeans(t, s, local);
    OwnIsNew(cnt, local, LinksOf(Disk(log)), t, s, chain, MsgId(m), MsgLink(m));
    LinksInDelivered(cnt, t, q, g, MsgLink(m));
    NotAccused(local, chain, m.payload);
  }

  /** What the pointer then needs is fresh exactly if the block is. */
  lemma PointedFresh(cnt: nat, local: nat, log: seq<Write>, durable: nat, m: Msg, end: nat, chain: seq<Own>, t: Table,
                     q: seq<Id>, g: Dag, ev: seq<Event>, blamed: set<nat>)
    requires ChainOk(local, chain) && LogOk(local, log, durable, chain) && MemOk(local, LinksOf(Disk(log)), t, chain)
    requires PhaseOk(local, log, durable, Pointing(m, end), g, chain) && MsgId(m) !in t.st && MsgId(m) != Root
    requires TableInv(cnt, t, q, g, {}) && EventsOk(cnt, ev, g, blamed)
    ensures FreshBelow(LinksOf(Disk(log)), Pointer(log)) <==>
              forall e | e in MsgLink(m).deps :: !Reaches(g, Tip(chain), e)
  {
    hide ChainOk, LogOk, MemOk, TableInv, EventsOk, Heeded, Vouched, Disk, LinksOf, Pointer, StoredDag, DagOk,
         FreshDag, FreshBelow,
         Startable, Reaches, MsgLink, PointsTo, Keeps, LinksIn;
    var lk := LinksOf(Disk(log));
    MemDag(cnt, local, lk, t, q, g, chain);
    GraphGrows(cnt, ev, g, blamed, ev, g, blamed);
    LogLength(local, log, durable, chain);
    PointerNow(local, log, durable, Pointing(m, end), g, chain);
    HoldsNow(log, end, MsgId(m), m);
    LinksAt(Disk(log), m);
    TablesLinks(cnt, t, q, g);
    RootNotStored(local, log, durable, chain);
    StartFresh(lk, g, Order(ev), Pointer(log));
  }

  lemma RootNotStored(local: nat, log: seq<Write>, durable: nat, chain: seq<Own>)
    requires LogOk(local, log, durable, chain)
    ensures Root !in LinksOf(Disk(log))
  {
    hide Disk, Pointer, LinksOf;
    LogNow(local, log, durable, chain);
  }

  /** What the outcome for an own block means. */
  lemma DecidedMeans(cnt: nat, incarnation: nat, sigOk: (Id, nat) -> bool, t: Table, q: seq<Id>, g: Dag, s: Book,
                     total: nat, ev: seq<Event>, t': Table, m: Msg)
    requires TableInv(cnt, t, q, g, {}) && BookInv(cnt, t.st, s, {}, {})
    requires ForkIdsOk(cnt, total, s.ids, t.fork) && EventsOk(cnt, ev, g, s.blamed)
    requires LinksDelivered(t.st, MsgLink(m)) && Decided(cnt, incarnation, sigOk, t, s, t', m)
    ensures MsgId(m) in t'.st
    ensures t'.st[MsgId(m)] ==
              if Fits(cnt, incarnation, sigOk, g, s.blamed, t.st[MsgId(m) := None], m) then Delivered else Ill
  {
    hide TableInv, BookInv, ForkIdsOk, EventsOk, Heeded, Vouched, LinksDelivered, Passing, LinksBooked, Refused,
         ProofOk, MsgLink;
    PassingMeans(cnt, incarnation, sigOk, t, q, g, s, total, ev, t.st[MsgId(m) := None], MsgLink(m), m.payload);
  }

  lemma ToldFits(cnt: nat, incarnation: nat, sigOk: (Id, nat) -> bool, t: Table, q: seq<Id>, g: Dag, s: Book,
                 f: Fork, m: Msg)
    requires TableInv(cnt, t, q, g, {}) && BookInv(cnt, t.st, s, {}, {}) && f in s.prepared && Tells(m.payload, f)
    requires MsgLink(m).deps == []
    ensures Fits(cnt, incarnation, sigOk, g, s.blamed, t.st[MsgId(m) := None], m)
  {
    hide TableInv, BookInv, Refused, ProofOk, MsgLink;
    ToldIsProof(cnt, incarnation, sigOk, t, q, g, s, MsgId(m), f, m.payload);
  }

  lemma SecondReady(cnt: nat, local: nat, lk: map<Id, Link>, t: Table, q: seq<Id>, g: Dag, chain: seq<Own>, m: Msg)
    requires TableInv(cnt, t, q, g, {}) && MemOk(local, lk, t, chain) && ChainOk(local, chain)
    requires chain != [] && chain[0].id.Blk?
    requires MsgId(m) == Blk(local, 1, m.data) && MsgLink(m) == Link(Root, []) && m.data != chain[0].id.data
    ensures IsNew(t.st, MsgId(m)) && LinksDelivered(t.st, MsgLink(m)) && NoRootDeps(m)
    ensures chain[0].id in t.st && t.st[chain[0].id] == Delivered && chain[0].id.Blk?
    ensures chain[0].id.src == local && chain[0].id.height == 1
  {
    hide HealthOk, RevOk, PendingOk, QueueOk, ClocksOk, GraphOk, NextOk, NextFrom, RunOk, LinkOk, LinksKnown;
    assert |MsgLink(m).deps| == |m.deps|;
    assert !InChain(chain, MsgId(m));
  }

  /** Two own blocks of height 1 have been delivered, and the own source is blamed. */
  ghost predicate TwoOwn(local: nat, g: Dag, blamed: set<nat>, x: Id, y: Id) {
    x in g && y in g && x != y && SameSource(x, y) && x.src == local && x.height == y.height == 1 && local in blamed
  }

  lemma TwoDelivered(cnt: nat, local: nat, t: Table, t': Table, q': seq<Id>, g': Dag, s': Book, x: Id, y: Id)
    requires TableInv(cnt, t', q', g', {}) && BookInv(cnt, t'.st, s', {}, {}) && Evolves(t.st, t'.st)
    requires x in t.st && t.st[x] == Delivered && y in t'.st && t'.st[y] == Delivered
    requires SameSource(x, y) && x.src == local < cnt && x.height == y.height == 1 && x != y
    ensures TwoOwn(local, g', s'.blamed, x, y)
  {
    hide HealthOk, RevOk, PendingOk, QueueOk, ClocksOk, NextOk, NextFrom, RunOk, LinkOk, LinksKnown;
    hide SourcesOk, ReceivedOk, DeliveredOk;
    if local !in s'.blamed {
      OwnHeight(cnt, t'.st, x, s'.blamed, s'.ids, s'.at, s'.dh, s'.rh);
      OwnHeight(cnt, t'.st, y, s'.blamed, s'.ids, s'.at, s'.dh, s'.rh);
    }
  }

  /** The first of the requests is under way. */
  lemma {:induction false} FirstRequest(local: nat, hash: Fork -> nat, forks: seq<Fork>)
    requires forks != []
    ensures Requested(local, Root, hash, Idle, [], forks).0 == Begun(local, Root, Request(hash(forks[0]), []))
    decreases |forks|
  {
    if |forks| > 1 {
      FirstRequest(local, hash, forks[..|forks| - 1]);
    }
  }

  /** If the pointed-to block is delivered again, all that it needs is fresh. */
  lemma RecoveredFresh(cnt: nat, local: nat, d: map<Id, Msg>, p: Id, chain: seq<Own>, t: Table, q: seq<Id>, g: Dag,
                       ev: seq<Event>, blamed: set<nat>)
    requires StoreOk(local, d, p, chain) && ChainOk(local, chain) && MemOk(local, LinksOf(d), t, chain)
    requires TableInv(cnt, t, q, g, {}) && EventsOk(cnt, ev, g, blamed) && Tip(chain) == p
    ensures FreshBelow(LinksOf(d), p)
  {
    hide MemOk, TableInv, EventsOk, Heeded, Vouched, ChainOk, Filed, HonestProof, LinksOf, DagOk, FreshDag,
         StoredDag, FreshBelow;
    MemDag(cnt, local, LinksOf(d), t, q, g, chain);
    GraphGrows(cnt, ev, g, blamed, ev, g, blamed);
    StartFresh(LinksOf(d), g, Order(ev), p);
  }

  /** The next own block is begun. */
  lemma NextKeeps(cnt: nat, local: nat, log: seq<Write>, durable: nat, waiting: seq<Request>, chain: seq<Own>,
                  t: Table, q: seq<Id>, g: Dag)
    requires ChainOk(local, chain) && MemOk(local, LinksOf(Disk(log)), t, chain) && TableInv(cnt, t, q, g, {})
    requires PhaseOk(local, log, durable, Idle, g, chain) && ListsOk(local, g, Lists(Idle, waiting))
    ensures var (p, w) := Next(local, Tip(chain), waiting);
            PhaseOk(local, log, durable, p, g, chain) && ListsOk(local, g, Lists(p, w))
  {
    hide ChainOk, MemOk, LinksOf, Disk, TableInv, PhaseOk, ListsOk;
    if waiting != [] {
      MemDag(cnt, local, LinksOf(Disk(log)), t, q, g, chain);
      assert Lists(Idle, waiting)[0] == waiting[0].deps;
      assert Lists(Begun(local, Tip(chain), waiting[0]), waiting[1..]) == Lists(Idle, waiting);
      BegunOk(local, log, durable, g, chain, waiting[0], Lists(Idle, waiting));
    }
  }

  lemma FreshUnharmed(cnt: nat, local: nat)
    ensures Unharmed(FreshTable(), FreshBook(cnt), local)
  {
  }

  lemma NoLists(local: nat, g: Dag)
    ensures ListsOk(local, g, Lists(Idle, []))
  {
  }

  lemma PointerNeeded(d: map<Id, Msg>, p: Id)
    ensures p != Root ==> Needed(LinksOf(d), p, p)
  {
    LinkedSelf(LinksOf(d), p);
  }

  lemma StoredNotAccused(local: nat, d: map<Id, Msg>, p: Id, chain: seq<Own>)
    requires StoreOk(local, d, p, chain) && ChainOk(local, chain)
    ensures forall x | x in d :: !Accuses(d[x].payload, local)
  {
    hide LinksOk, Filed, ChainOk, HonestProof, Accuses;
    forall x | x in d ensures !Accuses(d[x].payload, local) {
      NotAccused(local, chain, d[x].payload);
    }
  }

  /** All that holds once the pointed-to block is delivered again. */
  lemma Resumed(cnt: nat, local: nat, log: seq<Write>, chain: seq<Own>, t: Table, q: seq<Id>, g: Dag, ev: seq<Event>,
                blamed: set<nat>)
    requires ChainOk(local, chain) && LogOk(local, log, |log|, chain) && Pointer(log) != Root
    requires TableInv(cnt, t, q, g, {}) && EventsOk(cnt, ev, g, blamed) && Loading(Disk(log), Pointer(log), t, [])
    requires Pointer(log) in t.st && t.st[Pointer(log)] == Delivered
    ensures var chain' := Recovered(LinksOf(Disk(log)), Pointer(log), chain);
            && ChainOk(local, chain') && LogOk(local, log, |log|, chain') && chain' != [] && Tip(chain') == Pointer(log)
            && MemOk(local, LinksOf(Disk(log)), t, chain') && PhaseOk(local, log, |log|, Idle, g, chain')
    ensures FreshBelow(LinksOf(Disk(log)), Pointer(log)) && NoneIll(t.st, local)
    ensures forall x | x in Disk(log) :: !Accuses(Disk(log)[x].payload, local)
  {
    hide ChainOk, LogOk, MemOk, PhaseOk, Disk, LinksOf, TableInv, EventsOk, Heeded, Vouched, StoreOk, NoneIll,
         Pointer, Recovered,
         FreshBelow, Accuses, Loading;
    var d, p := Disk(log), Pointer(log);
    LogNow(local, log, |log|, chain);
    RecoveredStore(local, d, p, chain);
    var chain' := Recovered(LinksOf(d), p, chain);
    LogNowIs(local, log, chain');
    RecoveredMem(cnt, local, d, p, chain', t, q, g);
    RecoveredFresh(cnt, local, d, p, chain', t, q, g, ev, blamed);
    OwnHealthy(local, LinksOf(d), t, chain');
    StoredNotAccused(local, d, p, chain');
    RecoveredPhase(local, log, g, chain');
  }

  lemma RecoveredPhase(local: nat, log: seq<Write>, g: Dag, chain: seq<Own>)
    requires Pointer(log) == Tip(chain)
    ensures PhaseOk(local, log, |log|, Idle, g, chain)
  {
    assert log[..|log|] == log;
  }

  // ---------------------------------------------------------------- what it means

  /** The own blocks ever shown are one per height, each the predecessor of the next. */
  lemma {:induction false} OneBlockPerHeight(local: nat, chain: seq<Own>, a: Own, b: Own)
    requires ChainOk(local, chain) && a in chain && b in chain
    ensures a.id.Blk? && b.id.Blk? && (a.id.height == b.id.height ==> a == b)
    ensures a.id.height == b.id.height + 1 ==> a.k.prev == b.id
  {
    var i :| 0 <= i < |chain| && chain[i] == a;
    var j :| 0 <= j < |chain| && chain[j] == b;
    if i == j + 1 {
      assert chain[..i][j] == b;
    }
  }

  /** Whatever own block is in memory is in the chain, with the same links. */
  lemma {:induction false} ShownIsChain(local: nat, lk: map<Id, Link>, t: Table, chain: seq<Own>, x: Id)
    requires MemOk(local, lk, t, chain) && ChainStored(lk, chain) && x.Blk? && x.src == local && Live(t, x)
    ensures Own(x, t.lk[x]) in chain
  {
    assert InChain(chain, x);
    var i :| 0 <= i < |chain| && chain[i].id == x;
    assert chain[i] == Own(x, t.lk[x]);
  }
}
