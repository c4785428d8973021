/**
  Runs on which a promise of the receiver or of the sender fails, each carried out by their own methods: a block
  that is rejected when it is run again in another order, an own block that is rejected because it was asked for
  with a stale dependency, and a restart that shows two own blocks of one height.
 */
module CatchainRuns {
  import opened CatchainDag
  import opened CatchainState
  import opened CatchainTables
  import opened CatchainTheorems
  import opened CatchainReplay
  import opened CatchainReceiver
  import opened CatchainRestart
  import opened CatchainPipeline

  // ---------------------------------------------------------------- messages

  /** Every signature is good. */
  predicate AnySig(x: Id, sig: nat) {
    true
  }

  function Ref(cnt: nat, x: Id): Dep {
    if x.Blk? then Dep(x.src, x.height, x.data, 0) else Dep(cnt, 0, 0, 0)
  }

  function Block(cnt: nat, x: Id, prev: Id, deps: seq<Id>, pl: Payload): Msg
    requires x.Blk?
  {
    Msg(x.src, x.height, x.data, 0, Ref(cnt, prev), seq(|deps|, i requires 0 <= i < |deps| => Ref(cnt, deps[i])), pl)
  }

  /** A block that validation lets through. */
  predicate Proper(cnt: nat, x: Id, prev: Id, deps: seq<Id>) {
    && x.Blk? && x.src < cnt && x.height > 0 && |deps| <= 1
    && (if x.height == 1 then prev == Root else prev.Blk? && prev.src == x.src && prev.height + 1 == x.height)
    && (forall d | d in deps :: d.Blk? && d.src < cnt && d.src != x.src && d.height > 0)
  }

  lemma BlockIs(cnt: nat, x: Id, prev: Id, deps: seq<Id>, pl: Payload, known: map<Id, BlockState>)
    requires Proper(cnt, x, prev, deps) && !pl.Empty?
    ensures var m := Block(cnt, x, prev, deps, pl);
            && ValidMsg(cnt, 1, 0, known, AnySig, m) && MsgId(m) == x && MsgLink(m) == Link(prev, deps)
            && NoRootDeps(m) && m.payload == pl && m.src == x.src && m.data == x.data
  {
    var m := Block(cnt, x, prev, deps, pl);
    forall i | 0 <= i < |m.deps| ensures DepId(m.deps[i]) == deps[i] && m.deps[i].height > 0 {
      assert deps[i] in deps;
    }
    assert MsgLink(m).deps == deps;
  }

  // ---------------------------------------------------------------- one step of a run

  /** The blocks with links `lk`, and no others, are known, and all are delivered. */
  ghost predicate Ran(t: Table, lk: map<Id, Link>) {
    t.lk == lk && t.st.Keys == lk.Keys + {Root} && forall x | x in t.st :: t.st[x] == Delivered
  }

  ghost predicate Known(lk: map<Id, Link>, prev: Id, deps: seq<Id>) {
    (prev == Root || prev in lk) && forall d | d in deps :: d in lk
  }

  lemma StartRan()
    ensures Ran(FreshTable(), map[])
  {
  }

  lemma KnownDelivered(t: Table, lk: map<Id, Link>, prev: Id, deps: seq<Id>)
    requires Ran(t, lk) && Known(lk, prev, deps)
    ensures LinksDelivered(t.st, Link(prev, deps)) && LinkSet(Link(prev, deps)) <= t.st.Keys
  {
  }

  lemma RanMore(t: Table, lk: map<Id, Link>, t': Table, x: Id, k: Link)
    requires Ran(t, lk) && Evolves(t.st, t'.st) && t'.lk == lk[x := k] && LinkSet(k) <= t.st.Keys
    requires x in t'.st && t'.st.Keys <= t.st.Keys + LinkSet(k) + {x}
    ensures t'.st[x] == Delivered ==> Ran(t', lk[x := k])
  {
  }

  /**
    The block `x` arrives, or is the next own one, when its links are delivered: it is delivered if no dependency is
    refused, and ill otherwise.
   */
  method Take(rec: Receiver, x: Id, prev: Id, deps: seq<Id>, ghost lk: map<Id, Link>)
    requires rec.Valid() && rec.q == [] && rec.maxDeps == 1 && rec.incarnation == 0 && rec.checkSignature == AnySig
    requires Proper(rec.cnt, x, prev, deps) && Ran(rec.t, lk) && Known(lk, prev, deps) && x !in lk
    modifies rec
    ensures rec.Valid() && rec.q == [] && Within(old(rec.g), rec.g) && x in rec.t.st
    ensures rec.t.lk == lk[x := Link(prev, deps)]
    ensures if forall d | d in deps :: !Refused(old(rec.g), old(rec.s).blamed, prev, d)
            then Ran(rec.t, lk[x := Link(prev, deps)]) else rec.t.st[x] == Ill
  {
    hide TableInv, BookInv, ForkIdsOk, EventsOk, Heeded, Vouched, Evolves, ValidMsg, Quiescent, LinksDelivered, Decided,
         Refused, Ran,
         Known, Unharmed, NoneIll, Harmless, Block, MsgLink, MsgId, NoRootDeps, Within;
    var m := Block(rec.cnt, x, prev, deps, Other);
    BlockIs(rec.cnt, x, prev, deps, Other, rec.t.st);
    KnownDelivered(rec.t, lk, prev, deps);
    NotKnown(rec.t, lk, x);
    ghost var t, q, g, s, ev, total := rec.t, rec.q, rec.g, rec.s, rec.events, rec.totalForks;
    if x.src == rec.local {
      rec.AddOwnBlock(m);
    } else {
      rec.ReceiveBlock(m);
    }
    GraphGrows(rec.cnt, ev, g, s.blamed, rec.events, rec.g, rec.s.blamed);
    DecidedMeans(rec.cnt, 0, AnySig, t, q, g, s, total, ev, rec.t, m);
    RanMore(t, lk, rec.t, x, Link(prev, deps));
  }

  /** A first block of a source, or one without dependencies: nothing can be refused. */
  method TakeSure(rec: Receiver, x: Id, prev: Id, deps: seq<Id>, ghost lk: map<Id, Link>)
    requires rec.Valid() && rec.q == [] && rec.maxDeps == 1 && rec.incarnation == 0 && rec.checkSignature == AnySig
    requires Proper(rec.cnt, x, prev, deps) && Ran(rec.t, lk) && Known(lk, prev, deps) && x !in lk
    requires prev == Root || deps == []
    modifies rec
    ensures rec.Valid() && rec.q == [] && Within(old(rec.g), rec.g) && Ran(rec.t, lk[x := Link(prev, deps)])
  {
    hide TableInv, BookInv, ForkIdsOk, EventsOk, Heeded, Vouched, Refused, Ran, Known, Within;
    forall d | d in deps ensures !Refused(rec.g, rec.s.blamed, prev, d) {
      RootRefusesNothing(rec.cnt, rec.events, rec.g, rec.s.blamed, d);
    }
    Take(rec, x, prev, deps, lk);
  }

  // ---------------------------------------------------------------- when a dependency is refused

  /** The root block refuses nothing. */
  lemma RootRefusesNothing(cnt: nat, ev: seq<Event>, g: Dag, blamed: set<nat>, d: Id)
    requires EventsOk(cnt, ev, g, blamed) && d != Root
    ensures !Refused(g, blamed, Root, d)
  {
    hide EventsOk, Reaches, DagOk;
    StreamGivesDagOf(cnt, ev, g, blamed);
    NoRoot(g, Order(ev));
    forall y | y == d || y in g ensures !Reaches(g, Root, y) {
      if Reaches(g, Root, y) {
        RootReachesItself(g, y);
      }
    }
  }

  /** The only block that follows `p` continues its fork. */
  lemma OnlyOneFollows(cnt: nat, t: Table, q: seq<Id>, g: Dag, lk: map<Id, Link>, p: Id, x: Id)
    requires TableInv(cnt, t, q, g, {}) && Ran(t, lk) && x in lk && lk[x].prev == p != Root && p in lk
    requires forall y | y in lk && lk[y].prev == p :: y == x
    ensures p in g && x in g && g[x].fork == g[p].fork
  {
    hide HealthOk, RevOk, PendingOk, QueueOk, ClocksOk, NextOk, RunOk, LinksKnown;
    assert LinkOk(x, lk[x]) && IsLink(lk[x], p);
    GraphHas(cnt, t, g, x);
    GraphHas(cnt, t, g, p);
  }

  /** Blocks of one height are in different forks. */
  lemma OneForkEach(cnt: nat, ev: seq<Event>, g: Dag, blamed: set<nat>, x: Id, y: Id)
    requires EventsOk(cnt, ev, g, blamed) && x in g && y in g && SameSource(x, y) && x.height == y.height && x != y
    ensures g[x].fork != g[y].fork
  {
    hide EventsOk;
    StreamGivesDagOf(cnt, ev, g, blamed);
  }

  lemma NotKnown(t: Table, lk: map<Id, Link>, x: Id)
    requires Ran(t, lk) && x !in lk && x.Blk?
    ensures IsNew(t.st, x) && t.lk == lk && x !in t.st
  {
  }

  // ---------------------------------------------------------------- accepted once, rejected in another order

  // Source 0 has two blocks of height 2; source 1 depends on its first block and then on one of the two.
  const S1 := Blk(0, 1, 1)
  const LEFT := Blk(0, 2, 2)
  const RIGHT := Blk(0, 2, 3)
  const B1 := Blk(1, 1, 4)
  const B2 := Blk(1, 2, 5)

  const L_S1: map<Id, Link> := map[S1 := Link(Root, [])]
  const L_RIGHT: map<Id, Link> := L_S1[B1 := Link(Root, [S1])][RIGHT := Link(S1, [])]
  const L_LEFT: map<Id, Link> := L_S1[LEFT := Link(S1, [])]
  const L_BOTH: map<Id, Link> := L_LEFT[B1 := Link(Root, [S1])][RIGHT := Link(S1, [])]

  const L_ALL: map<Id, Link> := L_BOTH[B2 := Link(B1, [RIGHT])]

  method RightFirst() returns (rec: Receiver)
    ensures rec.cnt == 3 && rec.local == 2 && rec.maxDeps == 1 && rec.incarnation == 0 && rec.checkSignature == AnySig
    ensures fresh(rec) && rec.Valid() && rec.q == [] && Ran(rec.t, L_RIGHT) && !Refused(rec.g, rec.s.blamed, B1, RIGHT)
  {
    hide TableInv, BookInv, ForkIdsOk, EventsOk, Heeded, Vouched, Refused, Ran, Within;
    rec := new Receiver(3, 2, 1, 0, AnySig);
    StartRan();
    ghost var none: map<Id, Link> := map[];
    TakeSure(rec, S1, Root, [], none);
    assert none[S1 := Link(Root, [])] == L_S1;
    TakeSure(rec, B1, Root, [S1], L_S1);
    ghost var t, q, g, ev, s := rec.t, rec.q, rec.g, rec.events, rec.s;
    TakeSure(rec, RIGHT, S1, [], L_S1[B1 := Link(Root, [S1])]);
    NotRefused(t, q, g, ev, s.blamed, rec.t, rec.q, rec.g, rec.events, rec.s.blamed);
  }

  /** In the first run `RIGHT` comes before `LEFT` and continues the fork of `S1`; everything is delivered. */
  method AcceptedFirst() returns (rec: Receiver)
    ensures rec.Valid() && Ran(rec.t, L_ALL)
  {
    hide TableInv, BookInv, ForkIdsOk, EventsOk, Heeded, Vouched, Refused, Ran, Within;
    rec := RightFirst();
    Take(rec, B2, B1, [RIGHT], L_RIGHT);
    TakeSure(rec, LEFT, S1, [], L_RIGHT[B2 := Link(B1, [RIGHT])]);
    SameBlocks();
  }

  lemma SameBlocks()
    ensures L_RIGHT[B2 := Link(B1, [RIGHT])][LEFT := Link(S1, [])] == L_ALL
  {
  }

  lemma NotRefused(t: Table, q: seq<Id>, g: Dag, ev: seq<Event>, blamed: set<nat>, t': Table, q': seq<Id>, g': Dag,
                   ev': seq<Event>, blamed': set<nat>)
    requires TableInv(3, t, q, g, {}) && Ran(t, L_S1[B1 := Link(Root, [S1])]) && EventsOk(3, ev, g, blamed)
    requires TableInv(3, t', q', g', {}) && Ran(t', L_RIGHT) && EventsOk(3, ev', g', blamed') && Within(g, g')
    ensures !Refused(g', blamed', B1, RIGHT)
  {
    hide TableInv, EventsOk, Reaches, DagOk, Within, Refused, Ran;
    RightIsNew(t, t');
    OnlyOneFollows(3, t', q', g', L_RIGHT, S1, RIGHT);
    GraphOf(3, t, q, g);
    GraphOf(3, t', q', g');
    StreamGivesDagOf(3, ev, g, blamed);
    NotReachedBefore(g, Order(ev), g', B1, RIGHT);
    ForkAlone(g', blamed', B1, RIGHT);
  }

  lemma RightIsNew(t: Table, t': Table)
    requires Ran(t, L_S1[B1 := Link(Root, [S1])]) && Ran(t', L_RIGHT)
    ensures B1 in t.st && t.st[B1] == Delivered && RIGHT !in t.st && S1 in t'.st && RIGHT in t'.st
    ensures forall y | y in t'.st && SameSource(y, RIGHT) :: y == S1 || y == RIGHT
  {
  }

  lemma ForkAlone(g: Dag, blamed: set<nat>, p: Id, d: Id)
    requires !Reaches(g, p, d) && forall y | y in g && SameSource(y, d) :: d in g && g[y].fork == g[d].fork
    ensures !Refused(g, blamed, p, d)
  {
    hide Reaches;
  }

  lemma GraphOf(cnt: nat, t: Table, q: seq<Id>, g: Dag)
    requires TableInv(cnt, t, q, g, {})
    ensures forall y :: y in g <==> y in t.st && t.st[y] == Delivered && y != Root
    ensures forall y | y in g :: y in t.lk && g[y].prev == t.lk[y].prev && g[y].deps == t.lk[y].deps
  {
    hide HealthOk, RevOk, PendingOk, QueueOk, ClocksOk, NextOk, NextFrom, RunOk, LinkOk, LinksKnown;
  }

  /** What is delivered later is not reached. */
  lemma NotReachedBefore(g: Dag, order: seq<Id>, g': Dag, a: Id, x: Id)
    requires DagOk(g, order) && Within(g, g') && a in g && x !in g && x != Root
    ensures !Reaches(g', a, x)
  {
    hide DagOk, Within;
    if Reaches(g', a, x) {
      SameReach(g, order, g', a, x);
      var p :| Path(g, p) && p[0] == a && p[|p| - 1] == x;
      PathEndIsKnown(g, order, p);
    }
  }

  /** In the second run `LEFT` comes first, so `RIGHT` opens another fork; of the same blocks one is then ill. */
  method RejectedAgain() returns (rec: Receiver)
    ensures rec.Valid() && rec.t.lk == L_ALL && B2 in rec.t.st && rec.t.st[B2] == Ill
  {
    hide TableInv, BookInv, ForkIdsOk, EventsOk, Heeded, Vouched, Refused, Ran, Within;
    rec := new Receiver(3, 2, 1, 0, AnySig);
    StartRan();
    ghost var none: map<Id, Link> := map[];
    TakeSure(rec, S1, Root, [], none);
    assert none[S1 := Link(Root, [])] == L_S1;
    TakeSure(rec, LEFT, S1, [], L_S1);
    ghost var t, q, g := rec.t, rec.q, rec.g;
    TakeSure(rec, B1, Root, [S1], L_LEFT);
    ghost var g1 := rec.g;
    TakeSure(rec, RIGHT, S1, [], L_LEFT[B1 := Link(Root, [S1])]);
    GrownTwice(g, g1, rec.g);
    RefusedNow(t, q, g, rec.t, rec.q, rec.g, rec.events, rec.s);
    Take(rec, B2, B1, [RIGHT], L_BOTH);
  }

  lemma GrownTwice(g: Dag, g1: Dag, g2: Dag)
    requires Within(g, g1) && Within(g1, g2)
    ensures Within(g, g2)
  {
  }

  lemma RefusedNow(t: Table, q: seq<Id>, g: Dag, t': Table, q': seq<Id>, g': Dag, ev': seq<Event>, s': Book)
    requires TableInv(3, t, q, g, {}) && Ran(t, L_LEFT) && Within(g, g')
    requires TableInv(3, t', q', g', {}) && Ran(t', L_BOTH) && EventsOk(3, ev', g', s'.blamed)
    requires BookInv(3, t'.st, s', {}, {})
    ensures Refused(g', s'.blamed, B1, RIGHT)
  {
    hide TableInv, EventsOk, BookInv, Reaches;
    OnlyOneFollows(3, t, q, g, L_LEFT, S1, LEFT);
    GraphOf(3, t', q', g');
    OneForkEach(3, ev', g', s'.blamed, LEFT, RIGHT);
    assert S1 in Links(g'[B1]);
    ReachesSelf(g', S1);
    ReachesVia(g', B1, S1, S1);
    TwoNamesBlame(3, t'.st, s', LEFT, RIGHT);
    assert SameSource(S1, RIGHT);
  }

  lemma TwoNamesBlame(cnt: nat, st: map<Id, BlockState>, s: Book, x: Id, y: Id)
    requires BookInv(cnt, st, s, {}, {}) && x in st && y in st && SameSource(x, y) && x.height == y.height && x != y
    requires x.src < cnt
    ensures x.src in s.blamed
  {
    hide SourcesOk, ReceivedOk, DeliveredOk;
    if x.src !in s.blamed {
      OwnHeight(cnt, st, x, s.blamed, s.ids, s.at, s.dh, s.rh);
      OwnHeight(cnt, st, y, s.blamed, s.ids, s.at, s.dh, s.rh);
    }
  }

  // ---------------------------------------------------------------- a stale dependency

  // As in `CatchainTopTheorems.TopCanBeStale`, with local source 0: source 2 links to a block of source 3, whose past
  // holds source 1's last block, and source 3 is blamed for a fork. Both last blocks are then kept as top blocks.
  const A := Blk(1, 1, 0)
  const B := Blk(3, 1, 0)
  const FORK := Blk(3, 1, 1)
  const X := Blk(2, 1, 0)
  const O1 := Blk(0, 1, 0)
  const O2 := Blk(0, 2, 0)

  const L_A: map<Id, Link> := map[A := Link(Root, [])]
  const L_FORK: map<Id, Link> := L_A[B := Link(Root, [A])][FORK := Link(Root, [])]
  const L_STALE: map<Id, Link> := L_FORK[X := Link(Root, [B])][O1 := Link(Root, [X])]

  method StaleStart() returns (rec: Receiver)
    ensures rec.cnt == 4 && rec.local == 0 && rec.maxDeps == 1 && rec.incarnation == 0 && rec.checkSignature == AnySig
    ensures fresh(rec) && rec.Valid() && rec.q == [] && Ran(rec.t, L_FORK)
  {
    hide TableInv, BookInv, ForkIdsOk, EventsOk, Heeded, Vouched, Ran, Within;
    rec := new Receiver(4, 0, 1, 0, AnySig);
    StartRan();
    ghost var none: map<Id, Link> := map[];
    TakeSure(rec, A, Root, [], none);
    assert none[A := Link(Root, [])] == L_A;
    TakeSure(rec, B, Root, [A], L_A);
    TakeSure(rec, FORK, Root, [], L_A[B := Link(Root, [A])]);
  }

  /** If one own block depends on source 2's block and the next on source 1's, the second fails its check. */
  method StaleRequest() returns (rec: Receiver)
    ensures rec.Valid() && rec.t.lk == L_STALE[O2 := Link(O1, [A])] && O2 in rec.t.st && rec.t.st[O2] == Ill
  {
    hide TableInv, BookInv, ForkIdsOk, EventsOk, Heeded, Vouched, Refused, Ran, Within;
    rec := StaleStart();
    TakeSure(rec, X, Root, [B], L_FORK);
    TakeSure(rec, O1, Root, [X], L_FORK[X := Link(Root, [B])]);
    StaleReached(rec.t, rec.q, rec.g, rec.s.blamed);
    Take(rec, O2, O1, [A], L_STALE);
  }

  lemma StaleReached(t: Table, q: seq<Id>, g: Dag, blamed: set<nat>)
    requires TableInv(4, t, q, g, {}) && Ran(t, L_STALE)
    ensures Refused(g, blamed, O1, A)
  {
    hide TableInv, Reaches;
    GraphOf(4, t, q, g);
    assert X in Links(g[O1]) && B in Links(g[X]) && A in Links(g[B]);
    ReachesSelf(g, A);
    ReachesVia(g, B, A, A);
    ReachesVia(g, X, B, A);
    ReachesVia(g, O1, X, A);
  }

  // ---------------------------------------------------------------- two own blocks

  // Local source 2 shows a block that depends on source 0's first block, tells of source 0's fork in its second, and
  // then depends on source 1, which depends on the other block of the fork.
  const S := Blk(0, 1, 1)
  const S_ALSO := Blk(0, 1, 2)
  const C := Blk(1, 1, 3)
  const P1 := Blk(2, 1, 4)
  const P2 := Blk(2, 2, 5)
  const P3 := Blk(2, 3, 6)

  const PROOF := ForkProof(Ref(3, S_ALSO), Ref(3, S))
  const L_TWO: map<Id, Link> :=
    map[S := Link(Root, []), S_ALSO := Link(Root, []), C := Link(Root, [S_ALSO]), P1 := Link(Root, [S]),
        P2 := Link(P1, []), P3 := Link(P2, [C])]
  const ORD := [S, S_ALSO, C, P1, P2, P3]
  const CHAIN := [Own(P1, Link(Root, [S])), Own(P2, Link(P1, [])), Own(P3, Link(P2, [C]))]

  function PayloadOf(x: Id): Payload {
    if x == P2 then PROOF else Other
  }

  function Stored(x: Id): Msg
    requires x in L_TWO && x.Blk?
  {
    Block(3, x, L_TWO[x].prev, L_TWO[x].deps, PayloadOf(x))
  }

  const LOG := [Put(Stored(S)), Put(Stored(S_ALSO)), Put(Stored(C)), Put(Stored(P1)), Put(Stored(P2)), Put(Stored(P3)),
                Point(P3)]

  lemma StoredIs(x: Id)
    requires x in L_TWO
    ensures x.Blk? && MsgId(Stored(x)) == x && MsgLink(Stored(x)) == L_TWO[x] && NoRootDeps(Stored(x))
    ensures ValidMsg(3, 1, 0, map[], AnySig, Stored(x)) && Stored(x).payload == PayloadOf(x)
  {
    hide Block;
    BlockIs(3, x, L_TWO[x].prev, L_TWO[x].deps, PayloadOf(x), map[]);
  }

  /** `d` holds the blocks `ks` as they were sent. */
  ghost predicate Holds(d: map<Id, Msg>, ks: set<Id>) {
    d.Keys == ks && ks <= L_TWO.Keys && forall x | x in d :: x.Blk? && d[x] == Stored(x)
  }

  lemma HoldsMore(log: seq<Write>, ks: set<Id>, x: Id)
    requires Holds(Disk(log), ks) && x in L_TWO && x.Blk?
    ensures Holds(Disk(log + [Put(Stored(x))]), ks + {x})
  {
    hide Disk, Stored;
    StoredIs(x);
    Appended(log, Put(Stored(x)));
  }

  lemma DiskIs()
    ensures Holds(Disk(LOG), L_TWO.Keys) && Pointer(LOG) == P3
  {
    hide Holds, Stored;
    var none: seq<Write> := [];
    assert Holds(Disk(none), {}) by { NothingHeld(); }
    HoldsMore(none, {}, S);
    var l1 := none + [Put(Stored(S))];
    HoldsMore(l1, {} + {S}, S_ALSO);
    var l2 := l1 + [Put(Stored(S_ALSO))];
    HoldsMore(l2, {} + {S} + {S_ALSO}, C);
    var l3 := l2 + [Put(Stored(C))];
    HoldsMore(l3, {} + {S} + {S_ALSO} + {C}, P1);
    var l4 := l3 + [Put(Stored(P1))];
    HoldsMore(l4, {} + {S} + {S_ALSO} + {C} + {P1}, P2);
    var l5 := l4 + [Put(Stored(P2))];
    HoldsMore(l5, {} + {S} + {S_ALSO} + {C} + {P1} + {P2}, P3);
    var l6 := l5 + [Put(Stored(P3))];
    Appended(l6, Point(P3));
    assert LOG == l6 + [Point(P3)];
    assert {} + {S} + {S_ALSO} + {C} + {P1} + {P2} + {P3} == L_TWO.Keys;
  }

  lemma NothingHeld()
    ensures Holds(Disk([]), {})
  {
  }

  lemma HeldLinks(d: map<Id, Msg>)
    requires Holds(d, L_TWO.Keys)
    ensures LinksOf(d) == L_TWO && Filed(d)
  {
    hide Stored, NoRootDeps, MsgLink;
    forall x | x in d ensures MsgId(d[x]) == x && MsgLink(d[x]) == L_TWO[x] && NoRootDeps(d[x]) {
      StoredIs(x);
    }
    assert forall x | x in L_TWO :: LinksOf(d)[x] == L_TWO[x];
  }

  lemma InOrder()
    ensures Ordered(L_TWO, ORD)
  {
    forall i, l | 0 <= i < |ORD| && IsLink(L_TWO[ORD[i]], l) && l != Root ensures l in ORD[..i] {
      assert ORD[0] == S && ORD[1] == S_ALSO && ORD[2] == C && ORD[3] == P1 && ORD[4] == P2;
      if i == 2 {
        assert ORD[..2][1] == S_ALSO;
      } else if i == 3 {
        assert ORD[..3][0] == S;
      } else if i == 4 {
        assert ORD[..4][3] == P1;
      } else if i == 5 {
        assert ORD[..5][4] == P2 && ORD[..5][2] == C;
      }
    }
  }

  lemma ChainIsOk()
    ensures ChainOk(2, CHAIN) && Tip(CHAIN) == P3 && ChainStored(L_TWO, CHAIN)
  {
    assert CHAIN[..0] == [] && CHAIN[..1] == [CHAIN[0]] && CHAIN[..2] == [CHAIN[0], CHAIN[1]];
  }

  lemma LinksAreHonest(x: Id)
    requires x in L_TWO
    ensures Honest(2, CHAIN, L_TWO[x])
  {
    assert InChain(CHAIN, P1) by { assert CHAIN[0].id == P1; }
    assert InChain(CHAIN, P2) by { assert CHAIN[1].id == P2; }
  }

  lemma StoreIsOk(d: map<Id, Msg>)
    requires Holds(d, L_TWO.Keys)
    ensures StoreOk(2, d, P3, CHAIN)
  {
    hide Holds, Honest, ChainStored, Ordered, Stored, LinksOf, Filed;
    HeldLinks(d);
    InOrder();
    ChainIsOk();
    forall x | x in L_TWO ensures Honest(2, CHAIN, L_TWO[x]) {
      LinksAreHonest(x);
    }
    assert Ordered(L_TWO, ORD) && P3 in ORD by { assert ORD[5] == P3; }
    forall x | x in d ensures HonestProof(2, CHAIN, d[x].payload) {
      PayloadIs(d, x);
    }
  }

  lemma PayloadIs(d: map<Id, Msg>, x: Id)
    requires Holds(d, L_TWO.Keys) && x in d
    ensures d[x].payload == PayloadOf(x) && ValidAlone(3, 1, 0, AnySig, d[x])
    ensures HonestProof(2, CHAIN, d[x].payload)
  {
    hide Stored, ValidMsg;
    StoredIs(x);
  }

  /** What the last block needs is among the stored blocks. */
  lemma NeededIs(x: Id)
    ensures Needed(L_TWO, P3, x) ==> x in L_TWO
  {
    hide Ordered, Linked;
    InOrder();
    assert P3 in ORD by { assert ORD[5] == P3; }
    if Needed(L_TWO, P3, x) {
      NeededListed(L_TWO, ORD, P3, x);
    }
  }

  lemma TwoIsFresh()
    ensures FreshBelow(L_TWO, P3) && Steady(L_TWO, P3)
  {
    hide Linked, ForkBelow;
    forall x, e | x in L_TWO && e in L_TWO[x].deps ensures !Linked(L_TWO, L_TWO[x].prev, e) {
      if Linked(L_TWO, L_TWO[x].prev, e) {
        var has := if x == P3 then {P2, P1, S} else {Root};
        NeededHeld(L_TWO, has, L_TWO[x].prev, e);
      }
    }
    forall x, e | x in L_TWO && e in L_TWO[x].deps && L_TWO[x].prev != Root
      ensures e.Blk? && !ForkBelow(L_TWO, P3, e.src) {
      OneOfSource1();
    }
    forall x | Needed(L_TWO, P3, x) ensures x in L_TWO {
      NeededIs(x);
    }
  }

  lemma OneOfSource1()
    ensures !ForkBelow(L_TWO, P3, 1)
  {
    hide Needed;
    forall x | Needed(L_TWO, P3, x) && x.Blk? && x.src == 1 ensures x == C {
      NeededIs(x);
    }
  }

  lemma TwoIsForked()
    ensures !Unforked(L_TWO, P3)
  {
    hide Linked, IsLink;
    assert IsLink(L_TWO[P3], C) && IsLink(L_TWO[C], S_ALSO) && IsLink(L_TWO[P3], P2) && IsLink(L_TWO[P2], P1)
        && IsLink(L_TWO[P1], S) by { LinksOfTwo(); }
    LinkedSelf(L_TWO, P3);
    LinkedMore(L_TWO, P3, P3, C);
    LinkedMore(L_TWO, P3, C, S_ALSO);
    LinkedMore(L_TWO, P3, P3, P2);
    LinkedMore(L_TWO, P3, P2, P1);
    LinkedMore(L_TWO, P3, P1, S);
    assert SameSource(S, S_ALSO);
  }

  lemma LinksOfTwo()
    ensures IsLink(L_TWO[P3], C) && IsLink(L_TWO[C], S_ALSO) && IsLink(L_TWO[P3], P2) && IsLink(L_TWO[P2], P1)
    ensures IsLink(L_TWO[P1], S)
  {
  }

  /** A restart from this store succeeds, and begins an own block on the root. */
  method RestartSplit() returns (sender: Sender)
    ensures fresh(sender) && fresh(sender.rec) && sender.Split() && sender.chain == CHAIN && sender.cnt == 3
    ensures sender.local == 2 && sender.maxDeps == 1 && sender.incarnation == 0 && sender.checkSignature == AnySig
    ensures forall f :: sender.proofHash(f) == 7
  {
    hide ChainOk, LogOk, Disk, LinksOf, Pointer, Unforked, Steady, FreshBelow, AllAlone, Holds, TableInv, BookInv,
         ForkIdsOk, EventsOk, MemOk, Recovered, Requested;
    DiskIs();
    HeldLinks(Disk(LOG));
    StoreIsOk(Disk(LOG));
    LogNowIs(2, LOG, CHAIN);
    ChainIsOk();
    sender := new Sender.Stored(3, 2, 1, 0, AnySig, f => 7, LOG, CHAIN);
    TwoIsFresh();
    TwoIsForked();
    TwoIsAlone(Disk(LOG));
    var split := sender.Recover();
    SameChain(Disk(LOG));
  }

  /**
    After it two own blocks of height 1 have been shown: the one shown before, and one that tells of the fork found
    by the reads.
   */
  method TwoOwnBlocks() returns (sender: Sender)
    ensures sender.chain == CHAIN && TwoOwn(2, sender.rec.g, sender.rec.s.blamed, P1, sender.last)
  {
    hide ChainOk, Disk, LinksOf, Pointer, TableInv, BookInv, ForkIdsOk, EventsOk, MemOk, TwoOwn, Requested, Block,
         ValidMsg, MsgLink;
    sender := RestartSplit();
    var f := sender.rec.s.prepared[0];
    NamesOfFork(3, sender.rec.t, sender.rec.q, sender.rec.g, sender.rec.s, f);
    var m := Block(3, Blk(2, 1, 7), Root, [], ForkProof(Ref(3, f.left), Ref(3, f.right)));
    BlockIs(3, Blk(2, 1, 7), Root, [], ForkProof(Ref(3, f.left), Ref(3, f.right)), sender.rec.t.st);
    sender.ShowSecond(m);
  }

  lemma TwoIsAlone(d: map<Id, Msg>)
    requires Holds(d, L_TWO.Keys)
    ensures AllAlone(3, 1, 0, AnySig, d, P3)
  {
    hide Holds, Needed, ValidAlone;
    forall x | x in d ensures ValidAlone(3, 1, 0, AnySig, d[x]) {
      PayloadIs(d, x);
    }
  }

  lemma SameChain(d: map<Id, Msg>)
    ensures Recovered(LinksOf(d), P3, CHAIN) == CHAIN
  {
    hide LinksOf;
    ChainIsOk();
  }

  lemma NamesOfFork(cnt: nat, t: Table, q: seq<Id>, g: Dag, s: Book, f: Fork)
    requires TableInv(cnt, t, q, g, {}) && BookInv(cnt, t.st, s, {}, {}) && f in s.prepared
    ensures DepId(Ref(cnt, f.left)) == f.left && DepId(Ref(cnt, f.right)) == f.right
  {
    hide HealthOk, RevOk, PendingOk, QueueOk, ClocksOk, NextOk, NextFrom, RunOk, GraphOk, LinkOk;
    hide SourcesOk, ReceivedOk, DeliveredOk;
    assert ForkNamed(t.st, f);
  }
}
