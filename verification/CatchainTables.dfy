/**
  The receiver's tables as records, and one lemma for each operation: what the operation does to
  the records keeps the invariant.
 */
module CatchainTables {
  import opened CatchainDag
  import opened CatchainState

  /** A reference to a block as it appears in a message, before validation; `sig == 0` is an empty signature. */
  datatype Dep = Dep(src: int, height: int, data: nat, sig: nat)

  datatype Payload = Empty | Other | ForkProof(left: Dep, right: Dep)

  /** The fields of all block objects, one map a field. */
  datatype Table = Table(
    st: map<Id, BlockState>,
    lk: map<Id, Link>,
    payload: map<Id, Payload>,
    clk: map<Id, Clock>,
    fork: map<Id, nat>,
    next: map<Id, Id>,
    rev: map<Id, seq<Id>>,
    pend: map<Id, nat>,
    db: set<Id>)

  /** The fields of all source objects. */
  datatype Book = Book(
    blamed: set<nat>,
    forkFound: set<nat>,
    ids: seq<seq<nat>>,
    at: seq<map<int, Id>>,
    dh: seq<nat>,
    rh: seq<nat>,
    prepared: seq<Fork>)

  /** Two names of one source at one height. An own block that tells of it is prepared as soon as it is found. */
  datatype Fork = Fork(left: Id, right: Id)

  /** The invariant of the blocks; `run` may hold the block whose delivery is in progress. */
  ghost predicate TableInv(cnt: nat, t: Table, q: seq<Id>, g: Dag, run: set<Id>) {
    && TablesOk(cnt, t.st, t.lk) && HealthOk(t.st, t.lk, {}) && RevOk(t.st, t.lk, t.rev)
    && PendingOk(t.st, t.lk, t.pend) && t.pend.Keys == t.st.Keys && QueueOk(t.st, t.pend, t.db, q, run)
    && ClocksOk(t.st, t.lk, t.clk, t.fork, g) && GraphOk(t.st, t.lk, t.clk, t.fork, g)
    && NextOk(g, t.next) && NextFrom(t.lk, t.fork, t.next) && RunOk(t.st, t.lk, t.fork, run) &&
       t.payload.Keys == t.lk.Keys
  }

  /** The invariant of the sources; the heights of those in `open` have yet to catch up. */
  ghost predicate BookInv(cnt: nat, st: map<Id, BlockState>, s: Book, openR: set<nat>, openD: set<nat>) {
    && SourcesOk(cnt, st, s.blamed, s.ids, s.at, s.dh, s.rh) && s.forkFound <= s.blamed
    && ReceivedOk(cnt, st, s.blamed, s.at, s.rh, openR) && DeliveredOk(cnt, st, s.blamed, s.at, s.dh, openD)
    && ForksNamed(st, s.prepared)
  }

  /** The forks found are pairs of known names of one source at one height. */
  ghost predicate ForksNamed(st: map<Id, BlockState>, forks: seq<Fork>) {
    forall f | f in forks :: ForkNamed(st, f)
  }

  ghost predicate ForkNamed(st: map<Id, BlockState>, f: Fork) {
    && f.left in st && f.right in st && f.left != f.right
    && SameSource(f.left, f.right) && f.left.height == f.right.height
  }

  // ---------------------------------------------------------------- a new name

  function Named(t: Table, x: Id): Table {
    t.(st := t.st[x := None], rev := t.rev[x := []], pend := t.pend[x := 0], clk := t.clk[x := []])
  }

  lemma NamedKeeps(cnt: nat, t: Table, q: seq<Id>, g: Dag, x: Id)
    requires TableInv(cnt, t, q, g, {}) && x !in t.st && x.Blk? && x.src < cnt && x.height > 0
    ensures TableInv(cnt, Named(t, x), q, g, {})
  {
    hide TablesOk, HealthOk, RevOk, PendingOk, QueueOk, ClocksOk, GraphOk, NextOk, NextFrom, RunOk;
    AddedNameKeepsTables(cnt, t.st, t.lk, x);
    AddedNameKeepsRev(cnt, t.st, t.lk, t.rev, x);
    AddedNameKeepsPending(cnt, t.st, t.lk, x, t.pend, t.db, q, {});
    AddedNameKeepsGraph(cnt, t.st, t.lk, x, t.clk, t.fork, g);
    AddedNameKeepsRun(t.st, t.lk, t.fork, x, {});
  }

  /** The sources once `src` is blamed: the first blame clears its table. */
  function Accused(s: Book, src: nat): Book
    requires src < |s.at|
  {
    if src in s.blamed then s else s.(blamed := s.blamed + {src}, at := s.at[src := map[]])
  }

  lemma AccusedClears(s: Book, src: nat)
    requires src < |s.at|
    ensures Cleared(s.at, Accused(s, src).at, s.blamed, Accused(s, src).blamed)
    ensures Accused(s, src).blamed == s.blamed + {src} && SameElsewhere(s, Accused(s, src), src)
    ensures Accused(s, src) == s.(blamed := s.blamed + {src}, at := Accused(s, src).at)
  {
  }

  /** The sources once the new name `x` is entered: two names of one source at one height are a fork. */
  function Noted(s: Book, x: Id): Book
    requires x.Blk? && x.src < |s.at|
  {
    if x.src in s.forkFound then s
    else if x.height in s.at[x.src] then
      Accused(s.(forkFound := s.forkFound + {x.src}, prepared := s.prepared + [Fork(x, s.at[x.src][x.height])]), x.src)
    else s.(at := s.at[x.src := s.at[x.src][x.height := x]])
  }

  lemma NotedElsewhere(s: Book, x: Id)
    requires x.Blk? && x.src < |s.at|
    ensures SameElsewhere(s, Noted(s, x), x.src) && Noted(s, x).ids == s.ids && s.prepared <= Noted(s, x).prepared
    ensures s.forkFound <= Noted(s, x).forkFound
  {
  }

  lemma NamedInBook(cnt: nat, st: map<Id, BlockState>, s: Book, x: Id)
    requires BookInv(cnt, st, s, {}, {}) && x !in st && x.Blk? && x.src < cnt
    ensures |s.at| == cnt
    ensures x.height !in s.at[x.src] ==>
              BookInv(cnt, st[x := None], s.(at := s.at[x.src := s.at[x.src][x.height := x]]), {}, {})
    ensures x.height in s.at[x.src] ==> s.at[x.src][x.height] != x
    ensures x.height in s.at[x.src] ==> ForkNamed(st[x := None], Fork(x, s.at[x.src][x.height]))
    ensures x.src in s.blamed ==> BookInv(cnt, st[x := None], s, {}, {})
  {
    hide SourceOk, ReceivedOk, DeliveredOk;
    if x.height !in s.at[x.src] {
      AddedNameKeepsSources(cnt, st, x, s.blamed, s.ids, s.at, s.dh, s.rh);
      AddedNameKeepsHeights(cnt, st, x, s.blamed, s.ids, s.at, s.dh, s.rh);
    }
    if x.src in s.blamed {
      AddedNameOfBlamed(cnt, st, x, s.blamed, s.ids, s.at, s.dh, s.rh);
    }
  }

  /** What blaming leads to: the tables of the blamed sources are cleared, their blocks may have changed. */
  lemma BlamedKeepsBook(cnt: nat, st: map<Id, BlockState>, st': map<Id, BlockState>, s: Book, s': Book)
    requires BookInv(cnt, st, s, {}, {}) && SparesUnblamed(st, st', s'.blamed)
    requires Cleared(s.at, s'.at, s.blamed, s'.blamed)
    requires s' == s.(at := s'.at, blamed := s'.blamed, forkFound := s'.forkFound)
    requires s'.forkFound <= s'.blamed && st.Keys <= st'.Keys
    ensures BookInv(cnt, st', s', {}, {})
  {
    hide SourcesOk, ReceivedOk, DeliveredOk, SparesUnblamed, Cleared;
    SparedSources(cnt, st, st', s.blamed, s'.blamed, s.ids, s.at, s'.at, s.dh, s.rh);
    SparedHeights(cnt, st, st', s.blamed, s'.blamed, s.ids, s.at, s'.at, s.dh, s.rh);
  }

  lemma ForkFoundKeeps(cnt: nat, st: map<Id, BlockState>, s: Book, f: Fork)
    requires BookInv(cnt, st, s, {}, {}) && ForkNamed(st, f)
    ensures BookInv(cnt, st, s.(prepared := s.prepared + [f]), {}, {})
  {
    hide SourcesOk, ReceivedOk, DeliveredOk;
  }

  // ---------------------------------------------------------------- initialization

  function Entered(t: Table, x: Id, k: Link, pl: Payload, v: Clock, m: nat, r: map<Id, seq<Id>>): Table {
    t.(st := t.st[x := Initialized], lk := t.lk[x := k], payload := t.payload[x := pl],
       clk := t.clk[x := v], pend := t.pend[x := m], rev := r)
  }

  lemma EnteredKeeps(cnt: nat, t: Table, q: seq<Id>, g: Dag, x: Id, k: Link, pl: Payload, v: Clock, m: nat,
                     r: map<Id, seq<Id>>)
    requires TableInv(cnt, t, q, g, {}) && x in t.st && t.st[x] == None && LinkOk(x, k)
    requires forall l | IsLink(k, l) :: l in t.st && t.st[l] != Ill
    requires Merged(g, k, v) && m == |Waiting(t.st, k)| && Registered(t.st, t.rev, r, k, x)
    ensures TableInv(cnt, Entered(t, x, k, pl, v, m, r), if m == 0 && x in t.db then q + [x] else q, g, {})
  {
    hide Registered, Merged, Waiting, LinkOk, IsLink, LinksStored, TablesOk, HealthOk, RevOk, PendingOk, QueueOk,
         ClocksOk, GraphOk, NextOk, NextFrom, RunOk;
    KeysAgree(cnt, t.st, t.lk, t.rev, t.clk, t.fork, g, x, k);
    EnteredNext(t.lk, t.fork, t.next, x, k);
    InitializedKeepsTables(cnt, t.st, t.lk, x, k, Initialized);
    InitializedKeepsRev(t.st, t.lk, t.rev, r, x, k);
    InitializedKeepsPending(t.st, t.lk, t.pend, x, k, Initialized, m);
    InitializedKeepsGraph(t.st, t.lk, t.clk, t.fork, g, x, k, Initialized, v);
    InitializedKeepsQueue(t.st, t.pend, t.db, q, x, m);
    InitializedKeepsRun(t.st, t.lk, t.fork, x, k);
  }

  lemma EnteredInBook(cnt: nat, st: map<Id, BlockState>, s: Book, x: Id)
    requires BookInv(cnt, st, s, {}, {}) && x in st && st[x] == None && x.Blk? && x.src < cnt
    ensures BookInv(cnt, st[x := Initialized], s, {x.src}, {}) && |s.at| == cnt
    ensures x.src !in s.blamed ==> x.height in s.at[x.src] && s.at[x.src][x.height] == x
  {
    hide SourceOk, ReceivedOk, DeliveredOk;
    AdvancedKeepsSources(cnt, st, x, Initialized, s.blamed, s.ids, s.at, s.dh, s.rh);
    if x.src !in s.blamed {
      OwnHeight(cnt, st, x, s.blamed, s.ids, s.at, s.dh, s.rh);
    }
  }

  /** A block with an ill link: it is stored and at once ill, and so is everything waiting for it. */
  lemma EnteredIllKeeps(cnt: nat, t: Table, t': Table, q: seq<Id>, g: Dag, x: Id, k: Link, pl: Payload)
    requires TableInv(cnt, t, q, g, {}) && x in t.st && t.st[x] == None && LinkOk(x, k)
    requires forall l | IsLink(k, l) :: l in t.st
    requires t' == t.(st := t'.st, lk := t.lk[x := k], payload := t.payload[x := pl])
    requires Sickened(t.st[x := Ill], t'.st) && Spread(t.st[x := Ill], t'.st, t.rev, {})
    requires x in t.rev && forall b | b in t.rev[x] :: b in t'.st && t'.st[b] == Ill
    ensures TableInv(cnt, t', q, g, {})
  {
    hide Spread, Sickened, LinkOk, IsLink, LinksStored, TablesOk, HealthOk, RevOk, PendingOk, QueueOk, ClocksOk,
         GraphOk, NextOk, NextFrom, RunOk;
    var sI, lk' := t.st[x := Ill], t.lk[x := k];
    KeysAgree(cnt, t.st, t.lk, t.rev, t.clk, t.fork, g, x, k);
    InitializedKeepsTables(cnt, t.st, t.lk, x, k, Ill);
    IllKeepsRev(t.st, t.lk, t.rev, x, k);
    assert t.pend[x := t.pend[x]] == t.pend && t.clk[x := t.clk[x]] == t.clk;
    InitializedKeepsPending(t.st, t.lk, t.pend, x, k, Ill, t.pend[x]);
    InitializedKeepsGraph(t.st, t.lk, t.clk, t.fork, g, x, k, Ill, t.clk[x]);
    IllAtOnceKeepsRest(t.st, t.lk, t.fork, t.pend, t.db, q, x, k);
    IllKeepsAll(cnt, t.(st := sI, lk := lk'), t'.st, q, g, {x}, {});
    EnteredNext(t.lk, t.fork, t.next, x, k);
  }

  lemma EnteredNext(lk: map<Id, Link>, fork: map<Id, nat>, next: map<Id, Id>, x: Id, k: Link)
    requires NextFrom(lk, fork, next) && x !in lk
    ensures NextFrom(lk[x := k], fork, next)
  {
  }

  /** The invariant survives illness that has spread along the reverse links. */
  lemma IllKeepsAll(cnt: nat, t: Table, st': map<Id, BlockState>, q: seq<Id>, g: Dag, open: set<Id>, run: set<Id>)
    requires TablesOk(cnt, t.st, t.lk) && HealthOk(t.st, t.lk, open) && RevOk(t.st, t.lk, t.rev)
    requires PendingOk(t.st, t.lk, t.pend) && QueueOk(t.st, t.pend, t.db, q, run)
    requires ClocksOk(t.st, t.lk, t.clk, t.fork, g) && GraphOk(t.st, t.lk, t.clk, t.fork, g)
    requires RunOk(t.st, t.lk, t.fork, run)
    requires Sickened(t.st, st') && Spread(t.st, st', t.rev, {})
    requires forall y, b | y in open && y in t.rev && b in t.rev[y] :: b in st' && st'[b] == Ill
    ensures TablesOk(cnt, st', t.lk) && HealthOk(st', t.lk, {}) && RevOk(st', t.lk, t.rev)
    ensures PendingOk(st', t.lk, t.pend) && QueueOk(st', t.pend, t.db, q, run) && st'.Keys == t.st.Keys
    ensures ClocksOk(st', t.lk, t.clk, t.fork, g) && GraphOk(st', t.lk, t.clk, t.fork, g)
    ensures RunOk(st', t.lk, t.fork, run)
    ensures forall x | x in st' && st'[x] == Ill ::
              RunOk(st', t.lk, t.fork, run - {x}) && QueueOk(st', t.pend, t.db, q, run - {x})
  {
    hide Spread, Sickened, TablesOk, HealthOk, PendingOk, QueueOk, ClocksOk, GraphOk, RunOk, RevSound, RevComplete;
    assert LinksStored(t.st, t.lk) by { TablesStored(cnt, t.st, t.lk); }
    SickenedTables(t.st, st');
    SickenedKeepsHealth(t.st, st', t.lk, t.rev, open);
    SickenedKeepsRest(cnt, t.st, st', t.lk, t.rev, t.pend, t.db, q, run);
    SickenedKeepsPending(t.st, st', t.lk, t.pend);
    SickenedKeepsGraph(t.st, st', t.lk, t.clk, t.fork, g);
    SickenedKeepsRun(t.st, st', t.lk, t.fork, run);
    IllNeedsNoQueue(st', t.pend, t.db, q, run);
  }

  lemma FellKeeps(cnt: nat, t: Table, st': map<Id, BlockState>, q: seq<Id>, g: Dag, x: Id)
    requires TableInv(cnt, t, q, g, {x}) && Sickened(t.st, st') && Spread(t.st, st', t.rev, {})
    requires x in st' && st'[x] == Ill
    ensures TableInv(cnt, t.(st := st'), q, g, {})
  {
    hide Spread, Sickened, TablesOk, HealthOk, RevOk, PendingOk, QueueOk, ClocksOk, GraphOk, NextOk, NextFrom, RunOk;
    IllKeepsAll(cnt, t, st', q, g, {}, {x});
    assert {x} - {x} == {};
  }

  // ---------------------------------------------------------------- fork ids

  /** The fork id of a new block is fresh, or continues the fork of `prev`, which nothing continues yet. */
  ghost predicate ForkChoice(g: Dag, next: map<Id, Id>, prev: Id, f: nat) {
    && f > 0
    && ((forall y | y in g :: g[y].fork != f) || (prev in g && g[prev].fork == f && prev !in next))
  }

  lemma ForkSlotFree(g: Dag, order: seq<Id>, next: map<Id, Id>, x: Id, k: Link, f: nat)
    requires DagOk(g, order) && NextOk(g, next) && LinkOk(x, k) && ForkChoice(g, next, k.prev, f)
    ensures forall y | y in g && g[y].fork == f ::
              SameSource(x, y) && Height(y) < Height(x) && k.prev in g && g[k.prev].fork == f
  {
    forall y | y in g && g[y].fork == f
      ensures SameSource(x, y) && Height(y) < Height(x) && k.prev in g && g[k.prev].fork == f
    {
      assert SameSource(k.prev, y);
    }
  }

  /** The receiver's check: nothing the block depends on is as high in its own fork. */
  lemma OwnForkIsLower(g: Dag, order: seq<Id>, next: map<Id, Id>, x: Id, k: Link, v: Clock, f: nat)
    requires DagOk(g, order) && NextOk(g, next) && LinkOk(x, k) && ForkChoice(g, next, k.prev, f) && Merged(g, k, v)
    ensures At(v, f) < x.height
  {
    ForkSlotFree(g, order, next, x, k, f);
    if At(v, f) > 0 {
      var l :| IsLink(k, l) && l in g && At(g[l].vt, f) == At(v, f);
      var i :| 0 <= i < |order| && order[i] == l;
      var c := ClockHasWitness(g, order, i, f);
    }
  }

  /** `v` with its entry `f` raised to `h`. */
  function Stamped(v: Clock, f: nat, h: nat): (w: Clock)
    ensures At(w, f) == h && forall i: nat | i != f :: At(w, i) == At(v, i)
  {
    var u := if |v| < f + 1 then v + seq(f + 1 - |v|, _ => 0) else v;
    u[f := h]
  }

  lemma StampedClockOk(g: Dag, k: Link, v: Clock, f: nat, h: nat)
    requires Merged(g, k, v) && At(v, f) < h
    ensures ClockOk(g, Node(k.prev, k.deps, f, Stamped(v, f, h)))
  {
    var n := Node(k.prev, k.deps, f, Stamped(v, f, h));
    forall l ensures l in Links(n) <==> IsLink(k, l) { }
    forall i: nat | i != f && At(n.vt, i) > 0
      ensures exists l :: l in Links(n) && l in g && At(g[l].vt, i) == At(n.vt, i)
    {
      var l :| IsLink(k, l) && l in g && At(g[l].vt, i) == At(v, i);
      assert l in Links(n);
    }
  }

  lemma MayBeDelivered(g: Dag, order: seq<Id>, next: map<Id, Id>, x: Id, k: Link, v: Clock, f: nat)
    requires DagOk(g, order) && NextOk(g, next) && LinkOk(x, k) && ForkChoice(g, next, k.prev, f) && Merged(g, k, v)
    requires x !in g && forall l | IsLink(k, l) && l != Root :: l in g
    ensures CanExtend(g, x, Node(k.prev, k.deps, f, Stamped(v, f, x.height)))
  {
    hide Merged, DagOk, NextOk, ClockOk;
    OwnForkIsLower(g, order, next, x, k, v, f);
    ForkSlotFree(g, order, next, x, k, f);
    StampedClockOk(g, k, v, f, x.height);
  }

  /** The block is the first to follow its predecessor. */
  predicate ContinuesFork(t: Table, x: Id)
    requires x in t.lk
  {
    Height(x) != 1 && t.lk[x].prev !in t.next
  }

  function Forked(t: Table, x: Id, f: nat, continues: bool): Table
    requires x in t.lk && x in t.clk && x.Blk?
  {
    t.(fork := t.fork[x := f], clk := t.clk[x := Stamped(t.clk[x], f, x.height)],
       next := if continues then t.next[t.lk[x].prev := x] else t.next)
  }

  lemma ForkedKeeps(cnt: nat, t: Table, q: seq<Id>, g: Dag, x: Id, f: nat, continues: bool)
    requires TableInv(cnt, t, q, g, {x}) && x in t.lk && x in t.st && t.st[x] == Initialized
    requires x in t.clk && x.Blk? && x !in t.fork
    requires if continues then t.lk[x].prev in t.fork && f == t.fork[t.lk[x].prev]
             else Height(x) == 1 || t.lk[x].prev in t.next
    ensures TableInv(cnt, Forked(t, x, f, continues), q, g, {x})
  {
    hide TablesOk, HealthOk, RevOk, PendingOk, QueueOk, ClocksOk, GraphOk, NextOk;
    ForkedGraph(t, g, x, f, Stamped(t.clk[x], f, x.height));
    ForkedNext(g, t.next, t.lk[x].prev, x);
  }

  lemma ForkedGraph(t: Table, g: Dag, x: Id, f: nat, v: Clock)
    requires ClocksOk(t.st, t.lk, t.clk, t.fork, g) && GraphOk(t.st, t.lk, t.clk, t.fork, g)
    requires x in t.st && t.st[x] == Initialized && x.Blk? && x !in t.fork
    ensures ClocksOk(t.st, t.lk, t.clk[x := v], t.fork[x := f], g)
    ensures GraphOk(t.st, t.lk, t.clk[x := v], t.fork[x := f], g)
  {
    hide Merged;
    assert x !in g;
    forall y | y in t.lk && y in t.st && t.st[y] == Initialized && y !in t.fork[x := f]
      ensures Merged(g, t.lk[y], t.clk[x := v][y]) {
      assert Merged(g, t.lk[y], t.clk[y]);
    }
  }

  lemma ForkedNext(g: Dag, next: map<Id, Id>, p: Id, x: Id)
    requires NextOk(g, next)
    ensures NextOk(g, next[p := x])
  {
  }

  /** No other block of its source and height is known. */
  ghost predicate AloneAtHeight(st: map<Id, BlockState>, x: Id) {
    forall y | y in st && SameSource(x, y) && x.height == y.height :: y == x
  }

  lemma Siblings(cnt: nat, st: map<Id, BlockState>, lk: map<Id, Link>, x: Id, y: Id)
    requires TablesOk(cnt, st, lk) && x in lk && y in lk && lk[x].prev == lk[y].prev
    ensures x.Blk? && y.Blk? && x.height == y.height && (lk[x].prev != Root ==> SameSource(x, y))
    ensures lk[x].prev == Root <==> x.height == 1
  {
    assert LinkOk(x, lk[x]) && LinkOk(y, lk[y]) && IsLink(lk[x], lk[x].prev);
  }

  /** The only block of its height continues the fork of its source, or opens the first one. */
  lemma OpensFirst(cnt: nat, total: nat, t: Table, ids: seq<seq<nat>>, x: Id, run: set<Id>)
    requires TablesOk(cnt, t.st, t.lk) && RunOk(t.st, t.lk, t.fork, run)
    requires NextFrom(t.lk, t.fork, t.next) && ForkIdsOk(cnt, total, ids, t.fork)
    requires x in t.lk && x !in t.fork && x.Blk? && x.src < cnt && AloneAtHeight(t.st, x)
    ensures !ContinuesFork(t, x) ==> x.height == 1 && ids[x.src] == []
  {
    hide TablesOk, HasFirst, SameSource;
    if !ContinuesFork(t, x) {
      if Height(x) != 1 {
        Siblings(cnt, t.st, t.lk, x, t.next[t.lk[x].prev]);
      } else if ids[x.src] != [] {
        var y := FirstOf(t.fork, x.src);
        SameSources(x, y);
      }
    }
  }

  lemma SameSources(x: Id, y: Id)
    ensures x.Blk? && y.Blk? && x.src == y.src ==> SameSource(x, y)
  {
  }

  /** So a source that is not blamed gets its one fork id with its first block. */
  lemma UnblamedOpensFirst(cnt: nat, total: nat, t: Table, q: seq<Id>, g: Dag, s: Book, x: Id)
    requires TableInv(cnt, t, q, g, {x}) && BookInv(cnt, t.st, s, {}, {}) && ForkIdsOk(cnt, total, s.ids, t.fork)
    requires x in t.lk && x in t.st && x !in t.fork && x.Blk? && x.src < cnt && x.src !in s.blamed
    ensures !ContinuesFork(t, x) ==> x.height == 1 && s.ids[x.src] == []
  {
    hide HealthOk, RevOk, PendingOk, QueueOk, ClocksOk, GraphOk, NextOk, TablesOk, RunOk, NextFrom, ForkIdsOk,
         ReceivedOk, DeliveredOk, SourcesOk;
    forall y | y in t.st && SameSource(x, y) && x.height == y.height ensures y == x {
      OwnHeight(cnt, t.st, x, s.blamed, s.ids, s.at, s.dh, s.rh);
      OwnHeight(cnt, t.st, y, s.blamed, s.ids, s.at, s.dh, s.rh);
    }
    OpensFirst(cnt, total, t, s.ids, x, {x});
  }

  /** Handing out a fork id: a source that gets a second one has been blamed. */
  lemma AddForkKeeps(cnt: nat, total: nat, st: map<Id, BlockState>, s: Book, fork: map<Id, nat>, x: Id)
    requires BookInv(cnt, st, s, {}, {}) && ForkIdsOk(cnt, total, s.ids, fork) && x.Blk? && x.src < cnt
    requires x.src in s.blamed || |s.ids[x.src]| == 0
    requires x.height == 1 || |s.ids[x.src]| > 0
    ensures BookInv(cnt, st, s.(ids := s.ids[x.src := s.ids[x.src] + [total + 1]]), {}, {})
    ensures ForkIdsOk(cnt, total + 1, s.ids[x.src := s.ids[x.src] + [total + 1]], fork[x := total + 1])
  {
    hide ReceivedOk, DeliveredOk;
    var ids' := s.ids[x.src := s.ids[x.src] + [total + 1]];
    forall t | 0 <= t < cnt && t !in s.blamed ensures SourceOk(t, st, ids'[t], s.at[t], s.dh[t], s.rh[t]) {
      assert SourceOk(t, st, s.ids[t], s.at[t], s.dh[t], s.rh[t]);
    }
    AddForkIds(cnt, total, s.ids, fork, x);
  }

  lemma AddForkIds(cnt: nat, total: nat, ids: seq<seq<nat>>, fork: map<Id, nat>, x: Id)
    requires ForkIdsOk(cnt, total, ids, fork) && x.Blk? && x.src < cnt && (x.height == 1 || |ids[x.src]| > 0)
    ensures ForkIdsOk(cnt, total + 1, ids[x.src := ids[x.src] + [total + 1]], fork[x := total + 1])
  {
    hide HasFirst;
    var ids' := ids[x.src := ids[x.src] + [total + 1]];
    assert ids'[x.src][|ids[x.src]|] == total + 1;
    forall y | y in fork[x := total + 1] ensures fork[x := total + 1][y] in ids'[y.src] {
      if y != x { assert fork[y] in ids[y.src]; }
    }
    forall s | 0 <= s < cnt && ids'[s] != [] ensures HasFirst(fork[x := total + 1], s) {
      FirstStays(fork, x, total + 1, s);
    }
  }

  lemma ContinueForkIds(cnt: nat, total: nat, ids: seq<seq<nat>>, fork: map<Id, nat>, x: Id, p: Id)
    requires ForkIdsOk(cnt, total, ids, fork) && SameSource(x, p) && p in fork
    ensures ForkIdsOk(cnt, total, ids, fork[x := fork[p]]) && fork[p] > 0
  {
    hide HasFirst;
    var i :| 0 <= i < |ids[p.src]| && ids[p.src][i] == fork[p];
    forall s | 0 <= s < cnt && ids[s] != [] ensures HasFirst(fork[x := fork[p]], s) {
      FirstStays(fork, x, fork[p], s);
    }
  }

  /** No delivered block has a fork id that has not been handed out. */
  lemma FreshFork(cnt: nat, total: nat, ids: seq<seq<nat>>, t: Table, g: Dag)
    requires ForkIdsOk(cnt, total, ids, t.fork) && GraphOk(t.st, t.lk, t.clk, t.fork, g)
    ensures forall y | y in g :: g[y].fork != total + 1
  {
    forall y | y in g ensures g[y].fork != total + 1 {
      var i :| 0 <= i < |ids[y.src]| && ids[y.src][i] == t.fork[y];
    }
  }

  // ---------------------------------------------------------------- delivery

  function NodeOf(t: Table, x: Id): Node
    requires x in t.lk && x in t.fork && x in t.clk
  {
    Node(t.lk[x].prev, t.lk[x].deps, t.fork[x], t.clk[x])
  }

  function Done(t: Table, x: Id, clk: map<Id, Clock>, pend: map<Id, nat>): Table {
    t.(st := t.st[x := Delivered], clk := clk, pend := pend, rev := t.rev[x := []])
  }

  lemma DoneKeeps(cnt: nat, t: Table, q: seq<Id>, q': seq<Id>, g: Dag, order: seq<Id>, x: Id, clk': map<Id, Clock>,
                  pend': map<Id, nat>)
    requires TableInv(cnt, t, q, g, {x}) && DagOk(g, order) && x in t.st && x in t.lk && x in t.fork
    requires x in t.clk && x in t.rev && t.st[x] == Initialized
    requires forall l | IsLink(t.lk[x], l) :: l in t.st && t.st[l] == Delivered
    requires CanExtend(g, x, NodeOf(t, x))
    requires t.lk[x].prev in g && g[t.lk[x].prev].fork == t.fork[x] ==> t.lk[x].prev in t.next
    requires Counted(t.st, t.rev[x], t.pend, pend') && Updated(t.st, t.rev[x], t.clk, clk', t.clk[x])
    requires forall y | y in t.rev[x] && y in t.st && t.st[y] == Initialized :: y in t.pend && t.pend[y] > 0
    requires Woken(t.st, t.rev[x], pend', t.db, q, q')
    ensures TableInv(cnt, Done(t, x, clk', pend'), q', g[x := NodeOf(t, x)], {})
  {
    hide Counted, Updated, DagOk, CanExtend, TablesOk, HealthOk, RevOk, PendingOk, QueueOk, ClocksOk, GraphOk,
         NextOk, RunOk, LinkOk;
    var n := NodeOf(t, x);
    TablesStored(cnt, t.st, t.lk);
    DeliveredFacts(cnt, t.st, t.lk, t.rev, t.pend, pend', t.clk, clk', x);
    DeliveredKeepsHealth(cnt, t.st, t.lk, x);
    DeliveredKeepsRev(t.st, t.lk, t.rev, x);
    DeliveredKeepsPending(t.st, t.lk, t.rev[x], x, t.pend, pend');
    DeliveredKeepsQueue(t.st, t.lk, t.rev[x], x, t.db, q, q', t.pend, pend');
    assert x !in g by { ExtendIsNew(g, x, n); }
    DeliveredKeepsClocks(t.st, t.lk, t.rev[x], t.fork, g, x, n, t.clk, clk');
    DeliveredKeepsGraph(t.st, t.lk, t.clk, clk', t.fork, g, x);
    DagForks(g, order);
    DeliveredKeepsNext(g, t.next, x, n);
    DeliveredKeepsRun(t.st, t.lk, t.fork, x);
  }

  lemma ExtendIsNew(g: Dag, x: Id, n: Node)
    requires CanExtend(g, x, n)
    ensures x !in g
  {
  }

  lemma DagForks(g: Dag, order: seq<Id>)
    requires DagOk(g, order)
    ensures ForksOk(g)
  {
  }

  lemma DeliveredKeepsRun(st: map<Id, BlockState>, lk: map<Id, Link>, fork: map<Id, nat>, x: Id)
    requires RunOk(st, lk, fork, {x})
    ensures RunOk(st[x := Delivered], lk, fork, {})
  {
  }

  lemma DeliveredFacts(cnt: nat, st: map<Id, BlockState>, lk: map<Id, Link>, rev: map<Id, seq<Id>>,
                       pend: map<Id, nat>, pend': map<Id, nat>, clk: map<Id, Clock>, clk': map<Id, Clock>, x: Id)
    requires TablesOk(cnt, st, lk) && RevOk(st, lk, rev) && x in lk && x in st && x in clk && st[x] == Initialized
    requires Counted(st, rev[x], pend, pend') && Updated(st, rev[x], clk, clk', clk[x])
    ensures pend'.Keys == pend.Keys && clk'.Keys == clk.Keys
    ensures forall y | y in st && st[y] == Initialized && y in lk :: y in rev[x] <==> IsLink(lk[y], x)
    ensures forall y | y in clk && y in st && (st[y] == Delivered || y == x) :: clk'[y] == clk[y]
  {
    hide Counted, Updated, Merge, Distinct;
    assert !IsLink(lk[x], x) by { assert LinkOk(x, lk[x]); }
    WaitingIsLinked(st, lk, rev, x);
    UpdatedSparesDelivered(st, lk, rev, x, clk, clk', clk[x]);
    CountedKeys(st, rev[x], pend, pend', clk, clk', clk[x]);
  }

  lemma CountedKeys(st: map<Id, BlockState>, waiting: seq<Id>, pend: map<Id, nat>, pend': map<Id, nat>,
                    clk: map<Id, Clock>, clk': map<Id, Clock>, v: Clock)
    requires Counted(st, waiting, pend, pend') && Updated(st, waiting, clk, clk', v)
    ensures pend'.Keys == pend.Keys && clk'.Keys == clk.Keys
  {
  }

  lemma DoneInBook(cnt: nat, st: map<Id, BlockState>, s: Book, x: Id)
    requires BookInv(cnt, st, s, {}, {}) && x in st && st[x] == Initialized && x.Blk? && x.src < cnt
    ensures BookInv(cnt, st[x := Delivered], s, {}, {x.src}) && |s.at| == cnt
    ensures x.src !in s.blamed ==> x.height in s.at[x.src] && s.at[x.src][x.height] == x
  {
    hide SourceOk, ReceivedOk, DeliveredOk;
    AdvancedKeepsSources(cnt, st, x, Delivered, s.blamed, s.ids, s.at, s.dh, s.rh);
    if x.src !in s.blamed {
      OwnHeight(cnt, st, x, s.blamed, s.ids, s.at, s.dh, s.rh);
    }
  }

  /** The report of a delivered block is admissible: a block of an unblamed source is above all earlier ones. */
  lemma ReportAdmissible(cnt: nat, t: Table, q: seq<Id>, g: Dag, run: set<Id>, s: Book, ev: seq<Event>, x: Id, n: Node)
    requires TableInv(cnt, t, q, g, run) && BookInv(cnt, t.st, s, {}, {}) && EventsOk(cnt, ev, g, s.blamed)
    requires x in t.st && t.st[x] == Initialized && x.Blk? && x.src < cnt && CanExtend(g, x, n)
    requires forall d | d in n.deps :: !Reaches(g, n.prev, d)
    ensures EventsOk(cnt, ev + [NewBlock(x, n)], g[x := n], s.blamed)
  {
    hide CanExtend, StreamOk, RevOk, PendingOk, QueueOk, ClocksOk, NextOk, NextFrom, RunOk, TablesOk, HealthOk,
         SourcesOk,
         DeliveredOk, ReceivedOk;
    assert (ev + [NewBlock(x, n)])[..|ev|] == ev;
    forall y | y in g && SameSource(x, y) && x.src !in s.blamed ensures Height(y) < Height(x) {
      DeliveredIsPrefix(cnt, t.st, t.lk, s.blamed, s.ids, s.at, s.dh, s.rh, x);
      DeliveredIsPrefix(cnt, t.st, t.lk, s.blamed, s.ids, s.at, s.dh, s.rh, y);
    }
    assert Admissible(cnt, g, s.blamed, NewBlock(x, n));
    StreamAppend(cnt, ev, NewBlock(x, n));
    StreamGivesDag(cnt, ev);
    ExtendKeepsFresh(g, Order(ev), x, n);
  }

  lemma StreamAppend(cnt: nat, ev: seq<Event>, e: Event)
    requires StreamOk(cnt, ev) && Admissible(cnt, DagOf(ev), BlamedOf(ev), e)
    ensures StreamOk(cnt, ev + [e])
  {
    assert (ev + [e])[..|ev|] == ev;
  }

  // ---------------------------------------------------------------- facts read off the invariant

  lemma KnownRoot(cnt: nat, t: Table, q: seq<Id>, g: Dag, run: set<Id>)
    requires TableInv(cnt, t, q, g, run)
    ensures Root in t.st && t.st[Root] == Delivered
  {
  }

  lemma NamedTable(t: Table, x: Id)
    ensures Named(t, x).st == t.st[x := None] && Named(t, x).fork == t.fork && Named(t, x).lk == t.lk
    ensures Named(t, x).db == t.db
    ensures Named(t, x).next == t.next && Named(t, x).payload == t.payload
  {
  }

  lemma InitFacts(cnt: nat, t: Table, q: seq<Id>, g: Dag, x: Id, k: Link)
    requires TableInv(cnt, t, q, g, {}) && x in t.st && t.st[x] == None && LinkOk(x, k)
    ensures t.rev.Keys == t.st.Keys == t.clk.Keys && x.Blk? && x.src < cnt && x !in t.lk && !IsLink(k, x)
    ensures forall l | l in t.st && t.st[l] == Delivered :: if l in g then t.clk[l] == g[l].vt else t.clk[l] == []
    ensures forall l | l in t.st && t.st[l] != Delivered :: l !in g
  {
    hide TablesOk, HealthOk, RevOk, PendingOk, QueueOk, ClocksOk, GraphOk, NextOk, NextFrom, RunOk, LinkOk;
    KeysAgree(cnt, t.st, t.lk, t.rev, t.clk, t.fork, g, x, k);
    LinkClocks(cnt, t.st, t.lk, t.clk, t.fork, g);
  }

  lemma StoredFacts(cnt: nat, t: Table, q: seq<Id>, g: Dag, x: Id, k: Link)
    requires TableInv(cnt, t, q, g, {}) && x in t.st && t.st[x] == None && x.Blk? && x.src < cnt
    ensures RevSound(t.st[x := Initialized], t.lk[x := k], t.rev) && BlocksNamed(cnt, t.st[x := Initialized])
  {
    hide HealthOk, PendingOk, QueueOk, ClocksOk, GraphOk, NextOk, NextFrom, RunOk, LinkOk, RevShape, RevComplete;
    TablesStored(cnt, t.st, t.lk);
  }

  lemma BookLength(cnt: nat, st: map<Id, BlockState>, s: Book)
    requires BookInv(cnt, st, s, {}, {})
    ensures |s.at| == |s.ids| == cnt
  {
  }

  lemma FoundInBlamed(cnt: nat, st: map<Id, BlockState>, s: Book, s': Book)
    requires BookInv(cnt, st, s, {}, {}) && Cleared(s.at, s'.at, s.blamed, s'.blamed) && s'.forkFound == s.forkFound
    ensures s'.forkFound <= s'.blamed
  {
  }

  lemma IllAtOnceEvolves(st: map<Id, BlockState>, st': map<Id, BlockState>, x: Id)
    requires x in st && st[x] == None && Sickened(st[x := Ill], st')
    ensures Evolves(st, st')
  {
  }

  lemma WrittenKeeps(cnt: nat, t: Table, q: seq<Id>, g: Dag, x: Id)
    requires TableInv(cnt, t, q, g, {}) && x in t.st && t.st[x] != None
    ensures x in t.pend
    ensures TableInv(cnt, t.(db := t.db + {x}), if x !in t.db && t.pend[x] == 0 then q + [x] else q, g, {})
  {
    hide TablesOk, HealthOk, RevOk, PendingOk, ClocksOk, GraphOk, NextOk, NextFrom, RunOk;
  }

  lemma SparesNothing(st: map<Id, BlockState>, blamed: set<nat>)
    ensures SparesUnblamed(st, st, blamed)
  {
  }

  lemma FreshForkId(cnt: nat, total: nat, ids: seq<seq<nat>>, t: Table, q: seq<Id>, g: Dag, run: set<Id>)
    requires TableInv(cnt, t, q, g, run) && ForkIdsOk(cnt, total, ids, t.fork)
    ensures forall y | y in g :: g[y].fork != total + 1
  {
    hide ForkIdsOk, GraphOk;
    FreshFork(cnt, total, ids, t, g);
  }

  /** What is known of a block about to run. */
  lemma RunFacts(cnt: nat, t: Table, q: seq<Id>, g: Dag, x: Id)
    requires TableInv(cnt, t, q, g, {x}) && x in t.st && t.st[x] == Initialized && x in t.pend && t.pend[x] == 0
    ensures x in t.lk && x in t.clk && x in t.rev && x.Blk? && x.src < cnt && LinkOk(x, t.lk[x]) && x !in g
    ensures forall l | IsLink(t.lk[x], l) ::
              l in t.st && t.st[l] == Delivered && (l != Root ==> l in g && l in t.fork && g[l].fork == t.fork[l])
    ensures t.lk[x].prev in t.st && (x.height > 1 ==> SameSource(x, t.lk[x].prev))
    ensures x.height > 1 ==> t.lk[x].prev in g && t.lk[x].prev in t.fork && g[t.lk[x].prev].fork == t.fork[t.lk[x].prev]
  {
    hide HealthOk, QueueOk, NextOk, NextFrom, RunOk, Merged, RevSound, RevComplete;
    assert Waiting(t.st, t.lk[x]) == {};
    forall l | IsLink(t.lk[x], l)
      ensures l in t.st && t.st[l] == Delivered && (l != Root ==> l in g && l in t.fork && g[l].fork == t.fork[l])
    {
      assert l !in Waiting(t.st, t.lk[x]);
    }
    assert IsLink(t.lk[x], t.lk[x].prev);
  }

  lemma StreamGivesDagOf(cnt: nat, ev: seq<Event>, g: Dag, blamed: set<nat>)
    requires EventsOk(cnt, ev, g, blamed)
    ensures DagOk(g, Order(ev))
  {
    StreamGivesDag(cnt, ev);
  }

  lemma ChoiceMade(g: Dag, next: map<Id, Id>, prev: Id, f: nat)
    requires f > 0 && ((forall y | y in g :: g[y].fork != f) || (prev in g && g[prev].fork == f && prev !in next))
    ensures ForkChoice(g, next, prev, f)
  {
  }

  lemma CheckedOwnFork(cnt: nat, t: Table, q: seq<Id>, g: Dag, order: seq<Id>, x: Id, f: nat)
    requires TableInv(cnt, t, q, g, {x}) && DagOk(g, order) && x in t.st && t.st[x] == Initialized && x !in t.fork
    requires x in t.lk && x in t.clk && LinkOk(x, t.lk[x]) && ForkChoice(g, t.next, t.lk[x].prev, f)
    ensures At(t.clk[x], f) < x.height
  {
    hide DagOk, ForkChoice, TablesOk, HealthOk, RevOk, PendingOk, QueueOk, GraphOk, NextOk, NextFrom, RunOk, Merged;
    assert Merged(g, t.lk[x], t.clk[x]);
    OwnForkIsLower(g, order, t.next, x, t.lk[x], t.clk[x], f);
  }

  /** The block may be appended to the graph as it stands. */
  ghost predicate ReadyToDeliver(t: Table, g: Dag, x: Id)
    requires x in t.lk && x in t.fork && x in t.clk
  {
    && CanExtend(g, x, NodeOf(t, x))
    && (t.lk[x].prev in g && g[t.lk[x].prev].fork == t.fork[x] ==> t.lk[x].prev in t.next)
  }

  lemma ForkedReady(cnt: nat, t: Table, q: seq<Id>, g: Dag, order: seq<Id>, x: Id, f: nat, continues: bool)
    requires TableInv(cnt, t, q, g, {x}) && DagOk(g, order) && x in t.st && t.st[x] == Initialized
    requires x !in t.fork && x !in g
    requires x in t.lk && x in t.clk && LinkOk(x, t.lk[x]) && ForkChoice(g, t.next, t.lk[x].prev, f)
    requires continues || forall y | y in g :: g[y].fork != f
    requires forall l | IsLink(t.lk[x], l) && l != Root :: l in g
    ensures x in Forked(t, x, f, continues).fork && x in Forked(t, x, f, continues).clk
    ensures x in Forked(t, x, f, continues).lk
    ensures ReadyToDeliver(Forked(t, x, f, continues), g, x) && Forked(t, x, f, continues).fork[x] == f
    ensures Forked(t, x, f, continues).st == t.st && Forked(t, x, f, continues).fork == t.fork[x := f]
  {
    hide DagOk, ForkChoice, TablesOk, HealthOk, RevOk, PendingOk, QueueOk, GraphOk, NextOk, NextFrom, RunOk, Merged,
         CanExtend,
         Stamped;
    assert Merged(g, t.lk[x], t.clk[x]);
    MayBeDelivered(g, order, t.next, x, t.lk[x], t.clk[x], f);
  }

  lemma IllFacts(cnt: nat, t: Table, q: seq<Id>, g: Dag, run: set<Id>)
    requires TableInv(cnt, t, q, g, run)
    ensures t.rev.Keys == t.st.Keys && RevSound(t.st, t.lk, t.rev) && BlocksNamed(cnt, t.st)
  {
    hide HealthOk, PendingOk, QueueOk, ClocksOk, GraphOk, NextOk, NextFrom, RunOk, RevSound, RevComplete,
         BlocksNamed, TablesOk;
    TablesStored(cnt, t.st, t.lk);
  }

  lemma NotifyStart(st: map<Id, BlockState>, pend: map<Id, nat>, clk: map<Id, Clock>, v: Clock, db: set<Id>, q: seq<Id>)
    ensures Counted(st, [], pend, pend) && Updated(st, [], clk, clk, v) && Woken(st, [], pend, db, q, q)
  {
  }

  lemma NotifyFacts(cnt: nat, t: Table, q: seq<Id>, g: Dag, x: Id)
    requires TableInv(cnt, t, q, g, {x}) && x in t.st && t.st[x] == Initialized && x in t.rev
    ensures Distinct(t.rev[x])
    ensures forall b | b in t.rev[x] ::
              b in t.st && b in t.pend && b in t.clk && (t.st[b] == Initialized ==> t.pend[b] > 0)
  {
    hide HealthOk, QueueOk, GraphOk, NextOk, NextFrom, RunOk, RevComplete, TablesOk;
    forall b | b in t.rev[x] && t.st[b] == Initialized ensures t.pend[b] > 0 {
      assert x in Waiting(t.st, t.lk[b]);
    }
  }

  lemma DoneTable(t: Table, x: Id, clk: map<Id, Clock>, pend: map<Id, nat>)
    ensures Done(t, x, clk, pend) == t.(st := t.st[x := Delivered], clk := clk, pend := pend, rev := t.rev[x := []])
  {
  }

  // ---------------------------------------------------------------- validation and the checks before delivery

  function DepId(d: Dep): Id {
    if d.height > 0 && d.src >= 0 then Blk(d.src, d.height, d.data) else Root
  }

  predicate PreValidDep(cnt: nat, incarnation: nat, d: Dep) {
    && d.height >= 0
    && if d.height > 0 then 0 <= d.src < cnt else d.src == cnt && d.data == incarnation && d.sig == 0
  }

  /** A reference is valid when it is well formed and either known already or properly signed. */
  predicate ValidDep(cnt: nat, incarnation: nat, known: map<Id, BlockState>, sigOk: (Id, nat) -> bool, d: Dep) {
    PreValidDep(cnt, incarnation, d) && (d.height > 0 ==> DepId(d) in known || sigOk(DepId(d), d.sig))
  }

  /** Two valid names of one source at one height. */
  predicate ProofOk(cnt: nat, incarnation: nat, known: map<Id, BlockState>, sigOk: (Id, nat) -> bool, l: Dep, r: Dep) {
    && ValidDep(cnt, incarnation, known, sigOk, l) && ValidDep(cnt, incarnation, known, sigOk, r)
    && l.height == r.height && l.src == r.src && l.data != r.data
  }

  lemma ProofNamesSource(cnt: nat, incarnation: nat, known: map<Id, BlockState>, sigOk: (Id, nat) -> bool, l: Dep,
                         r: Dep)
    requires ProofOk(cnt, incarnation, known, sigOk, l, r)
    ensures 0 <= l.src < cnt && l.height > 0 && DepId(l) != DepId(r)
  {
  }

  lemma ProofInBlamed(cnt: nat, st: map<Id, BlockState>, s: Book, s': Book, src: nat)
    requires BookInv(cnt, st, s, {}, {}) && s'.blamed == s.blamed + {src} && s'.forkFound == s.forkFound + {src}
    ensures s'.forkFound <= s'.blamed
  {
  }

  /** The predecessor `p` already depends on `d`, or on another fork of `d`'s blamed source. */
  predicate DepRejected(t: Table, s: Book, p: Id, d: Id)
    requires p in t.clk && d in t.fork && d.Blk? && d.src < |s.ids|
  {
    || d.height <= At(t.clk[p], t.fork[d])
    || (d.src in s.blamed && exists i | 0 <= i < |s.ids[d.src]| ::
          s.ids[d.src][i] != t.fork[d] && At(t.clk[p], s.ids[d.src][i]) > 0)
  }

  /** All that the checks on a block with links `k` look at is there. */
  predicate LinksBooked(t: Table, s: Book, k: Link) {
    k.prev in t.clk && forall i | 0 <= i < |k.deps| :: k.deps[i] in t.fork && k.deps[i].Blk? && k.deps[i].src < |s.ids|
  }

  predicate DepsDelivered(t: Table, s: Book, x: Id) {
    x in t.lk && x in t.payload && LinksBooked(t, s, t.lk[x])
  }

  /** A block with links `k` passes every check made before delivery, if the names of `known` have been seen. */
  predicate Passing(cnt: nat, incarnation: nat, sigOk: (Id, nat) -> bool, t: Table, s: Book, known: map<Id, BlockState>,
                    k: Link, pl: Payload)
    requires LinksBooked(t, s, k)
  {
    && (forall i | 0 <= i < |k.deps| :: !DepRejected(t, s, k.prev, k.deps[i]))
    && (pl.ForkProof? ==> ProofOk(cnt, incarnation, known, sigOk, pl.left, pl.right))
  }

  predicate Acceptable(cnt: nat, incarnation: nat, sigOk: (Id, nat) -> bool, t: Table, s: Book, x: Id)
    requires DepsDelivered(t, s, x)
  {
    Passing(cnt, incarnation, sigOk, t, s, t.st, t.lk[x], t.payload[x])
  }

  /** What running a block that waits to be delivered does to the states. */
  ghost predicate RunOutcome(cnt: nat, incarnation: nat, sigOk: (Id, nat) -> bool, t: Table, s: Book, t': Table,
                             x: Id) {
    && DepsDelivered(t, s, x) && x in t'.st
    && if Acceptable(cnt, incarnation, sigOk, t, s, x) then t'.st == t.st[x := Delivered]
       else t'.st[x] == Ill && Sickened(t.st, t'.st) && OnlyInfected(t.st, t'.st, t'.lk, x)
  }

  /** Nothing but the entries of one source changed. */
  ghost predicate SameElsewhere(s: Book, s': Book, src: nat) {
    && |s'.ids| == |s.ids|
    && forall i | 0 <= i < |s.ids| && i != src :: s'.ids[i] == s.ids[i] && (i in s'.blamed <==> i in s.blamed)
  }

  /** Giving a block its fork id does not change the outcome of its checks. */
  lemma ForkedChecks(cnt: nat, incarnation: nat, sigOk: (Id, nat) -> bool, t: Table, s: Book, s': Book, x: Id,
                     f: nat, continues: bool)
    requires DepsDelivered(t, s, x) && x in t.clk && x.Blk? && LinkOk(x, t.lk[x]) && SameElsewhere(s, s', x.src)
    ensures DepsDelivered(Forked(t, x, f, continues), s', x)
    ensures Acceptable(cnt, incarnation, sigOk, Forked(t, x, f, continues), s', x) <==>
              Acceptable(cnt, incarnation, sigOk, t, s, x)
    ensures Forked(t, x, f, continues).st == t.st && Forked(t, x, f, continues).lk == t.lk
    ensures Forked(t, x, f, continues).db == t.db && Forked(t, x, f, continues).pend == t.pend
  {
    hide Stamped, ProofOk;
    var t' := Forked(t, x, f, continues);
    assert t'.clk[t.lk[x].prev] == t.clk[t.lk[x].prev];
    forall i | 0 <= i < |t.lk[x].deps|
      ensures DepRejected(t', s', t.lk[x].prev, t.lk[x].deps[i]) <==> DepRejected(t, s, t.lk[x].prev, t.lk[x].deps[i])
    {
      var d := t.lk[x].deps[i];
      assert d in t.lk[x].deps;
    }
  }

  lemma DepsAreDelivered(cnt: nat, t: Table, q: seq<Id>, g: Dag, s: Book, x: Id)
    requires TableInv(cnt, t, q, g, {x}) && x in t.lk && x in t.st && |s.ids| == cnt && LinkOk(x, t.lk[x])
    requires forall l | IsLink(t.lk[x], l) :: l in t.st && (l != Root ==> l in t.fork)
    ensures DepsDelivered(t, s, x)
  {
    hide HealthOk, RevOk, PendingOk, QueueOk, GraphOk, NextOk, NextFrom, RunOk, Merged;
    assert IsLink(t.lk[x], t.lk[x].prev);
    forall i | 0 <= i < |t.lk[x].deps|
      ensures t.lk[x].deps[i] in t.fork && t.lk[x].deps[i].Blk? && t.lk[x].deps[i].src < |s.ids|
    {
      assert IsLink(t.lk[x], t.lk[x].deps[i]);
    }
  }

  lemma NothingToRun(cnt: nat, t: Table, q: seq<Id>, g: Dag, x: Id)
    requires TableInv(cnt, t, q, g, {x}) && x in t.st && t.st[x] != Initialized
    ensures TableInv(cnt, t, q, g, {})
  {
    hide HealthOk, RevOk, PendingOk, ClocksOk, GraphOk, NextOk, TablesOk;
  }

  lemma EvolvesSame(st: map<Id, BlockState>)
    ensures Evolves(st, st)
  {
  }

  lemma DeliveredEvolves(st: map<Id, BlockState>, x: Id)
    requires x in st && st[x] == Initialized
    ensures Evolves(st, st[x := Delivered])
  {
  }

  // ---------------------------------------------------------------- the queue

  ghost function Unsettled(st: map<Id, BlockState>): set<Id> {
    set x | x in st && st[x] == Initialized
  }

  lemma SettledOne(st: map<Id, BlockState>, st': map<Id, BlockState>, x: Id)
    requires x in st && st[x] == Initialized && x in st' && st'[x] != Initialized
    requires st' == st[x := Delivered] || Sickened(st, st')
    ensures Unsettled(st') < Unsettled(st)
  {
    assert x in Unsettled(st) && x !in Unsettled(st');
    assert Unsettled(st') <= Unsettled(st);
  }

  lemma PopKeeps(cnt: nat, t: Table, q: seq<Id>, g: Dag)
    requires TableInv(cnt, t, q, g, {}) && q != []
    ensures TableInv(cnt, t, q[1..], g, {q[0]}) && q[0] in t.st && t.st[q[0]] != None
    ensures t.st[q[0]] == Initialized ==> q[0] in t.pend && t.pend[q[0]] == 0 && q[0] in t.db && q[0] !in t.fork
  {
    hide HealthOk, RevOk, PendingOk, ClocksOk, GraphOk, NextOk, TablesOk;
    assert q[0] in q && forall x | x in q :: x == q[0] || x in q[1..];
  }

  /** Every stored block that is not ill and all of whose links are delivered has been delivered. */
  ghost predicate Quiescent(st: map<Id, BlockState>, lk: map<Id, Link>, db: set<Id>) {
    forall x | x in lk && x in st && x in db && st[x] != Ill &&
      (forall l | IsLink(lk[x], l) :: l in st && st[l] == Delivered) ::
      st[x] == Delivered
  }

  lemma NothingLost(cnt: nat, t: Table, g: Dag)
    requires TableInv(cnt, t, [], g, {})
    ensures Quiescent(t.st, t.lk, t.db)
  {
    hide HealthOk, RevOk, ClocksOk, GraphOk, NextOk, NextFrom, RunOk;
    forall x | x in t.lk && x in t.st && x in t.db && t.st[x] != Ill &&
      (forall l | IsLink(t.lk[x], l) :: l in t.st && t.st[l] == Delivered)
      ensures t.st[x] == Delivered
    {
      NothingAwaited(t.st, t.lk[x]);
    }
  }

  lemma NothingAwaited(st: map<Id, BlockState>, k: Link)
    requires forall l | IsLink(k, l) :: l in st && st[l] == Delivered
    ensures |Waiting(st, k)| == 0
  {
    assert Waiting(st, k) == {};
  }

  lemma NamedEvolves(t: Table, x: Id)
    ensures x !in t.st ==> Evolves(t.st, Named(t, x).st)
  {
  }

  lemma TouchStep(t: Table, x: Id)
    ensures x !in t.st ==> Evolves(t.st, Named(t, x).st)
    ensures Named(t, x).lk == t.lk && Named(t, x).db == t.db && Named(t, x).payload == t.payload
    ensures Evolves(t.st, t.st)
    ensures x !in t.st ==> x in Named(t, x).st && forall y | y in t.st ::
              y in Named(t, x).st && Named(t, x).st[y] == t.st[y]
  {
  }

  /** The predecessor and the first `i` dependencies are known. */
  ghost predicate LinksTouched(st: map<Id, BlockState>, k: Link, i: nat) {
    k.prev in st && forall j | 0 <= j < i && j < |k.deps| :: k.deps[j] in st
  }

  lemma TouchedMore(t: Table, k: Link, i: nat)
    requires LinksTouched(t.st, k, i) && i < |k.deps|
    ensures if k.deps[i] in t.st then LinksTouched(t.st, k, i + 1) else LinksTouched(Named(t, k.deps[i]).st, k, i + 1)
  {
  }

  lemma TouchedAll(st: map<Id, BlockState>, k: Link)
    requires LinksTouched(st, k, |k.deps|)
    ensures forall l | IsLink(k, l) :: l in st
  {
  }

  lemma DepLink(k: Link, i: nat)
    requires i < |k.deps|
    ensures IsLink(k, k.deps[i])
  {
  }

  lemma InitializedEvolves(st: map<Id, BlockState>, x: Id)
    requires x in st && st[x] == None
    ensures Evolves(st, st[x := Initialized])
  {
  }

  lemma EvolvesKeeps(st: map<Id, BlockState>, st': map<Id, BlockState>, x: Id)
    requires Evolves(st, st') && x in st && st[x] != None
    ensures x in st' && st'[x] != None
  {
  }

  // ---------------------------------------------------------------- own blocks

  ghost predicate LinksDelivered(st: map<Id, BlockState>, k: Link) {
    forall l | IsLink(k, l) :: l in st && st[l] == Delivered
  }

  /** None of the dependencies of `k` is blamed or already covered by the timestamp of its predecessor. */
  ghost predicate FreshDeps(t: Table, s: Book, k: Link) {
    && k.prev in t.clk
    && forall d | d in k.deps ::
       d in t.fork && d.Blk? && d.src < |s.ids| && d.src !in s.blamed && d.height > At(t.clk[k.prev], t.fork[d])
  }

  /** The block `x` has been entered with links `k`, waits for nothing, and nothing else changed that its checks look
      at. */
  ghost predicate Admitted(t: Table, s: Book, q: seq<Id>, t': Table, s': Book, q': seq<Id>, x: Id, k: Link,
                           pl: Payload) {
    && x.Blk? && x.src < |s.at| && t'.st == t.st[x := Initialized] && t'.lk == t.lk[x := k] &&
       t'.payload == t.payload[x := pl]
    && x in t'.pend && t'.pend[x] == 0 && t'.fork == t.fork && t'.db == t.db
    && (forall y | y in t.clk && y != x :: y in t'.clk && t'.clk[y] == t.clk[y])
    && s' == (if x in t.st then s else Noted(s, x)).(rh := s'.rh)
    && q' == if x in t.db then q + [x] else q
  }

  lemma AdmittedIsAcceptable(cnt: nat, incarnation: nat, sigOk: (Id, nat) -> bool, t: Table, s: Book, q: seq<Id>,
                             t': Table, s': Book, q': seq<Id>, x: Id, k: Link, pl: Payload)
    requires Admitted(t, s, q, t', s', q', x, k, pl) && LinkOk(x, k) && LinksBooked(t, s, k)
    ensures DepsDelivered(t', s', x)
    ensures Acceptable(cnt, incarnation, sigOk, t', s', x) <==>
              Passing(cnt, incarnation, sigOk, t, s, t.st[x := None], k, pl)
  {
    assert k.prev != x;
    NotedElsewhere(s, x);
    forall i | 0 <= i < |k.deps|
      ensures k.deps[i] in t'.fork && k.deps[i].src < |s'.ids|
      ensures DepRejected(t', s', k.prev, k.deps[i]) <==> DepRejected(t, s, k.prev, k.deps[i])
    {
      assert k.deps[i] in k.deps;
    }
    if pl.ForkProof? {
      ProofKnown(cnt, incarnation, t'.st, t.st[x := None], sigOk, pl.left, pl.right);
    }
  }

  /** A fork proof depends on what is known only through the names. */
  lemma ProofKnown(cnt: nat, incarnation: nat, known: map<Id, BlockState>, known': map<Id, BlockState>,
                   sigOk: (Id, nat) -> bool, l: Dep, r: Dep)
    requires known.Keys == known'.Keys
    ensures ProofOk(cnt, incarnation, known, sigOk, l, r) <==> ProofOk(cnt, incarnation, known', sigOk, l, r)
  {
    assert forall d: Dep :: DepId(d) in known <==> DepId(d) in known';
  }

  /** Fresh dependencies pass. */
  lemma FreshPasses(cnt: nat, incarnation: nat, sigOk: (Id, nat) -> bool, t: Table, s: Book,
                    known: map<Id, BlockState>, k: Link, pl: Payload)
    requires FreshDeps(t, s, k)
    ensures LinksBooked(t, s, k)
    ensures Passing(cnt, incarnation, sigOk, t, s, known, k, pl) <==>
              (pl.ForkProof? ==> ProofOk(cnt, incarnation, known, sigOk, pl.left, pl.right))
  {
    forall i | 0 <= i < |k.deps|
      ensures k.deps[i] in t.fork && k.deps[i].Blk? && k.deps[i].src < |s.ids|
      ensures !DepRejected(t, s, k.prev, k.deps[i])
    {
      assert k.deps[i] in k.deps;
    }
  }

  lemma EnteredAdmits(t: Table, s: Book, s': Book, q: seq<Id>, x: Id, k: Link, pl: Payload, v: Clock,
                      r: map<Id, seq<Id>>)
    requires x.Blk? && x.src < |s.at| && x in t.st && s' == s.(rh := s'.rh)
    ensures Admitted(t, s, q, Entered(t, x, k, pl, v, 0, r), s', if x in t.db then q + [x] else q, x, k, pl)
  {
  }

  lemma EnteredTable(t: Table, x: Id, k: Link, pl: Payload, v: Clock, m: nat, r: map<Id, seq<Id>>)
    ensures Entered(t, x, k, pl, v, m, r).st == t.st[x := Initialized]
    ensures Entered(t, x, k, pl, v, m, r).lk == t.lk[x := k]
    ensures Entered(t, x, k, pl, v, m, r).db == t.db && Entered(t, x, k, pl, v, m, r).fork == t.fork
    ensures Entered(t, x, k, pl, v, m, r).payload == t.payload[x := pl]
  {
  }

  lemma AdmittedQueue(t: Table, s: Book, q: seq<Id>, t': Table, s': Book, q': seq<Id>, x: Id, k: Link, pl: Payload)
    requires Admitted(t, s, q, t', s', q', x, k, pl)
    ensures t'.st == t.st[x := Initialized] && x in t'.pend && t'.pend[x] == 0
    ensures q' == if x in t'.db then q + [x] else q
  {
  }

  lemma WrittenChecks(cnt: nat, incarnation: nat, sigOk: (Id, nat) -> bool, t: Table, s: Book, x: Id)
    requires DepsDelivered(t, s, x)
    ensures DepsDelivered(t.(db := t.db + {x}), s, x)
    ensures Acceptable(cnt, incarnation, sigOk, t.(db := t.db + {x}), s, x) <==>
              Acceptable(cnt, incarnation, sigOk, t, s, x)
  {
    assert forall i | 0 <= i < |t.lk[x].deps| ::
        DepRejected(t.(db := t.db + {x}), s, t.lk[x].prev, t.lk[x].deps[i]) == DepRejected(t, s, t.lk[x].prev,
          t.lk[x].deps[i]);
  }

  /** Naming `x` first makes no difference. */
  lemma NamedAdmits(t0: Table, s0: Book, t: Table, s: Book, q: seq<Id>, t': Table, s': Book, q': seq<Id>, x: Id,
                    k: Link, pl: Payload)
    requires Admitted(t, s, q, t', s', q', x, k, pl) && |s0.at| == |s.at|
    requires if x in t0.st then t == t0 && s == s0 else t == Named(t0, x) && s == Noted(s0, x)
    ensures Admitted(t0, s0, q, t', s', q', x, k, pl)
  {
  }

  lemma NamedLinks(t: Table, x: Id, k: Link)
    requires LinksDelivered(t.st, k) && LinkOk(x, k)
    ensures LinksDelivered(Named(t, x).st, k)
  {
    assert !IsLink(k, x);
  }

  // ---------------------------------------------------------------- the beginning

  function FreshTable(): Table {
    Table(map[Root := Delivered], map[], map[], map[Root := []], map[], map[], map[Root := []], map[Root := 0], {})
  }

  function FreshBook(cnt: nat): Book {
    Book({}, {}, seq(cnt, _ => []), seq(cnt, _ => map[]), seq(cnt, _ => 0), seq(cnt, _ => 0), [])
  }

  lemma FreshInv(cnt: nat)
    ensures TableInv(cnt, FreshTable(), [], map[], {}) && BookInv(cnt, FreshTable().st, FreshBook(cnt), {}, {})
    ensures ForkIdsOk(cnt, 0, FreshBook(cnt).ids, FreshTable().fork) && EventsOk(cnt, [], map[], {})
    ensures Quiescent(FreshTable().st, FreshTable().lk, FreshTable().db)
  {
    FreshTables(cnt);
    FreshBooks(cnt);
  }

  lemma FreshTables(cnt: nat)
    ensures TableInv(cnt, FreshTable(), [], map[], {}) && Quiescent(FreshTable().st, FreshTable().lk, FreshTable().db)
  {
  }

  lemma FreshBooks(cnt: nat)
    ensures BookInv(cnt, FreshTable().st, FreshBook(cnt), {}, {})
  {
    var s, st := FreshBook(cnt), FreshTable().st;
    forall i | 0 <= i < cnt ensures SourceOk(i, st, s.ids[i], s.at[i], s.dh[i], s.rh[i]) { }
  }
}
