/**
  The receiver after a restart, on values: what holds while blocks are read back from storage, and why
  blocks that were accepted before are accepted again when the queue is run, whatever the order.
 */
module CatchainReplay {
  import opened CatchainDag
  import opened CatchainState
  import opened CatchainTables
  import opened CatchainTheorems

  // ---------------------------------------------------------------- reading

  /** Two names of one source at one height are known. */
  ghost predicate ForkKnown(st: map<Id, BlockState>) {
    exists x, y {:trigger SameSource(x, y)} :: x in st && y in st && SameSource(x, y) && x.height == y.height && x != y
  }

  /** They are names of `src`. */
  ghost predicate ForkAt(st: map<Id, BlockState>, src: nat) {
    exists x, y {:trigger SameSource(x, y)} ::
      x in st && y in st && SameSource(x, y) && x.src == src && x.height == y.height && x != y
  }

  /** Nothing has run yet, and a fork has been noticed exactly if there is one among the names seen so far. */
  ghost predicate Reading(t: Table, s: Book) {
    && (forall x | x in t.st :: t.st[x] != Ill && (t.st[x] == Delivered ==> x == Root))
    && t.fork == map[] && t.next == map[] && (forall i | 0 <= i < |s.ids| :: s.ids[i] == [])
    && if s.prepared == [] then s.blamed == {} else ForkKnown(t.st)
  }

  lemma NamedReading(cnt: nat, t: Table, s: Book, x: Id)
    requires Reading(t, s) && BookInv(cnt, t.st, s, {}, {}) && x !in t.st && x.Blk? && x.src < cnt
    ensures |s.at| == cnt && Reading(Named(t, x), Noted(s, x))
  {
    hide ReceivedOk, DeliveredOk;
    var st' := t.st[x := None];
    if s.prepared == [] {
      if x.height in s.at[x.src] {
        assert SourceOk(x.src, t.st, s.ids[x.src], s.at[x.src], s.dh[x.src], s.rh[x.src]);
        assert SameSource(x, s.at[x.src][x.height]);
      }
    } else {
      var a, b :| a in t.st && b in t.st && SameSource(a, b) && a.height == b.height && a != b;
      assert a in st' && b in st' && SameSource(a, b);
    }
  }

  lemma EnteredReading(t: Table, s: Book, s': Book, x: Id, k: Link, pl: Payload, v: Clock, m: nat, r: map<Id, seq<Id>>)
    requires Reading(t, s) && x in t.st && t.st[x] == None && s' == s.(rh := s'.rh)
    ensures Reading(Entered(t, x, k, pl, v, m, r), s')
  {
    if s.prepared != [] {
      var a, b :| a in t.st && b in t.st && SameSource(a, b) && a.height == b.height && a != b;
      assert SameSource(a, b);
    }
  }

  /** At the end of the reads: a fork has been noticed if and only if there is one. */
  lemma NoticedIffForked(cnt: nat, t: Table, s: Book)
    requires Reading(t, s) && BookInv(cnt, t.st, s, {}, {}) && forall x | x in t.st && x.Blk? :: x.src < cnt
    ensures s.prepared == [] <==> !ForkKnown(t.st)
  {
    hide ReceivedOk, DeliveredOk, SourcesOk;
    if s.prepared == [] && ForkKnown(t.st) {
      var a, b :| a in t.st && b in t.st && SameSource(a, b) && a.height == b.height && a != b;
      OwnHeight(cnt, t.st, a, s.blamed, s.ids, s.at, s.dh, s.rh);
      OwnHeight(cnt, t.st, b, s.blamed, s.ids, s.at, s.dh, s.rh);
    }
  }

  // ---------------------------------------------------------------- fork proofs

  /** Every fork proof in a delivered block has been recorded. */
  ghost predicate Heeded(st: map<Id, BlockState>, payload: map<Id, Payload>, found: set<nat>) {
    forall y | y in st && st[y] == Delivered && y in payload && payload[y].ForkProof? ::
      0 <= payload[y].left.src && payload[y].left.src in found
  }

  /** A name is new, and a fork may have been found. */
  lemma HeededNamed(st: map<Id, BlockState>, payload: map<Id, Payload>, found: set<nat>, found': set<nat>, x: Id)
    requires Heeded(st, payload, found) && found <= found'
    ensures Heeded(st, payload, found') && Heeded(st[x := None], payload, found')
  {
  }

  /** A block is entered. */
  lemma HeededEntered(st: map<Id, BlockState>, payload: map<Id, Payload>, found: set<nat>, x: Id, pl: Payload)
    requires Heeded(st, payload, found)
    ensures Heeded(st[x := Initialized], payload[x := pl], found)
  {
  }

  /** A block with or without a proof is delivered. */
  lemma HeededMore(st: map<Id, BlockState>, payload: map<Id, Payload>, found: set<nat>, x: Id)
    requires Heeded(st, payload, found) && x in payload
    requires payload[x].ForkProof? ==> 0 <= payload[x].left.src && payload[x].left.src in found
    ensures Heeded(st[x := Delivered], payload, found)
  {
  }

  lemma HeededSick(st: map<Id, BlockState>, payload: map<Id, Payload>, found: set<nat>, st': map<Id, BlockState>)
    requires Heeded(st, payload, found) && Sickened(st, st')
    ensures Heeded(st', payload, found)
  {
  }

  // ---------------------------------------------------------------- signatures

  ghost predicate HasSignature(sigOk: (Id, nat) -> bool, x: Id) {
    exists sig: nat :: sigOk(x, sig)
  }

  /** Two signed blocks of one source at one height. */
  ghost predicate SignedFork(sigOk: (Id, nat) -> bool, src: nat, x: Id, y: Id) {
    && x.Blk? && y.Blk? && x.src == src == y.src && x.height == y.height && x != y
    && HasSignature(sigOk, x) && HasSignature(sigOk, y)
  }

  /** Every name is signed by its source, and so are two blocks of one height for each recorded fork. */
  ghost predicate Vouched(sigOk: (Id, nat) -> bool, st: map<Id, BlockState>, found: set<nat>) {
    && (forall x | x in st && x.Blk? :: HasSignature(sigOk, x))
    && (forall src | src in found :: exists x, y :: SignedFork(sigOk, src, x, y))
  }

  lemma VouchedSame(sigOk: (Id, nat) -> bool, st: map<Id, BlockState>, st': map<Id, BlockState>, found: set<nat>)
    requires Vouched(sigOk, st, found) && st'.Keys <= st.Keys
    ensures Vouched(sigOk, st', found)
  {
  }

  lemma VouchedSick(sigOk: (Id, nat) -> bool, st: map<Id, BlockState>, st': map<Id, BlockState>, found: set<nat>)
    requires Vouched(sigOk, st, found) && Sickened(st, st')
    ensures Vouched(sigOk, st', found)
  {
  }

  /** A signed name is new: a fork it gives away is one of two signed blocks. */
  lemma VouchedNoted(cnt: nat, sigOk: (Id, nat) -> bool, st: map<Id, BlockState>, s: Book, x: Id)
    requires Vouched(sigOk, st, s.forkFound) && BookInv(cnt, st, s, {}, {})
    requires x !in st && x.Blk? && x.src < cnt && HasSignature(sigOk, x)
    ensures |s.at| == cnt && Vouched(sigOk, st[x := None], Noted(s, x).forkFound)
  {
    hide BookInv;
    NamedInBook(cnt, st, s, x);
    if x.src !in s.forkFound && x.height in s.at[x.src] {
      assert SignedFork(sigOk, x.src, x, s.at[x.src][x.height]);
    }
  }

  /** Names in a fork proof are known or signed. */
  lemma VouchedProof(cnt: nat, incarnation: nat, sigOk: (Id, nat) -> bool, st: map<Id, BlockState>, found: set<nat>,
                     l: Dep, r: Dep)
    requires Vouched(sigOk, st, found) && ProofOk(cnt, incarnation, st, sigOk, l, r)
    ensures l.src >= 0 && Vouched(sigOk, st, found + {l.src})
  {
    assert SignedFork(sigOk, l.src, DepId(l), DepId(r));
  }

  // ---------------------------------------------------------------- the local source

  /** A fork proof against source `l`. */
  predicate Accuses(pl: Payload, l: nat) {
    && pl.ForkProof? && pl.left.src == l && pl.right.src == l
    && pl.left.height == pl.right.height > 0 && pl.left.data != pl.right.data
  }

  /** Source `l` is not blamed, and no fork proof is against it. */
  ghost predicate Unharmed(t: Table, s: Book, l: nat) {
    l !in s.blamed && forall y | y in t.payload :: !Accuses(t.payload[y], l)
  }

  /** No block of `l` is ill. */
  ghost predicate NoneIll(st: map<Id, BlockState>, l: nat) {
    forall y | y in st && y.Blk? && y.src == l :: st[y] != Ill
  }

  /** No block of `l` fell ill. */
  ghost predicate Untouched(st: map<Id, BlockState>, st': map<Id, BlockState>, l: nat) {
    forall y | Fell(st, st', y) && y.Blk? :: y.src != l
  }

  lemma NoneFell(st: map<Id, BlockState>, st': map<Id, BlockState>, l: nat)
    ensures NoneIll(st', l) ==> Untouched(st, st', l)
  {
  }

  lemma UntouchedBefore(st0: map<Id, BlockState>, st1: map<Id, BlockState>, st2: map<Id, BlockState>, l: nat)
    requires Sickened(st0, st1) && Sickened(st1, st2) && Untouched(st0, st2, l)
    ensures Untouched(st0, st1, l) && Untouched(st1, st2, l)
  {
    forall y | (Fell(st0, st1, y) || Fell(st1, st2, y)) && y.Blk? ensures y.src != l {
      assert Fell(st0, st2, y);
    }
  }

  /** Illness is final. */
  lemma NoneWasIll(st: map<Id, BlockState>, st': map<Id, BlockState>, l: nat)
    requires Evolves(st, st')
    ensures NoneIll(st', l) ==> NoneIll(st, l)
  {
  }

  // ---------------------------------------------------------------- illness in progress

  /** `x` has fallen ill, and others with it; not all that waits for `x` has been told yet. */
  ghost predicate Falling(cnt: nat, t: Table, s: Book, st': map<Id, BlockState>, s': Book, x: Id, l: nat) {
    && Sickened(t.st, st') && Fell(t.st, st', x) && Healthy(st') < Healthy(t.st)
    && Spread(t.st, st', t.rev, {x}) && OnlyInfected(t.st, st', t.lk, x) && FallenBlamed(t.st, st', s'.blamed)
    && Cleared(s.at, s'.at, s.blamed, s'.blamed) && |s'.at| == cnt
    && (Untouched(t.st, st', l) && l !in s.blamed ==> l !in s'.blamed)
  }

  lemma FallStarts(cnt: nat, t: Table, s: Book, x: Id, l: nat)
    requires x in t.st && t.st[x] == Initialized && x.Blk? && x.src < cnt == |s.at|
    ensures Falling(cnt, t, s, t.st[x := Ill], Accused(s, x.src), x, l)
    ensures Accused(s, x.src) == s.(blamed := Accused(s, x.src).blamed, at := Accused(s, x.src).at)
  {
    hide Spread, OnlyInfected, FallenBlamed, Healthy, Cleared;
    AccusedClears(s, x.src);
    IllStart(cnt, t.st, t.lk, t.rev, x, Accused(s, x.src).blamed);
  }

  /** The next waiting block may be told. */
  lemma FallsTo(cnt: nat, t: Table, s: Book, st': map<Id, BlockState>, s': Book, x: Id, b: Id, l: nat)
    requires Falling(cnt, t, s, st', s', x, l) && t.rev.Keys == t.st.Keys && RevSound(t.st, t.lk, t.rev)
    requires BlocksNamed(cnt, t.st)
    requires x in t.rev && b in t.rev[x]
    ensures RevSound(st', t.lk, t.rev) && BlocksNamed(cnt, st') && st'.Keys == t.st.Keys && |s'.at| == cnt
    ensures b in st' && (st'[b] == Initialized || st'[b] == Ill) && Healthy(st') < Healthy(t.st)
  {
    hide Spread, OnlyInfected, FallenBlamed, Healthy, Cleared, RevSound, BlocksNamed;
    IllNext(cnt, t.st, st', t.lk, t.rev, x, b);
  }

  lemma FallsOn(cnt: nat, t: Table, s: Book, st1: map<Id, BlockState>, s1: Book, st2: map<Id, BlockState>, s2: Book,
                x: Id, b: Id, l: nat)
    requires Falling(cnt, t, s, st1, s1, x, l) && RevSound(t.st, t.lk, t.rev) && x in t.rev && b in t.rev[x]
    requires Sickened(st1, st2) && Spread(st1, st2, t.rev, {}) && OnlyInfected(st1, st2, t.lk, b)
    requires FallenBlamed(st1, st2, s2.blamed)
    requires Cleared(s1.at, s2.at, s1.blamed, s2.blamed)
    requires Untouched(st1, st2, l) && l !in s1.blamed ==> l !in s2.blamed
    ensures Falling(cnt, t, s, st2, s2, x, l)
  {
    hide Spread, OnlyInfected, FallenBlamed, Healthy, Cleared, Sickened, Untouched, Fell, RevSound;
    RevSoundAt(t.st, t.lk, t.rev, x, b);
    ClearedChain(s.at, s1.at, s2.at, s.blamed, s1.blamed, s2.blamed);
    SickenedChain(t.st, st1, st2, t.lk, t.rev, x, b, s1.blamed, s2.blamed);
    if Untouched(t.st, st2, l) {
      UntouchedBefore(t.st, st1, st2, l);
    }
  }

  lemma FallEnds(cnt: nat, t: Table, s: Book, st': map<Id, BlockState>, s': Book, x: Id, l: nat)
    requires Falling(cnt, t, s, st', s', x, l) && x in t.rev && IllUpTo(st', t.rev[x], |t.rev[x]|)
    ensures Sickened(t.st, st') && st'.Keys == t.st.Keys && x in st' && st'[x] == Ill
    ensures Spread(t.st, st', t.rev, {}) && forall b | b in t.rev[x] :: b in st' && st'[b] == Ill
    ensures OnlyInfected(t.st, st', t.lk, x) && FallenBlamed(t.st, st', s'.blamed)
    ensures Cleared(s.at, s'.at, s.blamed, s'.blamed)
    ensures Untouched(t.st, st', l) && l !in s.blamed ==> l !in s'.blamed
  {
    hide Spread, OnlyInfected, FallenBlamed, Healthy, Cleared;
    IllEnd(t.st, st', t.rev, x);
  }

  // ---------------------------------------------------------------- new names

  /** The names `ns` and the payload `pl` bring nothing new about source `l`. */
  ghost predicate Harmless(st: map<Id, BlockState>, ns: set<Id>, pl: Payload, l: nat) {
    !Accuses(pl, l) && forall y | y in ns && y.Blk? && y.src == l :: y in st
  }

  /** Names of `ns` and at most one block, with payload `pl`, have been entered, and nothing has run. */
  ghost predicate Adds(t: Table, s: Book, t': Table, s': Book, ns: set<Id>, pl: Payload, l: nat) {
    && t'.fork == t.fork && t'.next == t.next && s'.ids == s.ids && s.prepared <= s'.prepared
    && t.st.Keys <= t'.st.Keys <= t.st.Keys + ns
    && (Reading(t, s) ==> Reading(t', s'))
    && (Unharmed(t, s, l) && Harmless(t.st, ns, pl, l) && NoneIll(t'.st, l) ==> Unharmed(t', s', l))
  }

  lemma AddsNothing(t: Table, s: Book, ns: set<Id>, pl: Payload, l: nat)
    ensures Adds(t, s, t, s, ns, pl, l)
  {
  }

  lemma AddsMore(t0: Table, s0: Book, t1: Table, s1: Book, t2: Table, s2: Book, ns1: set<Id>, ns2: set<Id>,
                 ns: set<Id>, pl: Payload, l: nat)
    requires Adds(t0, s0, t1, s1, ns1, pl, l) && Adds(t1, s1, t2, s2, ns2, pl, l) && ns1 <= ns
    requires ns2 <= ns && Evolves(t1.st, t2.st)
    ensures Adds(t0, s0, t2, s2, ns, pl, l)
  {
    hide Reading, Unharmed, Accuses, NoneIll, Evolves;
    NoneWasIll(t1.st, t2.st, l);
  }

  lemma AddsMeans(t: Table, s: Book, t': Table, s': Book, ns: set<Id>, pl: Payload, l: nat)
    requires Adds(t, s, t', s', ns, pl, l)
    ensures s.prepared <= s'.prepared && t.st.Keys <= t'.st.Keys <= t.st.Keys + ns
    ensures Unharmed(t, s, l) && Harmless(t.st, ns, pl, l) && NoneIll(t'.st, l) ==> Unharmed(t', s', l)
  {
  }

  lemma NamedAdds(cnt: nat, t: Table, s: Book, x: Id, pl: Payload, l: nat)
    requires BookInv(cnt, t.st, s, {}, {}) && x !in t.st && x.Blk? && x.src < cnt
    ensures |s.at| == cnt && Adds(t, s, Named(t, x), Noted(s, x), {x}, pl, l)
  {
    hide Reading, BookInv, Accuses, Noted, Named, SameElsewhere, Unharmed, NoneIll;
    BookLength(cnt, t.st, s);
    NamedTable(t, x);
    if Reading(t, s) {
      NamedReading(cnt, t, s, x);
    }
    NotedElsewhere(s, x);
    if Unharmed(t, s, l) && Harmless(t.st, {x}, pl, l) {
      NamedUnharmed(t, s, x, l);
    }
  }

  lemma NamedUnharmed(t: Table, s: Book, x: Id, l: nat)
    requires Unharmed(t, s, l) && x.Blk? && x.src < |s.at| && x.src != l
    ensures Unharmed(Named(t, x), Noted(s, x), l)
  {
    hide Accuses;
  }

  lemma EnteredAdds(t: Table, s: Book, s': Book, x: Id, k: Link, pl: Payload, v: Clock, m: nat, r: map<Id, seq<Id>>,
                    l: nat)
    requires x in t.st && t.st[x] == None && s' == s.(rh := s'.rh)
    ensures Adds(t, s, Entered(t, x, k, pl, v, m, r), s', {}, pl, l)
  {
    hide Reading, Accuses;
    if Reading(t, s) {
      EnteredReading(t, s, s', x, k, pl, v, m, r);
    }
  }

  /** A block with an ill link. */
  lemma IllAdds(t: Table, s: Book, t': Table, s': Book, x: Id, k: Link, pl: Payload, l: nat, y: Id)
    requires x in t.st && t.st[x] == None && Sickened(t.st[x := Initialized], t'.st) && IsLink(k, y)
    requires y in t.st && t.st[y] == Ill
    requires t' == t.(st := t'.st, lk := t.lk[x := k], payload := t.payload[x := pl])
    requires s' == s.(blamed := s'.blamed, at := s'.at)
    requires Untouched(t.st[x := Initialized], t'.st, l) && l !in s.blamed ==> l !in s'.blamed
    ensures Adds(t, s, t', s', {}, pl, l)
  {
    hide Accuses, Untouched;
    NoneFell(t.st[x := Initialized], t'.st, l);
  }

  // ---------------------------------------------------------------- running

  /** `b` is `a` or one of its ancestors, by the links `lk`. */
  ghost predicate Linked(lk: map<Id, Link>, a: Id, b: Id) {
    exists p :: LinkPath(lk, p) && p[0] == a && p[|p| - 1] == b
  }

  /** A source without two names at one height has one fork at most. */
  ghost predicate OneFork(st: map<Id, BlockState>, ids: seq<seq<nat>>) {
    forall i | 0 <= i < |ids| && !ForkAt(st, i) :: |ids[i]| <= 1
  }

  /** No block depends directly on what its predecessor depends on. */
  ghost predicate FreshLinks(lk: map<Id, Link>) {
    forall x, d | x in lk && d in lk[x].deps :: !Linked(lk, lk[x].prev, d)
  }

  /** Only the first blocks of a source depend directly on a source with two names at one height. */
  ghost predicate SteadyLinks(st: map<Id, BlockState>, lk: map<Id, Link>) {
    forall x, d | x in lk && d in lk[x].deps && lk[x].prev != Root && d.Blk? :: !ForkAt(st, d.src)
  }

  /** Every fork proof is one by its signatures alone. */
  ghost predicate SoundProofs(cnt: nat, incarnation: nat, sigOk: (Id, nat) -> bool, payload: map<Id, Payload>) {
    forall x | x in payload && payload[x].ForkProof? ::
      ProofOk(cnt, incarnation, map[], sigOk, payload[x].left, payload[x].right)
  }

  /** Whatever runs, nothing will be rejected. */
  ghost predicate Calm(cnt: nat, incarnation: nat, sigOk: (Id, nat) -> bool, t: Table, s: Book) {
    && (forall x | x in t.st :: t.st[x] != Ill) && SteadyLinks(t.st, t.lk)
    && FreshLinks(t.lk) && SoundProofs(cnt, incarnation, sigOk, t.payload) && OneFork(t.st, s.ids)
  }

  /** What running `x` does to the fork ids. */
  ghost predicate Stamping(t: Table, s: Book, t': Table, s': Book, x: Id) {
    && x in t.lk && x in t'.fork && t'.payload == t.payload && x.Blk? && x.src < |s.ids|
    && t'.fork == t.fork[x := t'.fork[x]]
    && t'.next == (if ContinuesFork(t, x) then t.next[t.lk[x].prev := x] else t.next)
    && s'.ids == if ContinuesFork(t, x) then s.ids else s.ids[x.src := s.ids[x.src] + [t'.fork[x]]]
  }

  /** Paths of links between delivered blocks are paths of the graph. */
  lemma {:induction false} GraphPath(t: Table, g: Dag, p: seq<Id>)
    requires GraphOk(t.st, t.lk, t.clk, t.fork, g) && Path(g, p)
    ensures LinkPath(t.lk, p)
  {
    forall i | 0 <= i < |p| - 1 ensures p[i] in t.lk && IsLink(t.lk[p[i]], p[i + 1]) {
      assert p[i] in g && p[i + 1] in Links(g[p[i]]);
    }
  }

  lemma GraphLinked(t: Table, g: Dag, a: Id, b: Id)
    requires GraphOk(t.st, t.lk, t.clk, t.fork, g) && Reaches(g, a, b)
    ensures Linked(t.lk, a, b)
  {
    hide GraphOk;
    var p :| Path(g, p) && p[0] == a && p[|p| - 1] == b;
    GraphPath(t, g, p);
  }

  /**
    A dependency on a source with one fork is rejected only if the predecessor reaches it, whatever ran before; the
    root block covers nothing.
   */
  lemma CalmAccepts(cnt: nat, incarnation: nat, sigOk: (Id, nat) -> bool, t: Table, q: seq<Id>, g: Dag, s: Book,
                    total: nat, ev: seq<Event>, x: Id)
    requires TableInv(cnt, t, q, g, {x}) && ForkIdsOk(cnt, total, s.ids, t.fork) && EventsOk(cnt, ev, g, s.blamed)
    requires Calm(cnt, incarnation, sigOk, t, s) && x in t.st && t.st[x] == Initialized && x in t.pend && t.pend[x] == 0
    requires DepsDelivered(t, s, x)
    ensures Acceptable(cnt, incarnation, sigOk, t, s, x)
  {
    hide TablesOk, HealthOk, RevOk, PendingOk, QueueOk, ClocksOk, NextOk, NextFrom, RunOk, EventsOk, GraphOk, ForkIdsOk,
         ForkAt, Linked, Reaches, LinkOk, ProofOk;
    RunFacts(cnt, t, q, g, x);
    var k := t.lk[x];
    forall i | 0 <= i < |k.deps| ensures !DepRejected(t, s, k.prev, k.deps[i]) {
      var d := k.deps[i];
      assert IsLink(k, d) && IsLink(k, k.prev) && d in k.deps;
      TimestampMeansReachable(cnt, t, q, g, {x}, ev, s.blamed, k.prev, d);
      if Reaches(g, k.prev, d) {
        GraphLinked(t, g, k.prev, d);
      }
      ForkListed(cnt, total, s.ids, t.fork, d);
      RootCovers(cnt, t, q, g, {x});
    }
    if t.payload[x].ForkProof? {
      ProofStays(cnt, incarnation, t.st, sigOk, t.payload[x].left, t.payload[x].right);
    }
  }

  lemma RootCovers(cnt: nat, t: Table, q: seq<Id>, g: Dag, run: set<Id>)
    requires TableInv(cnt, t, q, g, run)
    ensures Root in t.clk && t.clk[Root] == []
  {
    hide HealthOk, RevOk, PendingOk, QueueOk, NextOk, NextFrom, RunOk, LinkOk, Merged;
  }

  /** A proof that needs no known names stays one. */
  lemma ProofStays(cnt: nat, incarnation: nat, known: map<Id, BlockState>, sigOk: (Id, nat) -> bool, l: Dep, r: Dep)
    requires ProofOk(cnt, incarnation, map[], sigOk, l, r)
    ensures ProofOk(cnt, incarnation, known, sigOk, l, r)
  {
  }

  lemma SameNames(st: map<Id, BlockState>, st': map<Id, BlockState>)
    requires st.Keys == st'.Keys
    ensures forall i :: ForkAt(st, i) <==> ForkAt(st', i)
  {
    forall i ensures ForkAt(st, i) <==> ForkAt(st', i) {
      if ForkAt(st, i) {
        var a, b :| a in st && b in st && SameSource(a, b) && a.src == i && a.height == b.height && a != b;
        assert a in st' && b in st' && SameSource(a, b);
      }
      if ForkAt(st', i) {
        var a, b :| a in st' && b in st' && SameSource(a, b) && a.src == i && a.height == b.height && a != b;
        assert a in st && b in st && SameSource(a, b);
      }
    }
  }

  /** Running a block of a calm receiver leaves it calm. */
  lemma CalmRun(cnt: nat, incarnation: nat, sigOk: (Id, nat) -> bool, t: Table, q: seq<Id>, g: Dag, s: Book,
                total: nat, ev: seq<Event>,
                t': Table, s': Book, x: Id)
    requires TableInv(cnt, t, q, g, {x}) && ForkIdsOk(cnt, total, s.ids, t.fork) && EventsOk(cnt, ev, g, s.blamed)
    requires x in t.st && t.st[x] == Initialized && x in t.pend && t.pend[x] == 0 && x !in t.fork
    requires RunOutcome(cnt, incarnation, sigOk, t, s, t', x) && Stamping(t, s, t', s', x) && t'.lk == t.lk
    requires Calm(cnt, incarnation, sigOk, t, s)
    ensures Calm(cnt, incarnation, sigOk, t', s')
  {
    hide TableInv, ForkIdsOk, EventsOk, Stamping, ForkAt, FreshLinks, Acceptable, DepsDelivered;
    CalmAccepts(cnt, incarnation, sigOk, t, q, g, s, total, ev, x);
    SameNames(t.st, t'.st);
    StampKeepsOneFork(cnt, total, t, q, g, s, t', s', x);
    assert t'.payload == t.payload by { StampedPayload(t, s, t', s', x); }
  }

  lemma StampKeepsOneFork(cnt: nat, total: nat, t: Table, q: seq<Id>, g: Dag, s: Book, t': Table, s': Book, x: Id)
    requires TableInv(cnt, t, q, g, {x}) && ForkIdsOk(cnt, total, s.ids, t.fork) && x in t.st && x !in t.fork
    requires OneFork(t.st, s.ids) && Stamping(t, s, t', s', x)
    ensures OneFork(t.st, s'.ids)
  {
    hide HealthOk, RevOk, PendingOk, QueueOk, ClocksOk, GraphOk, NextOk, TablesOk, RunOk, NextFrom;
    assert |s.ids| == cnt;
    if !ForkAt(t.st, x.src) {
      forall y | y in t.st && SameSource(x, y) && x.height == y.height ensures y == x {
      }
      OpensFirst(cnt, total, t, s.ids, x, {x});
    }
  }

  lemma StampedPayload(t: Table, s: Book, t': Table, s': Book, x: Id)
    requires Stamping(t, s, t', s', x)
    ensures t'.payload == t.payload
  {
  }

  /** What passed the checks depends directly on nothing its predecessor depends on. */
  lemma AcceptableIsFresh(cnt: nat, incarnation: nat, sigOk: (Id, nat) -> bool, t: Table, q: seq<Id>, g: Dag,
                          s: Book, ev: seq<Event>, x: Id)
    requires TableInv(cnt, t, q, g, {x}) && EventsOk(cnt, ev, g, s.blamed) && DepsDelivered(t, s, x)
    requires x in t.st && t.st[x] == Initialized && x in t.pend && t.pend[x] == 0
    ensures Acceptable(cnt, incarnation, sigOk, t, s, x) ==>
              forall d | d in t.lk[x].deps :: !Reaches(g, t.lk[x].prev, d)
  {
    hide TableInv, EventsOk, Reaches, LinkOk, ProofOk;
    RunFacts(cnt, t, q, g, x);
    var k := t.lk[x];
    forall i | 0 <= i < |k.deps| && !DepRejected(t, s, k.prev, k.deps[i]) ensures !Reaches(g, k.prev, k.deps[i]) {
      assert IsLink(k, k.deps[i]) && IsLink(k, k.prev);
      TimestampMeansReachable(cnt, t, q, g, {x}, ev, s.blamed, k.prev, k.deps[i]);
    }
  }

  // ---------------------------------------------------------------- the local source while blocks run

  lemma UnharmedLater(t: Table, s: Book, t': Table, s': Book, l: nat)
    requires t'.payload == t.payload
    ensures Unharmed(t, s, l) && (l !in s'.blamed || s'.blamed == s.blamed) ==> Unharmed(t', s', l)
  {
    hide Accuses;
  }

  lemma NoneLocal(st0: map<Id, BlockState>, st1: map<Id, BlockState>, st2: map<Id, BlockState>, x: Id, l: nat)
    ensures st1 == st0 && st2 == st1[x := Delivered] && NoneIll(st2, l) && x in st1 && st1[x] == Initialized ==>
              NoneIll(st1, l)
  {
  }

  /** An own block above all others is entered. */
  lemma UnharmedOwn(t: Table, s: Book, q: seq<Id>, t': Table, s': Book, q': seq<Id>, x: Id, k: Link, pl: Payload,
                    l: nat)
    requires Admitted(t, s, q, t', s', q', x, k, pl) && !Accuses(pl, l)
    requires x.Blk? && x.src == l < |s.at| && x !in t.st && x.height !in s.at[l]
    ensures s'.prepared == s.prepared && (Unharmed(t, s, l) ==> Unharmed(t', s', l))
  {
    hide Accuses;
  }

  // ---------------------------------------------------------------- steps of the queue

  /** The block at the head of the queue has run: it is delivered if and only if it was acceptable. */
  ghost predicate HeadRan(cnt: nat, incarnation: nat, sigOk: (Id, nat) -> bool, t: Table, s: Book, t': Table, x: Id) {
    x in t.st && t.st[x] == Initialized ==>
      && DepsDelivered(t, s, x) && x in t'.st
      && t'.st[x] == if Acceptable(cnt, incarnation, sigOk, t, s, x) then Delivered else Ill
  }

  lemma HeadNow(cnt: nat, incarnation: nat, sigOk: (Id, nat) -> bool, t: Table, s: Book, t': Table, x: Id)
    requires x in t.st && (t.st[x] == Initialized ==> RunOutcome(cnt, incarnation, sigOk, t, s, t', x))
    ensures HeadRan(cnt, incarnation, sigOk, t, s, t', x)
  {
    hide Acceptable, DepsDelivered;
  }

  lemma HeadStays(cnt: nat, incarnation: nat, sigOk: (Id, nat) -> bool, t: Table, s: Book, t1: Table, t2: Table, x: Id)
    requires HeadRan(cnt, incarnation, sigOk, t, s, t1, x) && Evolves(t1.st, t2.st)
    ensures HeadRan(cnt, incarnation, sigOk, t, s, t2, x)
    ensures x in t1.st && t1.st[x] != Initialized && t1.st[x] != None ==> x in t2.st && t2.st[x] == t1.st[x]
  {
    hide Acceptable, DepsDelivered;
  }

  lemma SettledNow(cnt: nat, incarnation: nat, sigOk: (Id, nat) -> bool, t: Table, s: Book, t': Table, x: Id)
    requires x in t.st && t.st[x] == Initialized && RunOutcome(cnt, incarnation, sigOk, t, s, t', x)
    ensures Unsettled(t'.st) < Unsettled(t.st)
  {
    hide Acceptable, DepsDelivered, Unsettled, OnlyInfected, Sickened;
    SettledOne(t.st, t'.st, x);
  }

  // ---------------------------------------------------------------- facts for the methods

  lemma TouchAdds(cnt: nat, t: Table, s: Book, x: Id, pl: Payload, l: nat)
    requires BookInv(cnt, t.st, s, {}, {}) && (x == Root || x.src < cnt)
    ensures Adds(t, s, t, s, {x}, pl, l)
    ensures x != Root && x !in t.st ==> |s.at| == cnt && Adds(t, s, Named(t, x), Noted(s, x), {x}, pl, l)
  {
    hide BookInv, Adds, Named, Noted;
    AddsNothing(t, s, {x}, pl, l);
    if x != Root && x !in t.st {
      NamedAdds(cnt, t, s, x, pl, l);
    }
  }

  /** Some of the links of `k` have been named, for the block `x`. */
  ghost predicate Touching(t0: Table, s0: Book, t: Table, s: Book, x: Id, k: Link, pl: Payload, l: nat) {
    && x in t.st && t.st[x] == None && Evolves(t0.st, t.st) && t.lk == t0.lk && t.db == t0.db && t.payload == t0.payload
    && ((forall y | IsLink(k, y) :: y in t0.st) ==> t == t0 && s == s0)
    && Adds(t0, s0, t, s, LinkSet(k), pl, l)
  }

  lemma TouchingStarts(t: Table, s: Book, x: Id, k: Link, pl: Payload, l: nat)
    requires x in t.st && t.st[x] == None
    ensures Touching(t, s, t, s, x, k, pl, l)
  {
    hide Adds;
    AddsNothing(t, s, LinkSet(k), pl, l);
  }

  lemma TouchingMore(cnt: nat, t0: Table, s0: Book, t: Table, s: Book, x: Id, k: Link, pl: Payload, l: nat, y: Id)
    requires Touching(t0, s0, t, s, x, k, pl, l) && IsLink(k, y) && BookInv(cnt, t.st, s, {}, {})
    requires y == Root || y.src < cnt
    ensures y != Root && y !in t.st ==> |s.at| == cnt && Touching(t0, s0, Named(t, y), Noted(s, y), x, k, pl, l)
  {
    hide Adds, BookInv, Named, Noted, Evolves, IsLink;
    if y != Root && y !in t.st {
      TouchStep(t, y);
      NamedTable(t, y);
      NamedAdds(cnt, t, s, y, pl, l);
      AddsMore(t0, s0, t, s, Named(t, y), Noted(s, y), LinkSet(k), {y}, LinkSet(k), pl, l);
      EvolvesTransitive(t0.st, t.st, Named(t, y).st);
      EvolvesKnows(t0.st, t.st);
    }
  }

  lemma EvolvesKnows(st: map<Id, BlockState>, st': map<Id, BlockState>)
    requires Evolves(st, st')
    ensures forall x | x in st :: x in st'
  {
  }

  lemma TouchingMeans(t0: Table, s0: Book, t: Table, s: Book, x: Id, k: Link, pl: Payload, l: nat)
    requires Touching(t0, s0, t, s, x, k, pl, l)
    ensures x in t.st && t.st[x] == None && Evolves(t0.st, t.st) && t.lk == t0.lk && t.db == t0.db
    ensures t.payload == t0.payload
    ensures (forall y | IsLink(k, y) :: y in t0.st) ==> t == t0 && s == s0
    ensures Adds(t0, s0, t, s, LinkSet(k), pl, l)
  {
    hide Adds, Evolves, IsLink;
  }

  lemma WrittenAdds(t: Table, s: Book, x: Id, pl: Payload, l: nat)
    ensures Adds(t, s, t.(db := t.db + {x}), s, {}, pl, l)
  {
    hide Accuses, ForkKnown;
  }

  lemma ForkedTable(t: Table, x: Id, f: nat, continues: bool)
    requires x in t.lk && x in t.clk && x.Blk?
    ensures var t' := Forked(t, x, f, continues);
            t'.st == t.st && t'.payload == t.payload && t'.fork == t.fork[x := f] &&
            t'.next == if continues then t.next[t.lk[x].prev := x] else t.next
  {
  }

  /** What the delivery of a block tells: of the source its fork proof is against, if that is news, and of the block. */
  ghost predicate Reported(s: Book, s': Book, ev: seq<Event>, ev': seq<Event>, x: Id, n: Node, pl: Payload) {
    if pl.ForkProof? then
      && 0 <= pl.left.src && s'.blamed == s.blamed + {pl.left.src} && s'.forkFound == s.forkFound + {pl.left.src}
      && ev' == ev + (if pl.left.src in s.blamed then [] else [Event.Blame(pl.left.src)]) + [NewBlock(x, n)]
    else s'.blamed == s.blamed && s'.forkFound == s.forkFound && ev' == ev + [NewBlock(x, n)]
  }

  /** A fork id given before makes no difference. */
  lemma ReportedSince(s0: Book, s: Book, s': Book, ev: seq<Event>, ev': seq<Event>, x: Id, n: Node, pl: Payload)
    requires Reported(s, s', ev, ev', x, n, pl) && s.blamed == s0.blamed && s.forkFound == s0.forkFound
    ensures Reported(s0, s', ev, ev', x, n, pl)
  {
  }

  lemma PayloadThere(t: Table, s: Book, x: Id)
    requires DepsDelivered(t, s, x)
    ensures x in t.payload
  {
  }

  lemma ForkedBook(s: Book, s': Book, x: Id)
    requires x.Blk? && x.src < |s.ids| && (s' == s || exists f :: s' == s.(ids := s.ids[x.src := s.ids[x.src] + [f]]))
    ensures SameElsewhere(s, s', x.src)
  {
  }

  /** The delivered blocks that `k` links to are in the tables that the checks look at. */
  lemma DeliveredIsBooked(cnt: nat, t: Table, q: seq<Id>, g: Dag, s: Book, x: Id, k: Link)
    requires TableInv(cnt, t, q, g, {}) && BookInv(cnt, t.st, s, {}, {}) && LinkOk(x, k) && LinksDelivered(t.st, k)
    ensures LinksBooked(t, s, k)
  {
    hide HealthOk, RevOk, PendingOk, QueueOk, NextOk, NextFrom, RunOk, SourcesOk, ReceivedOk, DeliveredOk, Merged;
    BookLength(cnt, t.st, s);
    assert IsLink(k, k.prev);
    forall i | 0 <= i < |k.deps| ensures k.deps[i] in t.fork && k.deps[i].Blk? && k.deps[i].src < |s.ids| {
      assert IsLink(k, k.deps[i]) && k.deps[i] in k.deps;
    }
  }
}
