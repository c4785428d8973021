/**
  The state of the CatChain receiver: what its tables must satisfy between two operations, stated
  on values, and how each elementary change keeps it.
 */
module CatchainState {
  import opened CatchainDag
  import opened Numbers

  datatype BlockState = None | Ill | Initialized | Delivered

  /** The links a block stores when it is initialized. */
  datatype Link = Link(prev: Id, deps: seq<Id>)

  predicate IsLink(k: Link, l: Id) {
    l == k.prev || l in k.deps
  }

  ghost function LinkSet(k: Link): (s: set<Id>)
    ensures forall l :: l in s <==> IsLink(k, l)
  {
    {k.prev} + set d | d in k.deps
  }

  predicate Distinct(s: seq<Id>) {
    forall i, j | 0 <= i < j < |s| :: s[i] != s[j]
  }

  /** Validation guarantees this of the links of every initialized block. */
  ghost predicate LinkOk(x: Id, k: Link) {
    && x.Blk? && Height(k.prev) + 1 == x.height
    && (k.prev.Blk? ==> k.prev.src == x.src)
    && Distinct(k.deps)
    && forall d | d in k.deps :: d.Blk? && d.src != x.src
  }

  // ---------------------------------------------------------------- the parts of the invariant

  /** Exactly the blocks beyond `None` have stored their links. */
  ghost predicate LinksStored(st: map<Id, BlockState>, lk: map<Id, Link>) {
    && Root in st && st[Root] == Delivered && Root !in lk
    && (forall x | x in lk :: x in st && st[x] != None)
    && (forall x | x in st && x != Root && st[x] != None :: x in lk)
  }

  ghost predicate TablesOk(cnt: nat, st: map<Id, BlockState>, lk: map<Id, Link>) {
    && LinksStored(st, lk)
    && (forall x | x in st && x != Root :: x.src < cnt && x.height > 0)
    && (forall x | x in lk :: LinkOk(x, lk[x]))
    && LinksKnown(st, lk)
  }

  ghost predicate LinksKnown(st: map<Id, BlockState>, lk: map<Id, Link>) {
    forall x, l | x in lk && IsLink(lk[x], l) :: l in st
  }

  /**
    Delivery is causal, and illness spreads to everything that links to an ill block; links to the
    blocks of `open`, whose illness is still being passed on, are exempt from the latter.
   */
  ghost predicate HealthOk(st: map<Id, BlockState>, lk: map<Id, Link>, open: set<Id>) {
    forall x, l | x in lk && IsLink(lk[x], l) :: x in st && l in st &&
      (st[x] == Delivered ==> st[l] == Delivered) && (st[l] == Ill && l !in open ==> st[x] == Ill)
  }

  /** `rev[l]` names, once each, the blocks that wait for `l`. */
  ghost predicate RevOk(st: map<Id, BlockState>, lk: map<Id, Link>, rev: map<Id, seq<Id>>) {
    RevShape(st, rev) && RevSound(st, lk, rev) && RevComplete(st, lk, rev)
  }

  ghost predicate RevShape(st: map<Id, BlockState>, rev: map<Id, seq<Id>>) {
    && rev.Keys == st.Keys
    && (forall l | l in rev :: Distinct(rev[l]) && (st[l] == Delivered ==> rev[l] == []))
  }

  ghost predicate RevSound(st: map<Id, BlockState>, lk: map<Id, Link>, rev: map<Id, seq<Id>>) {
    forall l, b | l in rev && b in rev[l] ::
      b in lk && b in st && IsLink(lk[b], l) && (st[b] == Initialized || st[b] == Ill)
  }

  ghost predicate RevComplete(st: map<Id, BlockState>, lk: map<Id, Link>, rev: map<Id, seq<Id>>) {
    forall b, l | b in lk && IsLink(lk[b], l) && b in st && l in st && l in rev ::
      st[b] == Initialized && st[l] != Delivered ==> b in rev[l]
  }

  /** The links of a block that have not been delivered. */
  ghost function Waiting(st: map<Id, BlockState>, k: Link): set<Id> {
    set l | l in {k.prev} + (set d | d in k.deps) && !(l in st && st[l] == Delivered)
  }

  ghost predicate PendingOk(st: map<Id, BlockState>, lk: map<Id, Link>, pend: map<Id, nat>) {
    forall x | x in lk && x in st && st[x] == Initialized :: x in pend && pend[x] == |Waiting(st, lk[x])|
  }

  /** Everything queued meets the checks of `Run`; whatever is ready is queued or, in `run`, about to be delivered. */
  ghost predicate QueueOk(st: map<Id, BlockState>, pend: map<Id, nat>, db: set<Id>, q: seq<Id>, run: set<Id>) {
    && (forall x | x in q ::
       x in st && st[x] != None && x in pend && (st[x] == Initialized ==> pend[x] == 0 && x in db))
    && (forall x | x in st && st[x] == Initialized && x in db && x in pend && pend[x] == 0 && x !in run :: x in q)
  }

  /** `v` is the pointwise maximum of the clocks of the delivered blocks that `k` links to. */
  ghost predicate Merged(g: Dag, k: Link, v: Clock) {
    && (forall l, f: nat | IsLink(k, l) && l in g :: At(g[l].vt, f) <= At(v, f))
    && (forall f: nat | At(v, f) > 0 :: exists l :: IsLink(k, l) && l in g && At(g[l].vt, f) == At(v, f))
  }

  ghost predicate ClocksOk(st: map<Id, BlockState>, lk: map<Id, Link>, clk: map<Id, Clock>, fork: map<Id, nat>,
                           g: Dag) {
    && clk.Keys == st.Keys
    && (forall x | x in st && st[x] == None :: clk[x] == [])
    && (forall x {:trigger Merged(g, lk[x], clk[x])} | x in lk && x in st && st[x] == Initialized && x !in fork ::
       Merged(g, lk[x], clk[x]))
  }

  /** The graph reported upwards is the delivered part of the tables. */
  ghost predicate GraphOk(st: map<Id, BlockState>, lk: map<Id, Link>, clk: map<Id, Clock>, fork: map<Id, nat>, g: Dag) {
    && (forall x :: x in g <==> x in lk && x in st && st[x] == Delivered)
    && (forall x | x in g :: x in fork && x in clk && x in lk && g[x] == Node(lk[x].prev, lk[x].deps, fork[x], clk[x]))
    && Root in clk && clk[Root] == []
  }

  /** Fork ids are handed out once; `next` marks blocks whose fork has been continued. */
  ghost predicate ForkIdsOk(cnt: nat, total: nat, ids: seq<seq<nat>>, fork: map<Id, nat>) {
    && |ids| == cnt
    && (forall s, i | 0 <= s < cnt && 0 <= i < |ids[s]| :: 1 <= ids[s][i] <= total)
    && (forall s, t, i, j | 0 <= s < cnt && 0 <= t < cnt && 0 <= i < |ids[s]| && 0 <= j < |ids[t]| &&
       ids[s][i] == ids[t][j] :: s == t && i == j)
    && (forall x | x in fork :: x.Blk? && x.src < cnt && fork[x] in ids[x.src])
    && (forall s | 0 <= s < cnt && ids[s] != [] :: HasFirst(fork, s))
  }

  ghost predicate HasFirst(fork: map<Id, nat>, s: nat) {
    exists y :: y in fork && y.Blk? && y.src == s && y.height == 1
  }

  lemma FirstStays(fork: map<Id, nat>, x: Id, f: nat, s: nat)
    requires HasFirst(fork, s) || (x.Blk? && x.src == s && x.height == 1)
    ensures HasFirst(fork[x := f], s)
  {
    if HasFirst(fork, s) {
      var y :| y in fork && y.Blk? && y.src == s && y.height == 1;
      assert y in fork[x := f];
    }
  }

  lemma FirstOf(fork: map<Id, nat>, s: nat) returns (y: Id)
    requires HasFirst(fork, s)
    ensures y in fork && y.Blk? && y.src == s && y.height == 1
  {
    y :| y in fork && y.Blk? && y.src == s && y.height == 1;
  }

  /** A block is continued by one of its fork that follows it, as soon as any block follows it. */
  ghost predicate NextFrom(lk: map<Id, Link>, fork: map<Id, nat>, next: map<Id, Id>) {
    && (forall p | p in next ::
       next[p] in fork && next[p] in lk && lk[next[p]].prev == p && p in fork && fork[next[p]] == fork[p])
    && (forall x | x in fork && Height(x) != 1 :: x in lk && lk[x].prev in next)
  }

  ghost predicate NextOk(g: Dag, next: map<Id, Id>) {
    forall x, y | x in g && y in g && g[x].fork == g[y].fork && Height(x) < Height(y) :: x in next
  }

  /**
    The tables of one source that has not been blamed: one fork, one block per height, and the
    heights up to `dh` delivered and up to `rh` received.
   */
  ghost predicate SourceOk(s: nat, st: map<Id, BlockState>, ids: seq<nat>, at: map<int, Id>, dh: nat, rh: nat) {
    && |ids| <= 1
    && (forall x | x in st && x.Blk? && x.src == s :: x.height in at && at[x.height] == x && st[x] != Ill)
    && (forall h | h in at :: at[h] in st && at[h].Blk? && at[h].src == s && at[h].height == h)
    && (forall h | 1 <= h <= dh :: h in at && st[at[h]] == Delivered)
    && (forall h | 1 <= h <= rh :: h in at && (st[at[h]] == Initialized || st[at[h]] == Delivered))
  }

  ghost predicate SourcesOk(cnt: nat, st: map<Id, BlockState>, blamed: set<nat>, ids: seq<seq<nat>>,
                            at: seq<map<int, Id>>, dh: seq<nat>, rh: seq<nat>)
  {
    && |ids| == |at| == |dh| == |rh| == cnt
    && (forall s, h | 0 <= s < cnt && h in at[s] ::
       at[s][h] in st && at[s][h].Blk? && at[s][h].src == s && at[s][h].height == h)
    && (forall s {:trigger SourceOk(s, st, ids[s], at[s], dh[s], rh[s])} | 0 <= s < cnt && s !in blamed ::
          SourceOk(s, st, ids[s], at[s], dh[s], rh[s]))
  }

  /** `rh` and `dh` stop at the first height that is not received, not delivered. */
  ghost predicate ReceivedOk(cnt: nat, st: map<Id, BlockState>, blamed: set<nat>, at: seq<map<int, Id>>,
                             rh: seq<nat>, open: set<nat>) {
    && |at| == |rh| == cnt
    && forall s | 0 <= s < cnt && s !in blamed && s !in open :: NotReceived(st, at[s], rh[s] + 1)
  }

  ghost predicate NotReceived(st: map<Id, BlockState>, at: map<int, Id>, h: nat) {
    h in at && at[h] in st ==> st[at[h]] == None
  }

  ghost predicate DeliveredOk(cnt: nat, st: map<Id, BlockState>, blamed: set<nat>, at: seq<map<int, Id>>,
                              dh: seq<nat>, open: set<nat>) {
    && |at| == |dh| == cnt
    && forall s | 0 <= s < cnt && s !in blamed && s !in open :: NotDelivered(st, at[s], dh[s] + 1)
  }

  ghost predicate NotDelivered(st: map<Id, BlockState>, at: map<int, Id>, h: nat) {
    h in at && at[h] in st ==> st[at[h]] != Delivered
  }

  /** Only the block being delivered may hold a fork id while it is still `Initialized`. */
  ghost predicate RunOk(st: map<Id, BlockState>, lk: map<Id, Link>, fork: map<Id, nat>, run: set<Id>) {
    forall x | x in fork :: x in lk && x in st && (st[x] == Initialized ==> x in run)
  }

  ghost predicate BlocksNamed(cnt: nat, st: map<Id, BlockState>) {
    forall x | x in st && st[x] != Delivered :: x.Blk? && x.src < cnt
  }

  ghost predicate EventsOk(cnt: nat, ev: seq<Event>, g: Dag, blamed: set<nat>) {
    StreamOk(cnt, ev) && DagOf(ev) == g && BlamedOf(ev) == blamed && FreshDag(g)
  }

  // ---------------------------------------------------------------- a block becomes ill

  /** Some initialized blocks turned ill and nothing else changed. */
  ghost predicate Sickened(st: map<Id, BlockState>, st': map<Id, BlockState>) {
    && st'.Keys == st.Keys
    && forall x | x in st :: st'[x] == st[x] || (st[x] == Initialized && st'[x] == Ill)
  }

  /** `y` turned ill between the two states. */
  ghost predicate Fell(st: map<Id, BlockState>, st': map<Id, BlockState>, y: Id) {
    y in st && y in st' && st[y] != Ill && st'[y] == Ill
  }

  /** A block that `y` links to fell ill as well. */
  ghost predicate Infected(st: map<Id, BlockState>, st': map<Id, BlockState>, lk: map<Id, Link>, y: Id) {
    exists l :: Fell(st, st', l) && y in lk && IsLink(lk[y], l)
  }

  ghost predicate OnlyInfected(st: map<Id, BlockState>, st': map<Id, BlockState>, lk: map<Id, Link>, x: Id) {
    forall y {:trigger Infected(st, st', lk, y)} | Fell(st, st', y) && y != x :: Infected(st, st', lk, y)
  }

  /** Whatever fell ill, except the blocks of `open`, has passed it on. */
  ghost predicate Spread(st: map<Id, BlockState>, st': map<Id, BlockState>, rev: map<Id, seq<Id>>, open: set<Id>) {
    forall y, b | Fell(st, st', y) && y !in open && y in rev && b in rev[y] :: b in st' && st'[b] == Ill
  }

  ghost function Healthy(st: map<Id, BlockState>): set<Id> {
    set y | y in st && st[y] != Ill
  }

  ghost predicate FallenBlamed(st: map<Id, BlockState>, st': map<Id, BlockState>, blamed: set<nat>) {
    forall y | Fell(st, st', y) :: y.Blk? && y.src in blamed
  }

  /** Blaming a source clears its table of blocks and touches no other source. */
  ghost predicate Cleared(at: seq<map<int, Id>>, at': seq<map<int, Id>>, blamed: set<nat>, blamed': set<nat>) {
    && |at'| == |at| && blamed <= blamed'
    && (forall t | 0 <= t < |at| && t !in blamed' :: at'[t] == at[t])
    && (forall t | 0 <= t < |at| :: at'[t] == at[t] || at'[t] == map[])
  }

  lemma ClearedSame(at: seq<map<int, Id>>, blamed: set<nat>)
    ensures Cleared(at, at, blamed, blamed)
  {
  }

  lemma ClearedChain(a0: seq<map<int, Id>>, a1: seq<map<int, Id>>, a2: seq<map<int, Id>>, b0: set<nat>, b1: set<nat>,
                     b2: set<nat>)
    requires Cleared(a0, a1, b0, b1) && Cleared(a1, a2, b1, b2)
    ensures Cleared(a0, a2, b0, b2) && |a2| == |a1| && b1 <= b2
  {
  }

  lemma NamedBlock(cnt: nat, st: map<Id, BlockState>, x: Id)
    requires BlocksNamed(cnt, st) && x in st && st[x] == Initialized
    ensures x.Blk? && x.src < cnt
  {
  }

  lemma SickenedTables(st: map<Id, BlockState>, st': map<Id, BlockState>)
    requires Sickened(st, st')
    ensures st'.Keys == st.Keys && forall x | x in st && st[x] == Ill :: st'[x] == Ill
  {
  }

  lemma IllStart(cnt: nat, st: map<Id, BlockState>, lk: map<Id, Link>, rev: map<Id, seq<Id>>, x: Id, blamed: set<nat>)
    requires x in st && st[x] == Initialized && x.Blk? && x.src in blamed
    ensures Sickened(st, st[x := Ill]) && Fell(st, st[x := Ill], x)
    ensures Spread(st, st[x := Ill], rev, {x}) && OnlyInfected(st, st[x := Ill], lk, x)
    ensures FallenBlamed(st, st[x := Ill], blamed) && Healthy(st[x := Ill]) < Healthy(st)
  {
    assert x in Healthy(st) && x !in Healthy(st[x := Ill]);
  }

  lemma IllNext(cnt: nat, st: map<Id, BlockState>, st': map<Id, BlockState>, lk: map<Id, Link>,
                rev: map<Id, seq<Id>>, x: Id, b: Id)
    requires Sickened(st, st') && RevSound(st, lk, rev) && BlocksNamed(cnt, st) && x in rev && b in rev[x]
    ensures RevSound(st', lk, rev) && BlocksNamed(cnt, st')
    ensures b in lk && IsLink(lk[b], x) && b in st' && (st'[b] == Initialized || st'[b] == Ill)
  {
  }

  lemma IllEnd(st: map<Id, BlockState>, st': map<Id, BlockState>, rev: map<Id, seq<Id>>, x: Id)
    requires Spread(st, st', rev, {x}) && x in rev && IllUpTo(st', rev[x], |rev[x]|)
    ensures Spread(st, st', rev, {}) && forall b | b in rev[x] :: b in st' && st'[b] == Ill
  {
  }

  /** The first `i` of `ws` are ill. */
  ghost predicate IllUpTo(st: map<Id, BlockState>, ws: seq<Id>, i: nat) {
    forall j | 0 <= j < i && j < |ws| :: ws[j] in st && st[ws[j]] == Ill
  }

  lemma IllUpToNext(st: map<Id, BlockState>, st': map<Id, BlockState>, ws: seq<Id>, i: nat)
    requires IllUpTo(st, ws, i) && Sickened(st, st') && i < |ws| && ws[i] in st' && st'[ws[i]] == Ill
    ensures IllUpTo(st', ws, i + 1)
  {
  }

  lemma IllUpToStart(st: map<Id, BlockState>, ws: seq<Id>)
    ensures IllUpTo(st, ws, 0)
  {
  }

  lemma IllSame(st: map<Id, BlockState>, lk: map<Id, Link>, rev: map<Id, seq<Id>>, x: Id, blamed: set<nat>)
    ensures Sickened(st, st) && Spread(st, st, rev, {}) && OnlyInfected(st, st, lk, x) && FallenBlamed(st, st, blamed)
  {
  }

  lemma BlameAppends(cnt: nat, ev: seq<Event>, g: Dag, blamed: set<nat>, s: nat)
    requires EventsOk(cnt, ev, g, blamed) && s < cnt && s !in blamed
    ensures EventsOk(cnt, ev + [Event.Blame(s)], g, blamed + {s})
  {
    assert (ev + [Event.Blame(s)])[..|ev|] == ev;
  }

  /** Two falls in a row, the second started from `b`, which links to `x`. */
  lemma SickenedChain(s0: map<Id, BlockState>, s1: map<Id, BlockState>, s2: map<Id, BlockState>, lk: map<Id, Link>,
                      rev: map<Id, seq<Id>>, x: Id, b: Id, blamed: set<nat>, blamed': set<nat>)
    requires Sickened(s0, s1) && Sickened(s1, s2) && Spread(s0, s1, rev, {x}) && Spread(s1, s2, rev, {})
    requires Fell(s0, s1, x) && b in lk && IsLink(lk[b], x)
    requires OnlyInfected(s0, s1, lk, x) && OnlyInfected(s1, s2, lk, b)
    ensures Sickened(s0, s2) && Spread(s0, s2, rev, {x}) && OnlyInfected(s0, s2, lk, x)
    ensures Healthy(s2) <= Healthy(s1) && Fell(s0, s2, x)
    ensures FallenBlamed(s0, s1, blamed) && FallenBlamed(s1, s2, blamed') && blamed <= blamed' ==>
              FallenBlamed(s0, s2, blamed')
  {
    assert forall y :: Fell(s0, s2, y) <==> Fell(s0, s1, y) || Fell(s1, s2, y);
    forall y | Fell(s0, s2, y) && y != x ensures Infected(s0, s2, lk, y) {
      if Fell(s0, s1, y) {
        assert Infected(s0, s1, lk, y);
        var l :| Fell(s0, s1, l) && y in lk && IsLink(lk[y], l);
        assert Fell(s0, s2, l);
      } else if y == b {
        assert Fell(s0, s2, x);
      } else {
        assert Infected(s1, s2, lk, y);
        var l :| Fell(s1, s2, l) && y in lk && IsLink(lk[y], l);
        assert Fell(s0, s2, l);
      }
    }
  }

  lemma SickenedKeepsHealth(st: map<Id, BlockState>, st': map<Id, BlockState>, lk: map<Id, Link>,
                            rev: map<Id, seq<Id>>, open: set<Id>)
    requires LinksStored(st, lk) && HealthOk(st, lk, open) && RevComplete(st, lk, rev)
    requires rev.Keys == st.Keys && Sickened(st, st')
    requires Spread(st, st', rev, {})
    requires forall y, b | y in open && y in rev && b in rev[y] :: b in st' && st'[b] == Ill
    ensures HealthOk(st', lk, {})
  {
    hide IsLink, Spread, Fell;
    forall x, l | x in lk && IsLink(lk[x], l)
      ensures x in st' && l in st' && (st'[x] == Delivered ==> st'[l] == Delivered) && (st'[l] == Ill ==> st'[x] == Ill)
    {
      if st'[l] == Ill && (st[l] != Ill || l in open) && st[x] == Initialized {
        assert x in rev[l];
        SpreadTo(st, st', rev, l, x);
      }
    }
  }

  lemma SpreadTo(st: map<Id, BlockState>, st': map<Id, BlockState>, rev: map<Id, seq<Id>>, l: Id, b: Id)
    requires Spread(st, st', rev, {}) && l in st && l in st' && l in rev && b in rev[l]
    ensures st[l] != Ill && st'[l] == Ill ==> b in st' && st'[b] == Ill
  {
    assert st[l] != Ill && st'[l] == Ill ==> Fell(st, st', l);
  }

  lemma SickenedKeepsPending(st: map<Id, BlockState>, st': map<Id, BlockState>, lk: map<Id, Link>, pend: map<Id, nat>)
    requires Sickened(st, st') && PendingOk(st, lk, pend)
    ensures PendingOk(st', lk, pend)
  {
    forall x | x in lk && x in st' && st'[x] == Initialized
      ensures x in pend && pend[x] == |Waiting(st', lk[x])|
    {
      assert Waiting(st', lk[x]) == Waiting(st, lk[x]);
    }
  }

  lemma SickenedKeepsRest(cnt: nat, st: map<Id, BlockState>, st': map<Id, BlockState>, lk: map<Id, Link>,
                          rev: map<Id, seq<Id>>,
                          pend: map<Id, nat>, db: set<Id>, q: seq<Id>, run: set<Id>)
    requires Sickened(st, st')
    ensures TablesOk(cnt, st, lk) ==> TablesOk(cnt, st', lk)
    ensures RevOk(st, lk, rev) ==> RevOk(st', lk, rev)
    ensures QueueOk(st, pend, db, q, run) ==> QueueOk(st', pend, db, q, run)
  {
  }

  lemma SickenedKeepsGraph(st: map<Id, BlockState>, st': map<Id, BlockState>, lk: map<Id, Link>,
                           clk: map<Id, Clock>, fork: map<Id, nat>, g: Dag)
    requires Sickened(st, st') && ClocksOk(st, lk, clk, fork, g) && GraphOk(st, lk, clk, fork, g)
    ensures ClocksOk(st', lk, clk, fork, g) && GraphOk(st', lk, clk, fork, g)
  {
  }

  /** Only blocks of blamed sources changed. */
  ghost predicate SparesUnblamed(st: map<Id, BlockState>, st': map<Id, BlockState>, blamed: set<nat>) {
    && st'.Keys == st.Keys
    && forall x | x in st && x.Blk? && x.src !in blamed :: st'[x] == st[x]
  }

  lemma SickenedSpares(st: map<Id, BlockState>, st': map<Id, BlockState>, blamed: set<nat>)
    requires Sickened(st, st') && FallenBlamed(st, st', blamed)
    ensures SparesUnblamed(st, st', blamed)
  {
    forall x | x in st && x.Blk? && x.src !in blamed ensures st'[x] == st[x] {
      assert !Fell(st, st', x);
    }
  }

  lemma SparedSources(cnt: nat, st: map<Id, BlockState>, st': map<Id, BlockState>, blamed: set<nat>, blamed': set<nat>,
                      ids: seq<seq<nat>>, at: seq<map<int, Id>>, at': seq<map<int, Id>>, dh: seq<nat>, rh: seq<nat>)
    requires SourcesOk(cnt, st, blamed, ids, at, dh, rh) && SparesUnblamed(st, st', blamed')
    requires Cleared(at, at', blamed, blamed')
    ensures SourcesOk(cnt, st', blamed', ids, at', dh, rh)
  {
    forall s | 0 <= s < cnt && s !in blamed' ensures SourceOk(s, st', ids[s], at'[s], dh[s], rh[s]) {
      assert SourceOk(s, st, ids[s], at[s], dh[s], rh[s]);
    }
  }

  lemma SparedHeights(cnt: nat, st: map<Id, BlockState>, st': map<Id, BlockState>, blamed: set<nat>, blamed': set<nat>,
                      ids: seq<seq<nat>>, at: seq<map<int, Id>>, at': seq<map<int, Id>>, dh: seq<nat>, rh: seq<nat>)
    requires SourcesOk(cnt, st, blamed, ids, at, dh, rh) && ReceivedOk(cnt, st, blamed, at, rh, {})
    requires DeliveredOk(cnt, st, blamed, at, dh, {})
    requires SparesUnblamed(st, st', blamed') && Cleared(at, at', blamed, blamed')
    ensures ReceivedOk(cnt, st', blamed', at', rh, {}) && DeliveredOk(cnt, st', blamed', at', dh, {})
  {
    forall s | 0 <= s < cnt && s !in blamed'
      ensures NotReceived(st', at'[s], rh[s] + 1) && NotDelivered(st', at'[s], dh[s] + 1)
    {
      assert SourceOk(s, st, ids[s], at[s], dh[s], rh[s]);
      assert NotReceived(st, at[s], rh[s] + 1) && NotDelivered(st, at[s], dh[s] + 1);
    }
  }

  // ---------------------------------------------------------------- an unknown block gets a name

  lemma AddedNameKeepsTables(cnt: nat, st: map<Id, BlockState>, lk: map<Id, Link>, x: Id)
    requires TablesOk(cnt, st, lk) && HealthOk(st, lk, {})
    requires x !in st && x.Blk? && x.src < cnt && x.height > 0
    ensures TablesOk(cnt, st[x := None], lk) && HealthOk(st[x := None], lk, {})
  {
  }

  lemma AddedNameKeepsRev(cnt: nat, st: map<Id, BlockState>, lk: map<Id, Link>, rev: map<Id, seq<Id>>, x: Id)
    requires TablesOk(cnt, st, lk) && RevOk(st, lk, rev) && x !in st && x.Blk?
    ensures RevOk(st[x := None], lk, rev[x := []])
  {
    var st', rev' := st[x := None], rev[x := []];
    assert RevSound(st', lk, rev') by {
      forall l, b | l in rev' && b in rev'[l]
        ensures b in lk && b in st' && IsLink(lk[b], l) && (st'[b] == Initialized || st'[b] == Ill)
      {
        assert l != x && b in rev[l];
      }
    }
  }

  lemma AddedNameKeepsPending(cnt: nat, st: map<Id, BlockState>, lk: map<Id, Link>, x: Id, pend: map<Id, nat>,
                              db: set<Id>, q: seq<Id>, run: set<Id>)
    requires TablesOk(cnt, st, lk) && x !in st && x.Blk? && PendingOk(st, lk, pend) && QueueOk(st, pend, db, q, run)
    ensures PendingOk(st[x := None], lk, pend[x := 0]) && QueueOk(st[x := None], pend[x := 0], db, q, run)
  {
    var st', pend' := st[x := None], pend[x := 0];
    forall y | y in lk && y in st' && st'[y] == Initialized
      ensures y in pend' && pend'[y] == |Waiting(st', lk[y])|
    {
      assert Waiting(st', lk[y]) == Waiting(st, lk[y]);
    }
  }

  lemma AddedNameKeepsGraph(cnt: nat, st: map<Id, BlockState>, lk: map<Id, Link>, x: Id, clk: map<Id, Clock>,
                            fork: map<Id, nat>, g: Dag)
    requires TablesOk(cnt, st, lk) && x !in st && x.Blk? && ClocksOk(st, lk, clk, fork, g)
    requires GraphOk(st, lk, clk, fork, g)
    ensures ClocksOk(st[x := None], lk, clk[x := []], fork, g) && GraphOk(st[x := None], lk, clk[x := []], fork, g)
  {
    hide Merged, LinkOk, IsLink, LinksKnown;
    var st', clk' := st[x := None], clk[x := []];
    forall y | y in lk && y in st' && st'[y] == Initialized && y !in fork ensures Merged(g, lk[y], clk'[y]) {
      assert Merged(g, lk[y], clk[y]);
    }
  }

  lemma AddedNameKeepsRun(st: map<Id, BlockState>, lk: map<Id, Link>, fork: map<Id, nat>, x: Id, run: set<Id>)
    requires RunOk(st, lk, fork, run)
    ensures RunOk(st[x := None], lk, fork, run)
  {
  }

  // ---------------------------------------------------------------- a block is initialized

  /** Pointwise maximum. */
  function Merge(a: Clock, b: Clock): (c: Clock)
    ensures |c| == Max(|a|, |b|)
    ensures forall f: nat :: At(c, f) == Max(At(a, f), At(b, f))
  {
    seq(Max(|a|, |b|), f requires 0 <= f => Max(At(a, f), At(b, f)))
  }

  /** Adding one more link: its clock is merged in when it has been delivered. */
  lemma MergedAdd(g: Dag, p: Id, ds: seq<Id>, d: Id, v: Clock)
    requires Merged(g, Link(p, ds), v)
    ensures d in g ==> Merged(g, Link(p, ds + [d]), Merge(v, g[d].vt))
    ensures d !in g ==> Merged(g, Link(p, ds + [d]), v)
  {
    var k, k' := Link(p, ds), Link(p, ds + [d]);
    forall l ensures IsLink(k', l) <==> IsLink(k, l) || l == d { }
    if d in g {
      var w := Merge(v, g[d].vt);
      forall f: nat | At(w, f) > 0
        ensures exists l :: IsLink(k', l) && l in g && At(g[l].vt, f) == At(w, f)
      {
        if At(v, f) <= At(g[d].vt, f) {
          assert IsLink(k', d);
        } else {
          var l :| IsLink(k, l) && l in g && At(g[l].vt, f) == At(v, f);
          assert IsLink(k', l);
        }
      }
    } else {
      forall f: nat | At(v, f) > 0
        ensures exists l :: IsLink(k', l) && l in g && At(g[l].vt, f) == At(v, f)
      {
        var l :| IsLink(k, l) && l in g && At(g[l].vt, f) == At(v, f);
        assert IsLink(k', l);
      }
    }
  }

  lemma WaitingAdd(st: map<Id, BlockState>, p: Id, ds: seq<Id>, d: Id)
    requires d != p && d !in ds
    ensures |Waiting(st, Link(p, ds + [d]))|
              == |Waiting(st, Link(p, ds))| + if d in st && st[d] == Delivered then 0 else 1
  {
    var a, b := Waiting(st, Link(p, ds)), Waiting(st, Link(p, ds + [d]));
    if d in st && st[d] == Delivered {
      assert a == b;
    } else {
      assert b == a + {d};
    }
  }

  lemma MergeEmpty(v: Clock)
    ensures Merge(v, []) == v
  {
  }

  lemma PrevLink(k: Link)
    ensures IsLink(k, k.prev)
  {
  }

  lemma NextLink(x: Id, k: Link, i: nat)
    requires LinkOk(x, k) && i < |k.deps|
    ensures IsLink(k, k.deps[i]) && k.deps[i] != k.prev && k.deps[i] !in k.deps[..i] && k.deps[i] != x
    ensures k.deps[..i + 1] == k.deps[..i] + [k.deps[i]]
  {
  }

  lemma MergedFirst(g: Dag, p: Id)
    ensures p in g ==> Merged(g, Link(p, []), Merge([], g[p].vt))
    ensures p !in g ==> Merged(g, Link(p, []), [])
  {
    if p in g {
      assert IsLink(Link(p, []), p);
    }
  }

  lemma WaitingFirst(st: map<Id, BlockState>, p: Id)
    ensures |Waiting(st, Link(p, []))| == if p in st && st[p] == Delivered then 0 else 1
  {
    assert Waiting(st, Link(p, [])) == if p in st && st[p] == Delivered then {} else {p};
  }

  lemma RegisteredFirst(st: map<Id, BlockState>, rev: map<Id, seq<Id>>, p: Id, x: Id)
    requires p in rev
    ensures p in st && st[p] == Delivered ==> Registered(st, rev, rev, Link(p, []), x)
    ensures !(p in st && st[p] == Delivered) ==> Registered(st, rev, rev[p := rev[p] + [x]], Link(p, []), x)
  {
  }

  lemma RegisteredAdd(st: map<Id, BlockState>, rev: map<Id, seq<Id>>, rev': map<Id, seq<Id>>, p: Id, ds: seq<Id>,
                      d: Id, x: Id)
    requires Registered(st, rev, rev', Link(p, ds), x) && d != p && d !in ds && d in rev
    ensures d in st && st[d] == Delivered ==> Registered(st, rev, rev', Link(p, ds + [d]), x)
    ensures !(d in st && st[d] == Delivered) ==> Registered(st, rev, rev'[d := rev'[d] + [x]], Link(p, ds + [d]), x)
  {
    forall l ensures IsLink(Link(p, ds + [d]), l) <==> IsLink(Link(p, ds), l) || l == d { }
  }

  lemma InitializedKeepsTables(cnt: nat, st: map<Id, BlockState>, lk: map<Id, Link>, x: Id, k: Link, s: BlockState)
    requires TablesOk(cnt, st, lk) && HealthOk(st, lk, {}) && x in st && st[x] == None && LinkOk(x, k)
    requires forall l | IsLink(k, l) :: l in st
    requires s == Ill || (s == Initialized && forall l | IsLink(k, l) :: st[l] != Ill)
    ensures TablesOk(cnt, st[x := s], lk[x := k]) && HealthOk(st[x := s], lk[x := k], {x})
    ensures s == Initialized ==> HealthOk(st[x := s], lk[x := k], {})
  {
    assert x !in lk;
  }

  /** `rev'` is `rev` with `x` added to every undelivered block it links to. */
  ghost predicate Registered(st: map<Id, BlockState>, rev: map<Id, seq<Id>>, rev': map<Id, seq<Id>>, k: Link, x: Id) {
    && rev'.Keys == rev.Keys
    && forall l | l in rev :: rev'[l] == if IsLink(k, l) && !(l in st && st[l] == Delivered) then rev[l] + [x]
       else rev[l]
  }

  lemma InitializedKeepsRev(st: map<Id, BlockState>, lk: map<Id, Link>, rev: map<Id, seq<Id>>,
                            rev': map<Id, seq<Id>>, x: Id, k: Link)
    requires LinksStored(st, lk) && RevOk(st, lk, rev) && x in st && st[x] == None && Registered(st, rev, rev', k, x)
    ensures RevOk(st[x := Initialized], lk[x := k], rev')
  {
    hide RevShape, RevSound, RevComplete, Registered, LinksStored;
    InitializedKeepsRevShape(st, lk, rev, rev', x, k);
    InitializedKeepsRevSound(st, lk, rev, rev', x, k);
    InitializedKeepsRevComplete(st, lk, rev, rev', x, k);
  }

  lemma InitializedKeepsRevShape(st: map<Id, BlockState>, lk: map<Id, Link>, rev: map<Id, seq<Id>>,
                                 rev': map<Id, seq<Id>>, x: Id, k: Link)
    requires LinksStored(st, lk) && RevShape(st, rev) && RevSound(st, lk, rev)
    requires x in st && st[x] == None && Registered(st, rev, rev', k, x)
    ensures RevShape(st[x := Initialized], rev')
  {
    hide Distinct, IsLink;
    forall l | l in rev' ensures Distinct(rev'[l]) && (st[x := Initialized][l] == Delivered ==> rev'[l] == []) {
      assert l in rev && x !in rev[l];
      DistinctMore(rev[l], x);
    }
  }

  lemma DistinctMore(s: seq<Id>, x: Id)
    requires Distinct(s) && x !in s
    ensures Distinct(s + [x])
  {
  }

  lemma InitializedKeepsRevSound(st: map<Id, BlockState>, lk: map<Id, Link>, rev: map<Id, seq<Id>>,
                                 rev': map<Id, seq<Id>>, x: Id, k: Link)
    requires LinksStored(st, lk) && RevSound(st, lk, rev) && x in st && st[x] == None && Registered(st, rev, rev', k, x)
    ensures RevSound(st[x := Initialized], lk[x := k], rev')
  {
    assert x !in lk;
    forall l, b | l in rev' && b in rev'[l]
      ensures b in lk[x := k] && b in st[x := Initialized] && IsLink(lk[x := k][b], l)
      ensures st[x := Initialized][b] == Initialized || st[x := Initialized][b] == Ill
    {
      hide RevSound, Registered, LinksStored, IsLink;
      RegisteredAt(st, rev, rev', k, x, l, b);
      if b in rev[l] {
        RevSoundAt(st, lk, rev, l, b);
      }
    }
  }

  lemma RegisteredAt(st: map<Id, BlockState>, rev: map<Id, seq<Id>>, rev': map<Id, seq<Id>>, k: Link, x: Id, l: Id,
                     b: Id)
    requires Registered(st, rev, rev', k, x) && l in rev' && b in rev'[l]
    ensures l in rev && (b in rev[l] || (b == x && IsLink(k, l)))
  {
    hide IsLink;
    assert l in rev;
  }

  lemma RevSoundAt(st: map<Id, BlockState>, lk: map<Id, Link>, rev: map<Id, seq<Id>>, l: Id, b: Id)
    requires RevSound(st, lk, rev) && l in rev && b in rev[l]
    ensures b in lk && b in st && IsLink(lk[b], l) && (st[b] == Initialized || st[b] == Ill)
  {
  }

  lemma InitializedKeepsRevComplete(st: map<Id, BlockState>, lk: map<Id, Link>, rev: map<Id, seq<Id>>,
                                    rev': map<Id, seq<Id>>, x: Id, k: Link)
    requires LinksStored(st, lk) && RevComplete(st, lk, rev) && x in st && st[x] == None
    requires Registered(st, rev, rev', k, x)
    ensures RevComplete(st[x := Initialized], lk[x := k], rev')
  {
    var st', lk' := st[x := Initialized], lk[x := k];
    forall b, l | b in lk' && IsLink(lk'[b], l) && b in st' && l in st' && l in rev' && st'[b] == Initialized &&
      st'[l] != Delivered
      ensures b in rev'[l]
    {
      if b != x { assert b in rev[l]; }
    }
  }

  lemma IllKeepsRev(st: map<Id, BlockState>, lk: map<Id, Link>, rev: map<Id, seq<Id>>, x: Id, k: Link)
    requires LinksStored(st, lk) && RevOk(st, lk, rev) && x in st && st[x] == None
    ensures RevOk(st[x := Ill], lk[x := k], rev)
  {
    assert x !in lk;
    assert RevSound(st[x := Ill], lk[x := k], rev);
  }

  lemma InitializedKeepsPending(st: map<Id, BlockState>, lk: map<Id, Link>, pend: map<Id, nat>, x: Id, k: Link,
                                s: BlockState, m: nat)
    requires LinksStored(st, lk) && PendingOk(st, lk, pend) && x in st && st[x] == None
    requires s == Ill || (s == Initialized && m == |Waiting(st, k)| && !IsLink(k, x))
    ensures PendingOk(st[x := s], lk[x := k], pend[x := m])
  {
    var st' := st[x := s];
    assert x !in lk;
    forall y | y in lk && st[y] == Initialized ensures Waiting(st', lk[y]) == Waiting(st, lk[y]) { }
    if s == Initialized {
      assert Waiting(st', k) == Waiting(st, k);
    }
  }

  lemma InitializedKeepsGraph(st: map<Id, BlockState>, lk: map<Id, Link>, clk: map<Id, Clock>, fork: map<Id, nat>,
                              g: Dag,
                              x: Id, k: Link, s: BlockState, v: Clock)
    requires LinksStored(st, lk) && ClocksOk(st, lk, clk, fork, g) && GraphOk(st, lk, clk, fork, g)
    requires x in st && st[x] == None
    requires s == Ill || (s == Initialized && Merged(g, k, v))
    ensures ClocksOk(st[x := s], lk[x := k], clk[x := v], fork, g)
    ensures GraphOk(st[x := s], lk[x := k], clk[x := v], fork, g)
  {
    hide Merged;
    assert x !in lk;
    InitializedKeepsClocks(st, lk, clk, fork, g, x, k, s, v);
    assert x !in g;
  }

  lemma InitializedKeepsClocks(st: map<Id, BlockState>, lk: map<Id, Link>, clk: map<Id, Clock>, fork: map<Id, nat>,
                               g: Dag,
                               x: Id, k: Link, s: BlockState, v: Clock)
    requires ClocksOk(st, lk, clk, fork, g) && x in st && st[x] == None
    requires s == Ill || (s == Initialized && Merged(g, k, v))
    ensures ClocksOk(st[x := s], lk[x := k], clk[x := v], fork, g)
  {
    hide Merged;
    var st', lk', clk' := st[x := s], lk[x := k], clk[x := v];
    forall y | y in lk' && y in st' && st'[y] == Initialized && y !in fork ensures Merged(g, lk'[y], clk'[y]) {
      if y != x { assert Merged(g, lk[y], clk[y]); }
    }
  }

  lemma InitializedKeepsQueue(st: map<Id, BlockState>, pend: map<Id, nat>, db: set<Id>, q: seq<Id>, x: Id, m: nat)
    requires QueueOk(st, pend, db, q, {}) && x in st && st[x] == None
    ensures QueueOk(st[x := Initialized], pend[x := m], db, if m == 0 && x in db then q + [x] else q, {})
  {
  }

  lemma InitializedKeepsRun(st: map<Id, BlockState>, lk: map<Id, Link>, fork: map<Id, nat>, x: Id, k: Link)
    requires RunOk(st, lk, fork, {}) && x !in lk
    ensures RunOk(st[x := Initialized], lk[x := k], fork, {})
  {
  }

  /** A block that is found ill while it is initialized. */
  lemma IllAtOnce(st: map<Id, BlockState>, st': map<Id, BlockState>, rev: map<Id, seq<Id>>, x: Id, blamed: set<nat>)
    requires x in st && st[x] == None && x.Blk?
    requires Sickened(st[x := Initialized], st') && st'[x] == Ill && Spread(st[x := Initialized], st', rev, {})
    requires FallenBlamed(st[x := Initialized], st', blamed)
    ensures Sickened(st[x := Ill], st') && Spread(st[x := Ill], st', rev, {}) && SparesUnblamed(st, st', blamed)
  {
    var s1 := st[x := Initialized];
    assert Fell(s1, st', x);
    forall y | Fell(st[x := Ill], st', y) ensures Fell(s1, st', y) { }
    forall y | y in st && y.Blk? && y.src !in blamed ensures st'[y] == st[y] {
      assert !Fell(s1, st', y);
    }
  }

  lemma IllAtOnceKeepsRest(st: map<Id, BlockState>, lk: map<Id, Link>, fork: map<Id, nat>, pend: map<Id, nat>,
                           db: set<Id>, q: seq<Id>, x: Id, k: Link)
    requires RunOk(st, lk, fork, {}) && QueueOk(st, pend, db, q, {}) && x !in lk
    ensures RunOk(st[x := Ill], lk[x := k], fork, {}) && QueueOk(st[x := Ill], pend, db, q, {})
  {
  }

  lemma SickenedKeepsRun(st: map<Id, BlockState>, st': map<Id, BlockState>, lk: map<Id, Link>, fork: map<Id, nat>,
                         run: set<Id>)
    requires RunOk(st, lk, fork, run) && Sickened(st, st')
    ensures RunOk(st', lk, fork, run)
    ensures forall x | x in st' && st'[x] == Ill :: RunOk(st', lk, fork, run - {x})
  {
  }

  // ---------------------------------------------------------------- a block is delivered

  lemma DeliveredKeepsHealth(cnt: nat, st: map<Id, BlockState>, lk: map<Id, Link>, x: Id)
    requires TablesOk(cnt, st, lk) && HealthOk(st, lk, {}) && x in lk && st[x] == Initialized
    requires forall l | IsLink(lk[x], l) :: l in st && st[l] == Delivered
    ensures TablesOk(cnt, st[x := Delivered], lk) && HealthOk(st[x := Delivered], lk, {})
  {
  }

  lemma DeliveredKeepsRev(st: map<Id, BlockState>, lk: map<Id, Link>, rev: map<Id, seq<Id>>, x: Id)
    requires LinksStored(st, lk) && RevOk(st, lk, rev) && x in lk && st[x] == Initialized
    requires forall l | IsLink(lk[x], l) :: l in st && st[l] == Delivered
    ensures RevOk(st[x := Delivered], lk, rev[x := []])
  {
    var st', rev' := st[x := Delivered], rev[x := []];
    DeliveredRevSound(st, lk, rev, x);
    assert RevComplete(st', lk, rev');
  }

  lemma DeliveredRevSound(st: map<Id, BlockState>, lk: map<Id, Link>, rev: map<Id, seq<Id>>, x: Id)
    requires LinksStored(st, lk) && RevOk(st, lk, rev) && x in lk && st[x] == Initialized
    requires forall l | IsLink(lk[x], l) :: l in st && st[l] == Delivered
    ensures RevSound(st[x := Delivered], lk, rev[x := []]) && RevShape(st[x := Delivered], rev[x := []])
  {
    hide IsLink, Distinct, RevComplete;
    var st', rev' := st[x := Delivered], rev[x := []];
    forall l, b | l in rev' && b in rev'[l]
      ensures b in lk && b in st' && IsLink(lk[b], l) && (st'[b] == Initialized || st'[b] == Ill)
    {
      assert l in rev && b in rev[l];
    }
  }

  /** Each waiting block has counted down once. */
  ghost predicate Counted(st: map<Id, BlockState>, waiting: seq<Id>, pend: map<Id, nat>, pend': map<Id, nat>) {
    && pend'.Keys == pend.Keys
    && forall y | y in pend :: pend'[y] + (if y in waiting && y in st && st[y] == Initialized then 1 else 0) == pend[y]
  }

  /** Each waiting block has merged the clock `v`. */
  ghost predicate Updated(st: map<Id, BlockState>, waiting: seq<Id>, clk: map<Id, Clock>, clk': map<Id, Clock>,
                          v: Clock) {
    && clk'.Keys == clk.Keys
    && forall y | y in clk :: clk'[y] == if y in waiting && y in st && st[y] == Initialized then Merge(clk[y], v)
       else clk[y]
  }

  lemma WaitingDrop(st: map<Id, BlockState>, k: Link, x: Id)
    requires x in st && st[x] != Delivered
    ensures Waiting(st[x := Delivered], k) == Waiting(st, k) - {x}
    ensures |Waiting(st[x := Delivered], k)| == |Waiting(st, k)| - if IsLink(k, x) then 1 else 0
  {
    assert Waiting(st[x := Delivered], k) == Waiting(st, k) - {x};
    if IsLink(k, x) { assert x in Waiting(st, k); }
  }

  lemma DeliveredKeepsPending(st: map<Id, BlockState>, lk: map<Id, Link>, waiting: seq<Id>, x: Id,
                              pend: map<Id, nat>, pend': map<Id, nat>)
    requires PendingOk(st, lk, pend) && x in st && st[x] == Initialized && Counted(st, waiting, pend, pend')
    requires forall y | y in st && st[y] == Initialized && y in lk :: y in waiting <==> IsLink(lk[y], x)
    ensures PendingOk(st[x := Delivered], lk, pend')
  {
    var st' := st[x := Delivered];
    forall y | y in lk && y in st' && st'[y] == Initialized
      ensures y in pend' && pend'[y] == |Waiting(st', lk[y])|
    {
      WaitingDrop(st, lk[y], x);
    }
  }

  lemma MergedStep(g: Dag, k: Link, v: Clock, x: Id, n: Node)
    requires Merged(g, k, v) && x !in g
    ensures Merged(g[x := n], k, if IsLink(k, x) then Merge(v, n.vt) else v)
  {
    var g' := g[x := n];
    var w := if IsLink(k, x) then Merge(v, n.vt) else v;
    forall f: nat | At(w, f) > 0
      ensures exists l :: IsLink(k, l) && l in g' && At(g'[l].vt, f) == At(w, f)
    {
      if IsLink(k, x) && At(v, f) <= At(n.vt, f) {
        assert At(g'[x].vt, f) == At(w, f);
      } else {
        var l :| IsLink(k, l) && l in g && At(g[l].vt, f) == At(v, f);
        assert At(g'[l].vt, f) == At(w, f);
      }
    }
  }

  lemma WaitingIsLinked(st: map<Id, BlockState>, lk: map<Id, Link>, rev: map<Id, seq<Id>>, x: Id)
    requires LinksStored(st, lk) && RevSound(st, lk, rev) && RevComplete(st, lk, rev) && x in rev
    requires x in st && st[x] != Delivered
    ensures forall y | y in st && st[y] == Initialized && y in lk :: y in rev[x] <==> IsLink(lk[y], x)
    ensures forall y | y in rev[x] :: y in st && st[y] != None && st[y] != Delivered
  {
  }

  lemma DeliveredKeepsClocks(st: map<Id, BlockState>, lk: map<Id, Link>, waiting: seq<Id>, fork: map<Id, nat>,
                             g: Dag, x: Id, n: Node, clk: map<Id, Clock>, clk': map<Id, Clock>)
    requires ClocksOk(st, lk, clk, fork, g) && x in st && x in fork && st[x] == Initialized && x !in g
    requires Updated(st, waiting, clk, clk', n.vt)
    requires forall y | y in st && st[y] == Initialized && y in lk :: y in waiting <==> IsLink(lk[y], x)
    ensures ClocksOk(st[x := Delivered], lk, clk', fork, g[x := n])
  {
    hide Merged;
    hide Merge;
    hide IsLink;
    var st', g' := st[x := Delivered], g[x := n];
    forall y | y in lk && y in st' && st'[y] == Initialized && y !in fork ensures Merged(g', lk[y], clk'[y]) {
      assert Merged(g, lk[y], clk[y]);
      MergedStep(g, lk[y], clk[y], x, n);
    }
  }

  lemma UpdatedSparesDelivered(st: map<Id, BlockState>, lk: map<Id, Link>, rev: map<Id, seq<Id>>, x: Id,
                               clk: map<Id, Clock>, clk': map<Id, Clock>, v: Clock)
    requires LinksStored(st, lk) && RevSound(st, lk, rev) && x in rev && x in lk && !IsLink(lk[x], x)
    requires Updated(st, rev[x], clk, clk', v)
    ensures forall y | y in clk && y in st && (st[y] == Delivered || st[y] == None || y == x) :: clk'[y] == clk[y]
  {
    assert x !in rev[x];
  }

  lemma DeliveredKeepsGraph(st: map<Id, BlockState>, lk: map<Id, Link>, clk: map<Id, Clock>, clk': map<Id, Clock>,
                            fork: map<Id, nat>, g: Dag, x: Id)
    requires LinksStored(st, lk) && GraphOk(st, lk, clk, fork, g)
    requires x in lk && x in fork && x in clk && clk'.Keys == clk.Keys
    requires forall y | y in clk && y in st && (st[y] == Delivered || y == x) :: clk'[y] == clk[y]
    ensures GraphOk(st[x := Delivered], lk, clk', fork, g[x := Node(lk[x].prev, lk[x].deps, fork[x], clk[x])])
  {
  }

  lemma DeliveredKeepsQueue(st: map<Id, BlockState>, lk: map<Id, Link>, waiting: seq<Id>, x: Id, db: set<Id>,
                            q: seq<Id>, q': seq<Id>,
                            pend: map<Id, nat>, pend': map<Id, nat>)
    requires QueueOk(st, pend, db, q, {x}) && x in st && Counted(st, waiting, pend, pend')
    requires forall y | y in waiting && y in st && st[y] == Initialized :: y in pend && pend[y] > 0
    requires forall y :: y in q' <==>
               y in q || (y in waiting && y in st && st[y] == Initialized && y in pend' && pend'[y] == 0 && y in db)
    ensures QueueOk(st[x := Delivered], pend', db, q', {})
  {
  }

  lemma DeliveredKeepsNext(g: Dag, next: map<Id, Id>, x: Id, n: Node)
    requires NextOk(g, next) && ForksOk(g) && CanExtend(g, x, n)
    requires n.prev in g && g[n.prev].fork == n.fork ==> n.prev in next
    ensures NextOk(g[x := n], next)
  {
    var g' := g[x := n];
    assert forall y | y in g && g[y].fork == n.fork :: SameSource(x, y) && Height(y) < Height(x);
    forall a, b | a in g' && b in g' && g'[a].fork == g'[b].fork && Height(a) < Height(b) ensures a in next {
      if b == x {
        assert SameSource(n.prev, a);
      }
    }
  }

  // ---------------------------------------------------------------- the sources keep up

  lemma AddedNameKeepsSources(cnt: nat, st: map<Id, BlockState>, x: Id, blamed: set<nat>, ids: seq<seq<nat>>,
                              at: seq<map<int, Id>>, dh: seq<nat>, rh: seq<nat>)
    requires SourcesOk(cnt, st, blamed, ids, at, dh, rh) && x !in st && x.Blk? && x.src < cnt && x.height !in at[x.src]
    ensures SourcesOk(cnt, st[x := None], blamed, ids, at[x.src := at[x.src][x.height := x]], dh, rh)
  {
    var st', at' := st[x := None], at[x.src := at[x.src][x.height := x]];
    forall s | 0 <= s < cnt && s !in blamed ensures SourceOk(s, st', ids[s], at'[s], dh[s], rh[s]) {
      assert SourceOk(s, st, ids[s], at[s], dh[s], rh[s]);
    }
  }

  lemma AddedNameKeepsHeights(cnt: nat, st: map<Id, BlockState>, x: Id, blamed: set<nat>, ids: seq<seq<nat>>,
                              at: seq<map<int, Id>>, dh: seq<nat>, rh: seq<nat>)
    requires SourcesOk(cnt, st, blamed, ids, at, dh, rh) && x !in st && x.Blk? && x.src < cnt && x.height !in at[x.src]
    requires ReceivedOk(cnt, st, blamed, at, rh, {}) && DeliveredOk(cnt, st, blamed, at, dh, {})
    ensures ReceivedOk(cnt, st[x := None], blamed, at[x.src := at[x.src][x.height := x]], rh, {})
    ensures DeliveredOk(cnt, st[x := None], blamed, at[x.src := at[x.src][x.height := x]], dh, {})
  {
    var st', at' := st[x := None], at[x.src := at[x.src][x.height := x]];
    forall s | 0 <= s < cnt && s !in blamed
      ensures NotReceived(st', at'[s], rh[s] + 1) && NotDelivered(st', at'[s], dh[s] + 1)
    {
      assert SourceOk(s, st, ids[s], at[s], dh[s], rh[s]);
      assert NotReceived(st, at[s], rh[s] + 1) && NotDelivered(st, at[s], dh[s] + 1);
    }
  }

  /** A new name whose source is blamed is of no concern to the tables of the other sources. */
  lemma AddedNameOfBlamed(cnt: nat, st: map<Id, BlockState>, x: Id, blamed: set<nat>, ids: seq<seq<nat>>,
                          at: seq<map<int, Id>>, dh: seq<nat>, rh: seq<nat>)
    requires SourcesOk(cnt, st, blamed, ids, at, dh, rh) && x !in st && x.Blk? && x.src in blamed
    requires ReceivedOk(cnt, st, blamed, at, rh, {}) && DeliveredOk(cnt, st, blamed, at, dh, {})
    ensures SourcesOk(cnt, st[x := None], blamed, ids, at, dh, rh)
    ensures ReceivedOk(cnt, st[x := None], blamed, at, rh, {}) && DeliveredOk(cnt, st[x := None], blamed, at, dh, {})
  {
    var st' := st[x := None];
    forall s | 0 <= s < cnt && s !in blamed
      ensures SourceOk(s, st', ids[s], at[s], dh[s], rh[s]) && NotReceived(st', at[s], rh[s] + 1)
      ensures NotDelivered(st', at[s], dh[s] + 1)
    {
      assert SourceOk(s, st, ids[s], at[s], dh[s], rh[s]);
      assert NotReceived(st, at[s], rh[s] + 1) && NotDelivered(st, at[s], dh[s] + 1);
    }
  }

  /** One block of source `x.src` moved on: only the stopping point of that source needs attention. */
  lemma AdvancedKeepsSources(cnt: nat, st: map<Id, BlockState>, x: Id, s': BlockState, blamed: set<nat>,
                             ids: seq<seq<nat>>,
                             at: seq<map<int, Id>>, dh: seq<nat>, rh: seq<nat>)
    requires SourcesOk(cnt, st, blamed, ids, at, dh, rh) && x in st && x.Blk? && x.src < cnt
    requires ReceivedOk(cnt, st, blamed, at, rh, {}) && DeliveredOk(cnt, st, blamed, at, dh, {})
    requires (st[x] == None && s' == Initialized) || (st[x] == Initialized && s' == Delivered)
    ensures SourcesOk(cnt, st[x := s'], blamed, ids, at, dh, rh)
    ensures ReceivedOk(cnt, st[x := s'], blamed, at, rh, if s' == Initialized then {x.src} else {})
    ensures DeliveredOk(cnt, st[x := s'], blamed, at, dh, if s' == Delivered then {x.src} else {})
  {
    var st' := st[x := s'];
    forall s | 0 <= s < cnt && s !in blamed
      ensures SourceOk(s, st', ids[s], at[s], dh[s], rh[s])
      ensures s' == Delivered || s != x.src ==> NotReceived(st', at[s], rh[s] + 1)
      ensures s' == Initialized || s != x.src ==> NotDelivered(st', at[s], dh[s] + 1)
    {
      assert SourceOk(s, st, ids[s], at[s], dh[s], rh[s]);
      assert NotReceived(st, at[s], rh[s] + 1) && NotDelivered(st, at[s], dh[s] + 1);
    }
  }

  /** For an unblamed source, the delivered blocks are exactly the heights up to `dh`. */
  lemma {:induction false} DeliveredIsPrefix(cnt: nat, st: map<Id, BlockState>, lk: map<Id, Link>, blamed: set<nat>,
                                             ids: seq<seq<nat>>,
                                             at: seq<map<int, Id>>, dh: seq<nat>, rh: seq<nat>, x: Id)
    requires TablesOk(cnt, st, lk) && HealthOk(st, lk, {})
    requires SourcesOk(cnt, st, blamed, ids, at, dh, rh) && DeliveredOk(cnt, st, blamed, at, dh, {})
    requires x in st && x.Blk? && x.src !in blamed && x.src < cnt
    ensures st[x] == Delivered <==> x.height <= dh[x.src]
    decreases Height(x)
  {
    hide TablesOk, HealthOk;
    KnownHeight(cnt, st, lk, x);
    var s := x.src;
    assert SourceOk(s, st, ids[s], at[s], dh[s], rh[s]);
    if st[x] == Delivered && x.height > dh[s] {
      PrevDelivered(cnt, st, lk, x);
      var p := lk[x].prev;
      assert NotDelivered(st, at[s], dh[s] + 1);
      if p != Root {
        DeliveredIsPrefix(cnt, st, lk, blamed, ids, at, dh, rh, p);
      }
    }
  }

  lemma KnownHeight(cnt: nat, st: map<Id, BlockState>, lk: map<Id, Link>, x: Id)
    requires TablesOk(cnt, st, lk) && x in st && x.Blk?
    ensures x.height > 0
  {
  }

  lemma PrevDelivered(cnt: nat, st: map<Id, BlockState>, lk: map<Id, Link>, x: Id)
    requires TablesOk(cnt, st, lk) && HealthOk(st, lk, {}) && x in st && x.Blk? && st[x] == Delivered
    ensures x in lk && lk[x].prev in st && st[lk[x].prev] == Delivered && Height(lk[x].prev) + 1 == x.height
    ensures lk[x].prev != Root ==> lk[x].prev.src == x.src && lk[x].prev.src < cnt
  {
    assert LinkOk(x, lk[x]) && IsLink(lk[x], lk[x].prev);
  }

  lemma OwnHeight(cnt: nat, st: map<Id, BlockState>, x: Id, blamed: set<nat>, ids: seq<seq<nat>>,
                  at: seq<map<int, Id>>, dh: seq<nat>, rh: seq<nat>)
    requires SourcesOk(cnt, st, blamed, ids, at, dh, rh) && x in st && x.Blk? && x.src < cnt && x.src !in blamed
    ensures x.height in at[x.src] && at[x.src][x.height] == x
  {
    assert SourceOk(x.src, st, ids[x.src], at[x.src], dh[x.src], rh[x.src]);
  }

  lemma RaiseReceived(cnt: nat, st: map<Id, BlockState>, blamed: set<nat>, ids: seq<seq<nat>>, at: seq<map<int, Id>>,
                      dh: seq<nat>, rh: seq<nat>, s: nat)
    requires SourcesOk(cnt, st, blamed, ids, at, dh, rh) && ReceivedOk(cnt, st, blamed, at, rh, {s})
    requires s < cnt && s !in blamed
    requires rh[s] + 1 in at[s] && at[s][rh[s] + 1] in st && st[at[s][rh[s] + 1]] in {Initialized, Delivered}
    ensures SourcesOk(cnt, st, blamed, ids, at, dh, rh[s := rh[s] + 1])
    ensures ReceivedOk(cnt, st, blamed, at, rh[s := rh[s] + 1], {s})
  {
    var rh' := rh[s := rh[s] + 1];
    forall t | 0 <= t < cnt && t !in blamed ensures SourceOk(t, st, ids[t], at[t], dh[t], rh'[t]) {
      assert SourceOk(t, st, ids[t], at[t], dh[t], rh[t]);
    }
  }

  lemma StopReceived(cnt: nat, st: map<Id, BlockState>, blamed: set<nat>, ids: seq<seq<nat>>, at: seq<map<int, Id>>,
                     dh: seq<nat>, rh: seq<nat>, s: nat)
    requires SourcesOk(cnt, st, blamed, ids, at, dh, rh) && ReceivedOk(cnt, st, blamed, at, rh, {s}) && s < cnt
    requires s in blamed || !(rh[s] + 1 in at[s] && at[s][rh[s] + 1] in st &&
               st[at[s][rh[s] + 1]] in {Initialized, Delivered})
    ensures ReceivedOk(cnt, st, blamed, at, rh, {})
  {
    if s !in blamed {
      assert SourceOk(s, st, ids[s], at[s], dh[s], rh[s]);
      assert NotReceived(st, at[s], rh[s] + 1);
    }
  }

  lemma RaiseDelivered(cnt: nat, st: map<Id, BlockState>, blamed: set<nat>, ids: seq<seq<nat>>,
                       at: seq<map<int, Id>>, dh: seq<nat>, rh: seq<nat>, s: nat)
    requires SourcesOk(cnt, st, blamed, ids, at, dh, rh) && DeliveredOk(cnt, st, blamed, at, dh, {s})
    requires s < cnt && s !in blamed
    requires dh[s] + 1 in at[s] && at[s][dh[s] + 1] in st && st[at[s][dh[s] + 1]] == Delivered
    ensures SourcesOk(cnt, st, blamed, ids, at, dh[s := dh[s] + 1], rh)
    ensures DeliveredOk(cnt, st, blamed, at, dh[s := dh[s] + 1], {s})
  {
    var dh' := dh[s := dh[s] + 1];
    forall t | 0 <= t < cnt && t !in blamed ensures SourceOk(t, st, ids[t], at[t], dh'[t], rh[t]) {
      assert SourceOk(t, st, ids[t], at[t], dh[t], rh[t]);
    }
  }

  lemma StopDelivered(cnt: nat, st: map<Id, BlockState>, blamed: set<nat>, at: seq<map<int, Id>>, dh: seq<nat>, s: nat)
    requires DeliveredOk(cnt, st, blamed, at, dh, {s}) && s < cnt
    requires s in blamed || !(dh[s] + 1 in at[s] && at[s][dh[s] + 1] in st && st[at[s][dh[s] + 1]] == Delivered)
    ensures DeliveredOk(cnt, st, blamed, at, dh, {})
  {
    if s !in blamed {
      assert NotDelivered(st, at[s], dh[s] + 1);
    }
  }

  lemma KeysAgree(cnt: nat, st: map<Id, BlockState>, lk: map<Id, Link>, rev: map<Id, seq<Id>>, clk: map<Id, Clock>,
                  fork: map<Id, nat>, g: Dag, x: Id, k: Link)
    requires TablesOk(cnt, st, lk) && RevOk(st, lk, rev) && ClocksOk(st, lk, clk, fork, g) && x in st
    requires st[x] == None && LinkOk(x, k)
    ensures rev.Keys == st.Keys == clk.Keys && x.Blk? && x.src < cnt && x !in lk && LinksStored(st, lk) && !IsLink(k, x)
  {
  }

  /** A delivered block's timestamp is the one reported upwards; the root's is empty. */
  lemma LinkClocks(cnt: nat, st: map<Id, BlockState>, lk: map<Id, Link>, clk: map<Id, Clock>, fork: map<Id, nat>,
                   g: Dag)
    requires TablesOk(cnt, st, lk) && ClocksOk(st, lk, clk, fork, g) && GraphOk(st, lk, clk, fork, g)
    ensures forall l | l in st :: l in clk
    ensures forall l | l in st && st[l] == Delivered :: if l in g then clk[l] == g[l].vt else clk[l] == []
    ensures forall l | l in st && st[l] != Delivered :: l !in g
  {
  }

  ghost function Above(at: map<int, Id>, h: int): set<int> {
    set i | i in at && i > h
  }

  lemma AboveShrinks(at: map<int, Id>, h: int)
    requires h + 1 in at
    ensures Above(at, h + 1) < Above(at, h)
  {
    assert h + 1 in Above(at, h) && h + 1 !in Above(at, h + 1);
  }

  lemma TablesStored(cnt: nat, st: map<Id, BlockState>, lk: map<Id, Link>)
    requires TablesOk(cnt, st, lk)
    ensures LinksStored(st, lk) && LinksKnown(st, lk) && BlocksNamed(cnt, st)
  {
  }

  lemma IllNeedsNoQueue(st: map<Id, BlockState>, pend: map<Id, nat>, db: set<Id>, q: seq<Id>, run: set<Id>)
    requires QueueOk(st, pend, db, q, run)
    ensures forall x | x in st && st[x] == Ill :: QueueOk(st, pend, db, q, run - {x})
  {
  }

  // ---------------------------------------------------------------- over whole runs

  /** Delivered and ill are final, and initialized blocks stay known. */
  ghost predicate Evolves(st: map<Id, BlockState>, st': map<Id, BlockState>) {
    && st.Keys <= st'.Keys
    && forall x | x in st :: st'[x] == st[x] || st[x] == None || (st[x] == Initialized && st'[x] != None)
  }

  lemma EvolvesTransitive(a: map<Id, BlockState>, b: map<Id, BlockState>, c: map<Id, BlockState>)
    requires Evolves(a, b) && Evolves(b, c)
    ensures Evolves(a, c)
  {
  }

  lemma SickenedEvolves(st: map<Id, BlockState>, st': map<Id, BlockState>)
    requires Sickened(st, st')
    ensures Evolves(st, st')
  {
  }

  lemma CountedStep(st: map<Id, BlockState>, done: seq<Id>, b: Id, pend: map<Id, nat>, pend': map<Id, nat>)
    requires Counted(st, done, pend, pend') && b !in done && b in pend
    ensures pend'[b] == pend[b]
    ensures b in st && st[b] == Initialized && pend[b] > 0 ==> Counted(st, done + [b], pend, pend'[b := pend'[b] - 1])
    ensures !(b in st && st[b] == Initialized) ==> Counted(st, done + [b], pend, pend')
  {
  }

  lemma UpdatedStep(st: map<Id, BlockState>, done: seq<Id>, b: Id, clk: map<Id, Clock>, clk': map<Id, Clock>, v: Clock)
    requires Updated(st, done, clk, clk', v) && b !in done && b in clk
    ensures clk'[b] == clk[b]
    ensures b in st && st[b] == Initialized ==> Updated(st, done + [b], clk, clk'[b := Merge(clk'[b], v)], v)
    ensures !(b in st && st[b] == Initialized) ==> Updated(st, done + [b], clk, clk', v)
  {
    hide Merge;
  }

  /** `q'` is `q` with the blocks of `done` that became ready. */
  ghost predicate Woken(st: map<Id, BlockState>, done: seq<Id>, pend': map<Id, nat>, db: set<Id>, q: seq<Id>,
                        q': seq<Id>) {
    forall y :: y in q' <==>
      y in q || (y in done && y in st && st[y] == Initialized && y in pend' && pend'[y] == 0 && y in db)
  }

  lemma WokenStep(st: map<Id, BlockState>, done: seq<Id>, b: Id, pend: map<Id, nat>, pend': map<Id, nat>,
                  db: set<Id>, q: seq<Id>, q': seq<Id>)
    requires Woken(st, done, pend, db, q, q') && b !in done && pend.Keys == pend'.Keys
    requires forall y | y in pend && y != b :: pend'[y] == pend[y]
    ensures b in st && st[b] == Initialized && b in pend' && pend'[b] == 0 && b in db ==>
              Woken(st, done + [b], pend', db, q, q' + [b])
    ensures !(b in st && st[b] == Initialized && b in pend' && pend'[b] == 0 && b in db) ==>
              Woken(st, done + [b], pend', db, q, q')
  {
  }
}
