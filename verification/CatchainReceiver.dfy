/**
  The CatChain receiver: blocks arrive in any order, wait for the blocks they link to, and are
  delivered through a work queue; bad blocks make everything that links to them ill and blame
  their sources.
 */
module CatchainReceiver {
  import opened CatchainDag
  import opened CatchainState
  import opened CatchainTables
  import opened CatchainTheorems
  import opened CatchainReplay
  import opened Numbers

  /** A block as received: its payload hash is `data`, and its name covers neither `prev` nor `deps`. */
  datatype Msg = Msg(src: int, height: int, data: nat, sig: nat, prev: Dep, deps: seq<Dep>, payload: Payload)

  predicate NoRootDeps(m: Msg) {
    forall i | 0 <= i < |m.deps| :: m.deps[i].height > 0
  }

  /** The checks on an incoming block; `known` are the blocks whose names have been seen. */
  predicate ValidMsg(cnt: nat, maxDeps: nat, incarnation: nat, known: map<Id, BlockState>, sigOk: (Id, nat) -> bool,
                     m: Msg) {
    && m.height > 0 && 0 <= m.src < cnt && m.prev.src >= 0 && |m.deps| <= maxDeps
    && m.prev.src == (if m.height > 1 then m.src else cnt)
    && m.prev.height + 1 == m.height
    && (forall i | 0 <= i < |m.deps| :: m.deps[i].src != m.src)
    && (forall i, j | 0 <= i < j < |m.deps| :: m.deps[i].src != m.deps[j].src)
    && ValidDep(cnt, incarnation, known, sigOk, m.prev)
    && (forall i | 0 <= i < |m.deps| :: ValidDep(cnt, incarnation, known, sigOk, m.deps[i]))
    && !m.payload.Empty?
    && sigOk(Blk(m.src, m.height, m.data), m.sig)
  }

  function MsgId(m: Msg): Id {
    if m.src >= 0 && m.height > 0 then Blk(m.src, m.height, m.data) else Root
  }

  function MsgLink(m: Msg): Link {
    Link(DepId(m.prev), seq(|m.deps|, i requires 0 <= i < |m.deps| => DepId(m.deps[i])))
  }

  /** What validation gives: links that the receiver can handle, exactly if no direct dependency is the root block. */
  lemma ValidMsgLinks(cnt: nat, maxDeps: nat, incarnation: nat, known: map<Id, BlockState>, sigOk: (Id, nat) -> bool,
                      m: Msg)
    requires ValidMsg(cnt, maxDeps, incarnation, known, sigOk, m)
    ensures m.src >= 0 && m.height > 0 && MsgId(m) == Blk(m.src, m.height, m.data) && m.src < cnt
    ensures LinkOk(MsgId(m), MsgLink(m)) <==> NoRootDeps(m)
    ensures forall l | IsLink(MsgLink(m), l) :: l == Root || (l.src < cnt && l.height > 0)
  {
    var k := MsgLink(m);
    assert forall i | 0 <= i < |m.deps| ::
      ValidDep(cnt, incarnation, known, sigOk, m.deps[i]) && k.deps[i] == DepId(m.deps[i]);
    if i :| 0 <= i < |m.deps| && m.deps[i].height <= 0 {
      assert k.deps[i] in k.deps;
    }
  }

  /** What is new in a valid block is signed. */
  lemma ValidMsgSigned(cnt: nat, maxDeps: nat, incarnation: nat, known: map<Id, BlockState>, sigOk: (Id, nat) -> bool,
                       found: set<nat>, m: Msg)
    requires ValidMsg(cnt, maxDeps, incarnation, known, sigOk, m) && Vouched(sigOk, known, found)
    ensures HasSignature(sigOk, MsgId(m)) && forall l | IsLink(MsgLink(m), l) :: l == Root || HasSignature(sigOk, l)
  {
    assert ValidDep(cnt, incarnation, known, sigOk, m.prev);
    forall i | 0 <= i < |m.deps| ensures DepId(m.deps[i]) == Root || HasSignature(sigOk, DepId(m.deps[i])) {
      assert ValidDep(cnt, incarnation, known, sigOk, m.deps[i]);
    }
  }

  /** A root block among the direct dependencies passes validation, whatever the signatures. */
  lemma RootDepPasses(cnt: nat, maxDeps: nat, incarnation: nat, known: map<Id, BlockState>, sigOk: (Id, nat) -> bool,
                      data: nat, sig: nat)
    returns (m: Msg)
    requires cnt > 0 && maxDeps > 0 && sigOk(Blk(0, 1, data), sig)
    ensures ValidMsg(cnt, maxDeps, incarnation, known, sigOk, m) && !NoRootDeps(m)
  {
    var root := Dep(cnt, 0, incarnation, 0);
    m := Msg(0, 1, data, sig, root, [root], Other);
    assert m.deps[0].height == 0;
  }

  /** A block already initialized or ill stays as it is; any other gets its links, and may be ready to run. */
  ghost predicate Created(t: Table, s: Book, q: seq<Id>, t': Table, s': Book, q': seq<Id>, x: Id, m: Msg) {
    if x in t.st && t.st[x] != None then t' == t && s' == s && q' == q
    else
      && t'.lk == t.lk[x := MsgLink(m)] && t'.payload == t.payload[x := m.payload]
      && (LinksDelivered(t.st, MsgLink(m)) ==> Admitted(t, s, q, t', s', q', x, MsgLink(m), m.payload))
  }

  /** No block with this name has been entered. */
  predicate IsNew(st: map<Id, BlockState>, x: Id) {
    x !in st || st[x] == None
  }

  /** The new block `m` is next to run, and will pass exactly if it passes on the tables before it. */
  ghost predicate Ready(cnt: nat, incarnation: nat, sigOk: (Id, nat) -> bool, t: Table, s: Book, t': Table, s': Book,
                        q': seq<Id>, m: Msg) {
    var x := MsgId(m);
    && q' == [x] && t'.st == t.st[x := Initialized] && DepsDelivered(t', s', x) && LinksBooked(t, s, MsgLink(m))
    && (Acceptable(cnt, incarnation, sigOk, t', s', x) <==>
        Passing(cnt, incarnation, sigOk, t, s, t.st[x := None], MsgLink(m), m.payload))
  }

  /** The new block `m` has run: it is delivered if it passes all checks made before delivery, and ill otherwise. */
  ghost predicate Decided(cnt: nat, incarnation: nat, sigOk: (Id, nat) -> bool, t: Table, s: Book, t': Table, m: Msg) {
    var x := MsgId(m);
    && LinksBooked(t, s, MsgLink(m)) && x in t'.st
    && t'.st[x] == if Passing(cnt, incarnation, sigOk, t, s, t.st[x := None], MsgLink(m), m.payload) then Delivered
                   else Ill
  }

  lemma ReadyRan(cnt: nat, incarnation: nat, sigOk: (Id, nat) -> bool, t: Table, s: Book, t1: Table, s1: Book,
                 q1: seq<Id>, t2: Table, m: Msg)
    requires Ready(cnt, incarnation, sigOk, t, s, t1, s1, q1, m)
    requires HeadRan(cnt, incarnation, sigOk, t1, s1, t2, MsgId(m))
    ensures Decided(cnt, incarnation, sigOk, t, s, t2, m)
  {
    hide Acceptable, DepsDelivered, Passing, LinksBooked, MsgLink;
  }

  lemma ReadyNames(cnt: nat, incarnation: nat, sigOk: (Id, nat) -> bool, t: Table, s: Book, t': Table, s': Book,
                   q': seq<Id>, m: Msg)
    requires Ready(cnt, incarnation, sigOk, t, s, t', s', q', m)
    ensures q' == [MsgId(m)] && t'.st.Keys == t.st.Keys + {MsgId(m)}
  {
    hide Acceptable, DepsDelivered, Passing, LinksBooked, MsgLink;
  }

  lemma CreatedLinks(t: Table, s: Book, q: seq<Id>, t': Table, s': Book, q': seq<Id>, x: Id, m: Msg)
    requires Created(t, s, q, t', s', q', x, m)
    ensures t'.lk == if IsNew(t.st, x) then t.lk[x := MsgLink(m)] else t.lk
    ensures t'.payload == if IsNew(t.st, x) then t.payload[x := m.payload] else t.payload
  {
    hide Admitted, LinksDelivered;
  }

  /** A fork proof in a delivered block has its effect: the fork is recorded and the source is blamed. */
  lemma ProofIsHeeded(cnt: nat, t: Table, s: Book, x: Id, pl: Payload)
    requires Heeded(t.st, t.payload, s.forkFound) && BookInv(cnt, t.st, s, {}, {})
    requires x in t.st && t.st[x] == Delivered && x in t.payload && t.payload[x] == pl && pl.ForkProof?
    ensures 0 <= pl.left.src && pl.left.src in s.forkFound && pl.left.src in s.blamed
  {
    hide SourcesOk, ReceivedOk, DeliveredOk, ForksNamed;
  }

  /** Once it is written as well. */
  lemma AdmittedReady(cnt: nat, maxDeps: nat, incarnation: nat, sigOk: (Id, nat) -> bool, t: Table, q: seq<Id>, g: Dag,
                      s: Book, t': Table, s': Book, q': seq<Id>, m: Msg)
    requires TableInv(cnt, t, q, g, {}) && BookInv(cnt, t.st, s, {}, {}) && q == [] && NoRootDeps(m)
    requires ValidMsg(cnt, maxDeps, incarnation, t.st, sigOk, m) && LinksDelivered(t.st, MsgLink(m))
    requires Admitted(t, s, q, t', s', q', MsgId(m), MsgLink(m), m.payload)
    ensures MsgId(m) in t'.pend && t'.pend[MsgId(m)] == 0
    ensures var x, t2 := MsgId(m), t'.(db := t'.db + {MsgId(m)});
            Ready(cnt, incarnation, sigOk, t, s, t2, s', if x in t'.db then q' else q' + [x], m)
  {
    hide TableInv, BookInv, ValidMsg, LinksDelivered, Admitted, MsgLink, DepsDelivered, LinksBooked, Acceptable,
         Passing;
    var x, k := MsgId(m), MsgLink(m);
    ValidMsgLinks(cnt, maxDeps, incarnation, t.st, sigOk, m);
    DeliveredIsBooked(cnt, t, q, g, s, x, k);
    AdmittedIsAcceptable(cnt, incarnation, sigOk, t, s, q, t', s', q', x, k, m.payload);
    AdmittedQueue(t, s, q, t', s', q', x, k, m.payload);
    WrittenChecks(cnt, incarnation, sigOk, t', s', x);
  }

  lemma CreatedAdmits(t: Table, s: Book, q: seq<Id>, t': Table, s': Book, q': seq<Id>, x: Id, m: Msg)
    requires Created(t, s, q, t', s', q', x, m) && LinksDelivered(t.st, MsgLink(m)) && (x !in t.st || t.st[x] == None)
    ensures Admitted(t, s, q, t', s', q', x, MsgLink(m), m.payload) && t'.lk == t.lk[x := MsgLink(m)]
  {
    hide Admitted, LinksDelivered;
  }

  /** A height rises, and no other changes. */
  ghost predicate OnlyAt(hs: seq<nat>, hs': seq<nat>, src: nat) {
    && |hs'| == |hs| && (src < |hs| ==> hs[src] <= hs'[src])
    && forall i | 0 <= i < |hs| && i != src :: hs'[i] == hs[i]
  }

  class Receiver {
    /** Number of sources. */
    const cnt: nat
    /** The source whose blocks this receiver sends. */
    const local: nat
    const maxDeps: nat
    const incarnation: nat
    const checkSignature: (Id, nat) -> bool

    /** The blocks. */
    var t: Table
    /** The sources. */
    var s: Book
    /** Blocks scheduled to run. */
    var q: seq<Id>
    var totalForks: nat

    /** Everything reported to the layer above. */
    var events: seq<Event>
    /** The graph those reports describe. */
    ghost var g: Dag

    ghost predicate Inv(run: set<Id>)
      reads this
    {
      && TableInv(cnt, t, q, g, run) && BookInv(cnt, t.st, s, {}, {})
      && ForkIdsOk(cnt, totalForks, s.ids, t.fork) && EventsOk(cnt, events, g, s.blamed)
      && Heeded(t.st, t.payload, s.forkFound) && Vouched(checkSignature, t.st, s.forkFound)
    }

    ghost predicate Valid()
      reads this
    {
      Inv({})
    }

    /**
      A source that signs at most one block of each height is never found to fork, whatever blocks and proofs others
      send, and the receiver never knows two of its blocks with one height. What is known is signed.
     */
    lemma HonestSource(src: nat)
      requires Valid() && forall x, y :: !SignedFork(checkSignature, src, x, y)
      ensures src !in s.forkFound
      ensures forall x | x in t.st && x.Blk? :: HasSignature(checkSignature, x)
      ensures forall x, y | x in t.st && y in t.st && x.Blk? && y.Blk? && x.src == src == y.src ::
                x.height == y.height ==> x == y
    {
      hide TableInv, BookInv, ForkIdsOk, EventsOk, Heeded;
      forall x, y | x in t.st && y in t.st && x.Blk? && y.Blk? && x.src == src == y.src && x.height == y.height
        ensures x == y
      {
        assert !SignedFork(checkSignature, src, x, y);
      }
    }

    // ---------------------------------------------------------------- sources

    method Blame(src: nat)
      requires src < cnt == |s.at| && EventsOk(cnt, events, g, s.blamed)
      modifies this`s, this`events
      ensures s == Accused(old(s), src)
      ensures events == old(events) + if src in old(s).blamed then [] else [Event.Blame(src)]
      ensures EventsOk(cnt, events, g, s.blamed)
    {
      hide EventsOk;
      if src !in s.blamed {
        BlameAppends(cnt, events, g, s.blamed, src);
        s := s.(at := s.at[src := map[]]);
        events := events + [Event.Blame(src)];
      } else {
        assert s.blamed + {src} == s.blamed;
      }
      s := s.(blamed := s.blamed + {src});
    }

    /** A block name not seen before; two names of one source at one height are a fork. */
    method OnNewBlock(x: Id, ghost st: map<Id, BlockState>)
      requires x.Blk? && x.src < cnt && x !in st && BookInv(cnt, st, s, {}, {}) && EventsOk(cnt, events, g, s.blamed)
      modifies this`s, this`events
      ensures BookInv(cnt, st[x := None], s, {}, {}) && EventsOk(cnt, events, g, s.blamed) && old(events) <= events
      ensures |old(s).at| == cnt && s == Noted(old(s), x)
    {
      hide SourcesOk, ReceivedOk, DeliveredOk, EventsOk, Cleared, SameElsewhere;
      NamedInBook(cnt, st, s, x);
      if x.src in s.forkFound {
        return;
      }
      if x.height in s.at[x.src] {
        assert s.at[x.src][x.height] != x;
        var f := Fork(x, s.at[x.src][x.height]);
        s := s.(forkFound := s.forkFound + {x.src});
        AccusedClears(s, x.src);
        Blame(x.src);
        BlamedKeepsBook(cnt, st, st, old(s), s);
        NamedInBook(cnt, st, s, x);
        ForkFoundKeeps(cnt, st[x := None], s, f);
        s := s.(prepared := s.prepared + [f]);
        return;
      }
      s := s.(at := s.at[x.src := s.at[x.src][x.height := x]]);
    }

    /** Advance the height up to which every block of an unblamed source has been received. */
    method BlockReceived(src: nat, h: nat)
      requires src < cnt && BookInv(cnt, t.st, s, {src}, {}) && |s.at| == cnt
      requires src !in s.blamed ==>
                 h in s.at[src] && s.at[src][h] in t.st && t.st[s.at[src][h]] in {Initialized, Delivered}
      modifies this`s
      ensures BookInv(cnt, t.st, s, {}, {}) && s == old(s).(rh := s.rh)
      ensures OnlyAt(old(s).rh, s.rh, src) && (src in s.blamed ==> s == old(s))
    {
      hide ReceivedOk, DeliveredOk, SourceOk;
      if src in s.blamed {
        StopReceived(cnt, t.st, s.blamed, s.ids, s.at, s.dh, s.rh, src);
        return;
      }
      if s.rh[src] + 1 == h {
        RaiseReceived(cnt, t.st, s.blamed, s.ids, s.at, s.dh, s.rh, src);
        s := s.(rh := s.rh[src := h]);
      }
      while s.rh[src] + 1 in s.at[src] && t.st[s.at[src][s.rh[src] + 1]] in {Initialized, Delivered}
        invariant BookInv(cnt, t.st, s, {src}, {}) && s == old(s).(rh := s.rh)
        invariant OnlyAt(old(s).rh, s.rh, src)
        decreases Above(s.at[src], s.rh[src])
      {
        RaiseReceived(cnt, t.st, s.blamed, s.ids, s.at, s.dh, s.rh, src);
        AboveShrinks(s.at[src], s.rh[src]);
        s := s.(rh := s.rh[src := s.rh[src] + 1]);
      }
      StopReceived(cnt, t.st, s.blamed, s.ids, s.at, s.dh, s.rh, src);
    }

    /** Advance the height up to which every block of an unblamed source has been delivered. */
    method BlockDelivered(src: nat, h: nat)
      requires src < cnt && BookInv(cnt, t.st, s, {}, {src}) && |s.at| == cnt
      requires src !in s.blamed ==> h in s.at[src] && s.at[src][h] in t.st && t.st[s.at[src][h]] == Delivered
      modifies this`s
      ensures BookInv(cnt, t.st, s, {}, {}) && s == old(s).(dh := s.dh)
      ensures OnlyAt(old(s).dh, s.dh, src) && (src in s.blamed ==> s == old(s))
    {
      hide ReceivedOk, DeliveredOk, SourceOk;
      if src in s.blamed {
        StopDelivered(cnt, t.st, s.blamed, s.at, s.dh, src);
        return;
      }
      if s.dh[src] + 1 == h {
        RaiseDelivered(cnt, t.st, s.blamed, s.ids, s.at, s.dh, s.rh, src);
        s := s.(dh := s.dh[src := h]);
      }
      while s.dh[src] + 1 in s.at[src] && t.st[s.at[src][s.dh[src] + 1]] == Delivered
        invariant BookInv(cnt, t.st, s, {}, {src}) && s == old(s).(dh := s.dh)
        invariant OnlyAt(old(s).dh, s.dh, src)
        decreases Above(s.at[src], s.dh[src])
      {
        RaiseDelivered(cnt, t.st, s.blamed, s.ids, s.at, s.dh, s.rh, src);
        AboveShrinks(s.at[src], s.dh[src]);
        s := s.(dh := s.dh[src := s.dh[src] + 1]);
      }
      StopDelivered(cnt, t.st, s.blamed, s.at, s.dh, src);
    }

    // ---------------------------------------------------------------- illness

    /**
      Illness spreads along the recorded reverse links. It terminates although links of undelivered
      blocks may form cycles, and a block falls ill only through a block it links to.
     */
    method SetIll(x: Id)
      requires x in t.st && (t.st[x] == Initialized || t.st[x] == Ill)
      requires t.rev.Keys == t.st.Keys && RevSound(t.st, t.lk, t.rev) && BlocksNamed(cnt, t.st)
      requires |s.at| == cnt && EventsOk(cnt, events, g, s.blamed)
      modifies this`t, this`s, this`events
      ensures t == old(t).(st := t.st) && s == old(s).(blamed := s.blamed, at := s.at)
      ensures Sickened(old(t).st, t.st) && t.st.Keys == old(t).st.Keys && t.st[x] == Ill
      ensures Spread(old(t).st, t.st, t.rev, {})
      ensures old(t).st[x] != Ill ==> forall b | b in t.rev[x] :: b in t.st && t.st[b] == Ill
      ensures OnlyInfected(old(t).st, t.st, t.lk, x) && FallenBlamed(old(t).st, t.st, s.blamed)
      ensures Cleared(old(s).at, s.at, old(s).blamed, s.blamed)
      ensures EventsOk(cnt, events, g, s.blamed) && old(events) <= events
      ensures Untouched(old(t).st, t.st, local) && local !in old(s).blamed ==> local !in s.blamed
      decreases Healthy(t.st)
    {
      hide *;
      if t.st[x] == Ill {
        IllSame(t.st, t.lk, t.rev, x, s.blamed);
        ClearedSame(s.at, s.blamed);
        return;
      }
      NamedBlock(cnt, t.st, x);
      FallStarts(cnt, t, s, x, local);
      Blame(x.src);
      t := t.(st := t.st[x := Ill]);
      var i, waiting := 0, t.rev[x];
      IllUpToStart(t.st, waiting);
      while i < |waiting|
        invariant t == old(t).(st := t.st) && s == old(s).(blamed := s.blamed, at := s.at)
        invariant 0 <= i <= |waiting| && IllUpTo(t.st, waiting, i) && Falling(cnt, old(t), old(s), t.st, s, x, local)
        invariant EventsOk(cnt, events, g, s.blamed) && old(events) <= events
      {
        ghost var st1, s1 := t.st, s;
        FallsTo(cnt, old(t), old(s), t.st, s, x, waiting[i], local);
        SetIll(waiting[i]);
        FallsOn(cnt, old(t), old(s), st1, s1, t.st, s, x, waiting[i], local);
        IllUpToNext(st1, t.st, waiting, i);
        i := i + 1;
      }
      FallEnds(cnt, old(t), old(s), t.st, s, x, local);
    }

    // ---------------------------------------------------------------- initialization

    /** Look up a block by name, creating an empty one for a name not seen before. */
    method Touch(x: Id)
      requires Valid() && (x == Root || (x.src < cnt && x.height > 0 && HasSignature(checkSignature, x)))
      modifies this`t, this`s, this`events
      ensures Valid() && x in t.st && old(events) <= events
      ensures t == if x in old(t).st then old(t) else Named(old(t), x)
      ensures if x in old(t).st then s == old(s) && events == old(events)
              else x.Blk? && |old(s).at| == cnt && s == Noted(old(s), x)
    {
      hide TableInv, BookInv, ForkIdsOk, EventsOk, Heeded, Vouched, Named, Noted, SameElsewhere;
      if x == Root {
        assert x in t.st by { KnownRoot(cnt, t, q, g, {}); }
      } else if x !in t.st {
        NamedKeeps(cnt, t, q, g, x);
        OnNewBlock(x, t.st);
        NotedElsewhere(old(s), x);
        NamedTable(t, x);
        VouchedNoted(cnt, checkSignature, t.st, old(s), x);
        HeededNamed(t.st, t.payload, old(s).forkFound, s.forkFound, x);
        t := Named(t, x);
      }
    }

    /** Pointwise maximum of two timestamps. */
    static method UpdateDeps(own: Clock, other: Clock) returns (c: Clock)
      ensures c == Merge(own, other)
    {
      c := own;
      if |other| > |c| {
        c := c + seq(|other| - |c|, _ => 0);
      }
      var i := 0;
      while i < |other|
        invariant 0 <= i <= |other| <= |c| == Max(|own|, |other|)
        invariant forall f | 0 <= f < |c| :: c[f] == if f < i then Max(At(own, f), At(other, f)) else At(own, f)
      {
        if c[i] < other[i] {
          c := c[i := other[i]];
        }
        i := i + 1;
      }
    }

    /** Wait for every link that is not delivered and merge the timestamps of those that are. */
    method Register(x: Id, k: Link) returns (v: Clock, m: nat, r: map<Id, seq<Id>>)
      requires LinkOk(x, k) && t.rev.Keys == t.st.Keys == t.clk.Keys
      requires forall l | IsLink(k, l) ::
                 l in t.st && (t.st[l] == Delivered ==> if l in g then t.clk[l] == g[l].vt else t.clk[l] == [])
      requires forall l | IsLink(k, l) && t.st[l] != Delivered :: l !in g
      ensures Merged(g, k, v) && m == |Waiting(t.st, k)| && Registered(t.st, t.rev, r, k, x)
    {
      hide Merged, Waiting, Registered, Merge, LinkOk, IsLink;
      var p := k.prev;
      v, m, r := [], 0, t.rev;
      PrevLink(k);
      MergedFirst(g, p);
      WaitingFirst(t.st, p);
      RegisteredFirst(t.st, t.rev, p, x);
      MergeEmpty([]);
      if t.st[p] != Delivered {
        m := 1;
        r := r[p := r[p] + [x]];
      } else {
        v := UpdateDeps(v, t.clk[p]);
      }
      var i := 0;
      while i < |k.deps|
        invariant 0 <= i <= |k.deps|
        invariant r.Keys == t.rev.Keys
        invariant Merged(g, Link(p, k.deps[..i]), v) && m == |Waiting(t.st, Link(p, k.deps[..i]))|
        invariant Registered(t.st, t.rev, r, Link(p, k.deps[..i]), x)
      {
        var d := k.deps[i];
        NextLink(x, k, i);
        MergedAdd(g, p, k.deps[..i], d, v);
        WaitingAdd(t.st, p, k.deps[..i], d);
        RegisteredAdd(t.st, t.rev, r, p, k.deps[..i], d, x);
        MergeEmpty(v);
        if t.st[d] != Delivered {
          m := m + 1;
          r := r[d := r[d] + [x]];
        } else {
          v := UpdateDeps(v, t.clk[d]);
        }
        i := i + 1;
      }
      assert k.deps[..i] == k.deps && Link(p, k.deps) == k;
    }

    method InitializeHealthy(x: Id, k: Link, pl: Payload)
      requires Valid() && x in t.st && t.st[x] == None && LinkOk(x, k)
      requires forall l | IsLink(k, l) :: l in t.st && t.st[l] != Ill
      modifies this`t, this`s, this`q
      ensures Valid() && t.st == old(t).st[x := Initialized] && t.lk == old(t).lk[x := k] && t.db == old(t).db
      ensures t.payload == old(t).payload[x := pl] && Adds(old(t), old(s), t, s, {}, pl, local)
      ensures LinksDelivered(old(t).st, k) ==> Admitted(old(t), old(s), old(q), t, s, q, x, k, pl)
    {
      hide Admitted, Entered, Adds, OnlyAt;
      hide TableInv, BookInv, ForkIdsOk, EventsOk, Heeded, Vouched, Registered, Merged, Waiting, LinkOk, IsLink;
      InitFacts(cnt, t, q, g, x, k);
      var v, m, r := Register(x, k);
      EnteredKeeps(cnt, t, q, g, x, k, pl, v, m, r);
      EnteredInBook(cnt, t.st, s, x);
      EnteredTable(t, x, k, pl, v, m, r);
      BookLength(cnt, t.st, s);
      if LinksDelivered(t.st, k) {
        NothingAwaited(t.st, k);
      }
      HeededEntered(t.st, t.payload, s.forkFound, x, pl);
      VouchedSame(checkSignature, t.st, t.st[x := Initialized], s.forkFound);
      t := Entered(t, x, k, pl, v, m, r);
      if m == 0 && x in t.db {
        q := q + [x];
      }
      BlockReceived(x.src, x.height);
      EnteredAdds(old(t), old(s), s, x, k, pl, v, m, r, local);
      if m == 0 {
        EnteredAdmits(old(t), old(s), s, old(q), x, k, pl, v, r);
      }
    }

    method InitializeIll(x: Id, k: Link, pl: Payload)
      requires Valid() && x in t.st && t.st[x] == None && LinkOk(x, k)
      requires (forall l | IsLink(k, l) :: l in t.st) && exists l :: IsLink(k, l) && t.st[l] == Ill
      modifies this`t, this`s, this`events
      ensures Valid() && old(events) <= events && x in t.st && t.st[x] == Ill
      ensures t.lk == old(t).lk[x := k] && t.db == old(t).db
      ensures Evolves(old(t).st, t.st) && t.payload == old(t).payload[x := pl]
      ensures Adds(old(t), old(s), t, s, {}, pl, local)
    {
      hide Adds, Untouched;
      hide TableInv, BookInv, ForkIdsOk, EventsOk, Heeded, Vouched, LinkOk, IsLink, Sickened, Spread, FallenBlamed,
           SparesUnblamed, Cleared, OnlyInfected, RevSound, BlocksNamed, Evolves;
      InitFacts(cnt, t, q, g, x, k);
      BookLength(cnt, t.st, s);
      StoredFacts(cnt, t, q, g, x, k);
      ghost var t0, s0 := t, s;
      t := t.(st := t.st[x := Initialized], lk := t.lk[x := k], payload := t.payload[x := pl]);
      HeededEntered(t0.st, t0.payload, s.forkFound, x, pl);
      ghost var t1 := t;
      SetIll(x);
      HeededSick(t1.st, t1.payload, s.forkFound, t.st);
      VouchedSame(checkSignature, t0.st, t1.st, s.forkFound);
      VouchedSick(checkSignature, t1.st, t.st, s.forkFound);
      IllAtOnce(t0.st, t.st, t0.rev, x, s.blamed);
      EnteredIllKeeps(cnt, t0, t, q, g, x, k, pl);
      FoundInBlamed(cnt, t0.st, s0, s);
      BlamedKeepsBook(cnt, t0.st, t.st, s0, s);
      IllAtOnceEvolves(t0.st, t.st, x);
      ghost var y :| IsLink(k, y) && t0.st[y] == Ill;
      IllAdds(t0, s0, t, s, x, k, pl, local, y);
    }

    /** A block counts as stored from here on, and runs if nothing else is missing. */
    method Written(x: Id)
      requires Valid() && x in t.st && t.st[x] != None
      modifies this`t, this`q
      ensures Valid() && t == old(t).(db := old(t).db + {x})
      ensures x in t.pend && q == if x !in old(t).db && t.pend[x] == 0 then old(q) + [x] else old(q)
    {
      hide TableInv, BookInv, ForkIdsOk, EventsOk, Heeded, Vouched;
      WrittenKeeps(cnt, t, q, g, x);
      if x !in t.db {
        t := t.(db := t.db + {x});
        if t.pend[x] == 0 {
          q := q + [x];
        }
      } else {
        assert t.db + {x} == t.db;
      }
    }

    // ---------------------------------------------------------------- delivery

    /** A fork id that has never been used; the second one blames the source. */
    method AddFork(x: Id) returns (f: nat)
      requires Inv({x}) && x.Blk? && x.src < cnt == |s.ids| == |s.at| && (x.height == 1 || s.ids[x.src] != [])
      modifies this`s, this`events, this`totalForks
      ensures BookInv(cnt, t.st, s, {}, {}) && EventsOk(cnt, events, g, s.blamed)
      ensures ForkIdsOk(cnt, totalForks, s.ids, t.fork[x := f])
      ensures f == totalForks == old(totalForks) + 1 && forall y | y in g :: g[y].fork != f
      ensures s == (if old(s).ids[x.src] == [] then old(s)
                else Accused(old(s), x.src)).(ids := old(s).ids[x.src := old(s).ids[x.src] + [f]])
      ensures events == old(events) + if old(s).ids[x.src] == [] || x.src in old(s).blamed then []
                else [Event.Blame(x.src)]
    {
      hide TableInv, BookInv, ForkIdsOk, EventsOk, Heeded, Vouched, Cleared, SameElsewhere;
      ghost var s0 := s;
      if |s.ids[x.src]| > 0 {
        AccusedClears(s, x.src);
        Blame(x.src);
        SparesNothing(t.st, s.blamed);
        FoundInBlamed(cnt, t.st, s0, s);
        BlamedKeepsBook(cnt, t.st, t.st, s0, s);
      }
      FreshForkId(cnt, totalForks, s.ids, t, q, g, {x});
      AddForkKeeps(cnt, totalForks, t.st, s, t.fork, x);
      totalForks := totalForks + 1;
      f := totalForks;
      s := s.(ids := s.ids[x.src := s.ids[x.src] + [f]]);
      assert |s.ids[x.src]| > 1 ==> x.src in s.blamed;
    }

    /** Choose the fork of a block all of whose links are delivered, and stamp its height into its timestamp. */
    method InitializeFork(x: Id)
      requires Inv({x}) && x in t.st && t.st[x] == Initialized && x in t.pend && t.pend[x] == 0 && x !in t.fork
      requires x.Blk? && x in t.lk && x in t.clk
      modifies this`t, this`s, this`events, this`totalForks
      ensures Inv({x}) && events == old(events) && x in t.lk && x in t.fork && x in t.clk
      ensures t == Forked(old(t), x, t.fork[x], ContinuesFork(old(t), x))
      ensures ContinuesFork(old(t), x) ==>
                && old(t).lk[x].prev in old(t).fork && t.fork[x] == old(t).fork[old(t).lk[x].prev]
                && totalForks == old(totalForks)
      ensures !ContinuesFork(old(t), x) ==> t.fork[x] == totalForks == old(totalForks) + 1
      ensures ReadyToDeliver(t, g, x) && x.src < |old(s).ids|
      ensures s == if ContinuesFork(old(t), x) then old(s)
                else old(s).(ids := old(s).ids[x.src := old(s).ids[x.src] + [t.fork[x]]])
    {
      hide TableInv, BookInv, ForkIdsOk, EventsOk, Heeded, Vouched, Forked, ReadyToDeliver, ForkChoice, DagOk;
      RunFacts(cnt, t, q, g, x);
      BookLength(cnt, t.st, s);
      if x.src !in s.blamed {
        UnblamedOpensFirst(cnt, totalForks, t, q, g, s, x);
      }
      StreamGivesDagOf(cnt, events, g, s.blamed);
      ghost var order := Order(events);
      var p := t.lk[x].prev;
      var f, continues := 0, false;
      if x.height == 1 {
        f := AddFork(x);
      } else {
        assert p in t.fork && SameSource(x, p) && p in g && g[p].fork == t.fork[p];
        if p !in t.next {
          continues := true;
          f := t.fork[p];
          ContinueForkIds(cnt, totalForks, s.ids, t.fork, x, p);
        } else {
          ForkListed(cnt, totalForks, s.ids, t.fork, p);
          f := AddFork(x);
        }
      }
      ChoiceMade(g, t.next, p, f);
      CheckedOwnFork(cnt, t, q, g, order, x, f);
      assert At(t.clk[x], f) < x.height;
      ForkedKeeps(cnt, t, q, g, x, f, continues);
      ForkedReady(cnt, t, q, g, order, x, f, continues);
      ForkedTable(t, x, f, continues);
      t := Forked(t, x, f, continues);
    }

    /** A running block fails a check. */
    method MakeIll(x: Id)
      requires Inv({x}) && x in t.st && t.st[x] == Initialized
      modifies this`t, this`s, this`events
      ensures Valid() && old(events) <= events && t == old(t).(st := t.st)
      ensures s == old(s).(blamed := s.blamed, at := s.at)
      ensures Untouched(old(t).st, t.st, local) && local !in old(s).blamed ==> local !in s.blamed
      ensures Sickened(old(t).st, t.st) && OnlyInfected(old(t).st, t.st, t.lk, x) && x in t.st && t.st[x] == Ill
    {
      hide Untouched;
      hide TableInv, BookInv, ForkIdsOk, EventsOk, Heeded, Vouched, Sickened, Spread, FallenBlamed, SparesUnblamed,
           Cleared,
           OnlyInfected, RevSound, BlocksNamed;
      ghost var t0, s0 := t, s;
      IllFacts(cnt, t, q, g, {x});
      BookLength(cnt, t.st, s);
      SetIll(x);
      HeededSick(t0.st, t0.payload, s0.forkFound, t.st);
      VouchedSick(checkSignature, t0.st, t.st, s.forkFound);
      SickenedSpares(t0.st, t.st, s.blamed);
      FellKeeps(cnt, t0, t.st, q, g, x);
      FoundInBlamed(cnt, t0.st, s0, s);
      BlamedKeepsBook(cnt, t0.st, t.st, s0, s);
    }

    /** Does the direct dependency `d` disqualify the block? */
    method RejectsDep(x: Id, d: Id) returns (bad: bool)
      requires x in t.lk && t.lk[x].prev in t.clk && d in t.fork && d.Blk? && d.src < |s.ids|
      ensures bad <==> DepRejected(t, s, t.lk[x].prev, d)
    {
      var dd := t.clk[t.lk[x].prev];
      if d.height <= At(dd, t.fork[d]) {
        return true;
      }
      if d.src in s.blamed {
        var fs, i := s.ids[d.src], 0;
        while i < |fs|
          invariant 0 <= i <= |fs|
          invariant forall j | 0 <= j < i :: fs[j] == t.fork[d] || At(dd, fs[j]) == 0
        {
          if fs[i] != t.fork[d] && At(dd, fs[i]) > 0 {
            return true;
          }
          i := i + 1;
        }
      }
      return false;
    }

    // ---------------------------------------------------------------- validation

    /** A reference to the root block is exactly that; any other is to a block known already or signed. */
    method ValidateDep(d: Dep) returns (ok: bool)
      ensures ok <==> ValidDep(cnt, incarnation, t.st, checkSignature, d)
    {
      if d.height < 0 {
        return false;
      }
      if d.height > 0 {
        if d.src < 0 || d.src >= cnt {
          return false;
        }
        if Blk(d.src, d.height, d.data) in t.st {
          return true;
        }
        return checkSignature(Blk(d.src, d.height, d.data), d.sig);
      }
      if d.src != cnt || d.data != incarnation || d.sig != 0 {
        return false;
      }
      return true;
    }

    /** The sources of the block and of its direct dependencies are all different. */
    method SourcesDiffer(m: Msg) returns (ok: bool)
      ensures ok <==> && (forall i | 0 <= i < |m.deps| :: m.deps[i].src != m.src)
                      && (forall i, j | 0 <= i < j < |m.deps| :: m.deps[i].src != m.deps[j].src)
    {
      var used := {m.src};
      for i := 0 to |m.deps|
        invariant used == {m.src} + set j | 0 <= j < i :: m.deps[j].src
        invariant forall j | 0 <= j < i :: m.deps[j].src != m.src
        invariant forall j, k | 0 <= j < k < i :: m.deps[j].src != m.deps[k].src
      {
        if m.deps[i].src in used {
          return false;
        }
        used := used + {m.deps[i].src};
      }
      return true;
    }

    /** The checks on a received block, in their order. */
    method Validate(m: Msg) returns (ok: bool)
      ensures ok <==> ValidMsg(cnt, maxDeps, incarnation, t.st, checkSignature, m)
    {
      hide ValidDep;
      if m.height <= 0 || m.src < 0 || m.src >= cnt || m.prev.src < 0 || |m.deps| > maxDeps {
        return false;
      }
      if m.height > 1 {
        if m.prev.src != m.src {
          return false;
        }
      } else if m.prev.src != cnt {
        return false;
      }
      if m.prev.height + 1 != m.height {
        return false;
      }
      ok := SourcesDiffer(m);
      if !ok {
        return;
      }
      ok := ValidateDep(m.prev);
      if !ok {
        return;
      }
      for i := 0 to |m.deps|
        invariant forall j | 0 <= j < i :: ValidDep(cnt, incarnation, t.st, checkSignature, m.deps[j])
      {
        ok := ValidateDep(m.deps[i]);
        if !ok {
          return;
        }
      }
      if m.payload.Empty? {
        return false;
      }
      return checkSignature(Blk(m.src, m.height, m.data), m.sig);
    }

    /** Is this pair of references a fork proof? */
    method ValidateProof(l: Dep, r: Dep) returns (ok: bool)
      ensures ok <==> ProofOk(cnt, incarnation, t.st, checkSignature, l, r)
    {
      hide ValidDep;
      ok := ValidateDep(l);
      if !ok {
        return;
      }
      ok := ValidateDep(r);
      if !ok {
        return;
      }
      return !(l.height != r.height || l.src != r.src || l.data == r.data);
    }

    // ---------------------------------------------------------------- delivery

    /** The checks made just before delivery; a block that fails one is ill. */
    method PreDeliver(x: Id)
      requires Inv({x}) && x in t.st && t.st[x] == Initialized && DepsDelivered(t, s, x)
      modifies this`t, this`s, this`events
      ensures old(events) <= events
      ensures Acceptable(cnt, incarnation, checkSignature, old(t), old(s), x) ==> Inv({x}) && t == old(t)
      ensures !Acceptable(cnt, incarnation, checkSignature, old(t), old(s), x) ==>
                && Valid() && t == old(t).(st := t.st) && Sickened(old(t).st, t.st)
                && OnlyInfected(old(t).st, t.st, t.lk, x) && x in t.st && t.st[x] == Ill
      ensures s.ids == old(s).ids && s.prepared == old(s).prepared
      ensures Acceptable(cnt, incarnation, checkSignature, old(t), old(s), x) && !old(t).payload[x].ForkProof? ==>
                s == old(s) && events == old(events)
      ensures Acceptable(cnt, incarnation, checkSignature, old(t), old(s), x) && old(t).payload[x].ForkProof? ==>
                var src := old(t).payload[x].left.src;
                && 0 <= src < |old(s).at| && s.forkFound == old(s).forkFound + {src}
                && s == Accused(old(s), src).(forkFound := s.forkFound) && s.blamed == old(s).blamed + {src}
                && events == old(events) + if src in old(s).blamed then [] else [Event.Blame(src)]
      ensures Unharmed(old(t), old(s), local) && NoneIll(t.st, local) ==> local !in s.blamed
    {
      hide Untouched, NoneIll;
      hide TableInv, BookInv, ForkIdsOk, EventsOk, Heeded, Vouched, Sickened, OnlyInfected, DepRejected, Cleared,
           SparesUnblamed, ValidDep;
      var i := 0;
      while i < |t.lk[x].deps|
        invariant t == old(t) && s == old(s) && events == old(events)
        invariant 0 <= i <= |t.lk[x].deps|
        invariant forall j | 0 <= j < i :: !DepRejected(t, s, t.lk[x].prev, t.lk[x].deps[j])
      {
        var bad := RejectsDep(x, t.lk[x].deps[i]);
        if bad {
          MakeIll(x);
          NoneFell(old(t).st, t.st, local);
          return;
        }
        i := i + 1;
      }
      var pl := t.payload[x];
      if pl.ForkProof? {
        var proven := ValidateProof(pl.left, pl.right);
        if !proven {
          MakeIll(x);
          NoneFell(old(t).st, t.st, local);
          return;
        }
        ProofNamesSource(cnt, incarnation, t.st, checkSignature, pl.left, pl.right);
        BookLength(cnt, t.st, s);
        ghost var s0 := s;
        AccusedClears(s.(forkFound := s.forkFound + {pl.left.src}), pl.left.src);
        s := s.(forkFound := s.forkFound + {pl.left.src});
        Blame(pl.left.src);
        SparesNothing(t.st, s.blamed);
        ProofInBlamed(cnt, t.st, s0, s, pl.left.src);
        BlamedKeepsBook(cnt, t.st, t.st, s0, s);
        HeededNamed(t.st, t.payload, s0.forkFound, s.forkFound, x);
        VouchedProof(cnt, incarnation, checkSignature, t.st, s0.forkFound, pl.left, pl.right);
      }
    }

    /** Tell every waiting block that `x` is delivered; those with nothing left to wait for are scheduled. */
    method Notify(x: Id) returns (clk: map<Id, Clock>, pend: map<Id, nat>, q': seq<Id>)
      requires x in t.rev && x in t.clk && Distinct(t.rev[x])
      requires forall b | b in t.rev[x] ::
                 b in t.st && b in t.pend && b in t.clk && (t.st[b] == Initialized ==> t.pend[b] > 0)
      ensures Counted(t.st, t.rev[x], t.pend, pend) && Updated(t.st, t.rev[x], t.clk, clk, t.clk[x])
      ensures Woken(t.st, t.rev[x], pend, t.db, q, q')
    {
      hide Counted, Updated, Woken, Merge;
      var bs, v := t.rev[x], t.clk[x];
      clk, pend, q' := t.clk, t.pend, q;
      NotifyStart(t.st, pend, clk, v, t.db, q);
      var i := 0;
      while i < |bs|
        invariant 0 <= i <= |bs| && pend.Keys == t.pend.Keys && clk.Keys == t.clk.Keys
        invariant Counted(t.st, bs[..i], t.pend, pend) && Updated(t.st, bs[..i], t.clk, clk, v)
        invariant Woken(t.st, bs[..i], pend, t.db, q, q')
      {
        var b := bs[i];
        assert bs[..i + 1] == bs[..i] + [b] && b in bs && b !in bs[..i];
        CountedStep(t.st, bs[..i], b, t.pend, pend);
        UpdatedStep(t.st, bs[..i], b, t.clk, clk, v);
        if t.st[b] == Initialized {
          WokenStep(t.st, bs[..i], b, pend, pend[b := pend[b] - 1], t.db, q, q');
          var c := UpdateDeps(clk[b], v);
          clk := clk[b := c];
          pend := pend[b := pend[b] - 1];
          if pend[b] == 0 && b in t.db {
            q' := q' + [b];
          }
        } else {
          WokenStep(t.st, bs[..i], b, pend, pend, t.db, q, q');
        }
        i := i + 1;
      }
      assert bs[..i] == bs;
    }

    method Deliver(x: Id)
      requires Inv({x}) && x in t.st && t.st[x] == Initialized && x in t.pend && t.pend[x] == 0
      requires x in t.lk && x in t.fork && x in t.clk && ReadyToDeliver(t, g, x)
      requires forall d | d in t.lk[x].deps :: !Reaches(g, t.lk[x].prev, d)
      requires x in t.payload
      requires t.payload[x].ForkProof? ==> 0 <= t.payload[x].left.src && t.payload[x].left.src in s.forkFound
      modifies this`t, this`s, this`q, this`events, this`g
      ensures Valid() && t.st == old(t).st[x := Delivered] && t.lk == old(t).lk && t.db == old(t).db
      ensures t.fork == old(t).fork && t.next == old(t).next && t.payload == old(t).payload && s == old(s).(dh := s.dh)
      ensures g == old(g)[x := NodeOf(old(t), x)] && events == old(events) + [NewBlock(x, g[x])]
    {
      hide TableInv, BookInv, ForkIdsOk, EventsOk, Heeded, Vouched, CanExtend, LinkOk, Counted, Updated, Woken,
           DagOk, Done, OnlyAt;
      RunFacts(cnt, t, q, g, x);
      NotifyFacts(cnt, t, q, g, x);
      StreamGivesDagOf(cnt, events, g, s.blamed);
      ghost var order, n := Order(events), NodeOf(t, x);
      ReportAdmissible(cnt, t, q, g, {x}, s, events, x, n);
      DoneInBook(cnt, t.st, s, x);
      events := events + [NewBlock(x, NodeOf(t, x))];
      var clk, pend, q' := Notify(x);
      DoneKeeps(cnt, t, q, q', g, order, x, clk, pend);
      DoneTable(t, x, clk, pend);
      HeededMore(t.st, t.payload, s.forkFound, x);
      VouchedSame(checkSignature, t.st, t.st[x := Delivered], s.forkFound);
      t, q, g := Done(t, x, clk, pend), q', g[x := n];
      BlockDelivered(x.src, x.height);
    }

    /** The rest of running a block that has its fork: the checks, and delivery if it passes. */
    method Settle(x: Id)
      requires Inv({x}) && x in t.st && t.st[x] == Initialized && x in t.pend && t.pend[x] == 0
      requires x in t.lk && x in t.fork && x in t.clk && ReadyToDeliver(t, g, x) && DepsDelivered(t, s, x)
      requires Acceptable(cnt, incarnation, checkSignature, t, s, x) ==>
                 forall d | d in t.lk[x].deps :: !Reaches(g, t.lk[x].prev, d)
      modifies this`t, this`s, this`q, this`events, this`g
      ensures Valid() && old(events) <= events && x in t.st && t.lk == old(t).lk && t.db == old(t).db
      ensures t.fork == old(t).fork && t.next == old(t).next && t.payload == old(t).payload
      ensures s.ids == old(s).ids && s.prepared == old(s).prepared
      ensures if Acceptable(cnt, incarnation, checkSignature, old(t), old(s), x)
              then && t.st == old(t).st[x := Delivered] && x in g && x in t.payload
                   && Reported(old(s), s, old(events), events, x, g[x], t.payload[x])
              else t.st[x] == Ill && Sickened(old(t).st, t.st) && OnlyInfected(old(t).st, t.st, t.lk, x)
      ensures Unharmed(old(t), old(s), local) && NoneIll(t.st, local) ==> local !in s.blamed
    {
      hide TableInv, BookInv, ForkIdsOk, EventsOk, Heeded, Vouched, Sickened, OnlyInfected, Acceptable, DepsDelivered,
           ReadyToDeliver, Unharmed, NoneIll, Accused, Reaches;
      PayloadThere(t, s, x);
      PreDeliver(x);
      if t.st[x] == Initialized {
        ghost var t1 := t;
        Deliver(x);
        NoneLocal(t1.st, t1.st, t.st, x, local);
      }
    }

    /**
      Run a scheduled block. It is ignored unless it waits to be delivered; then it leaves that
      state for good: delivered if it passes the checks, ill otherwise. A fork proof it carries is heeded.
     */
    method Run(x: Id)
      requires Inv({x}) && x in t.st
      requires t.st[x] == Initialized ==> x in t.pend && t.pend[x] == 0 && x in t.db && x !in t.fork
      modifies this`t, this`s, this`q, this`events, this`g, this`totalForks
      ensures Valid() && old(events) <= events && Evolves(old(t).st, t.st) && t.lk == old(t).lk && t.db == old(t).db
      ensures t.st.Keys == old(t).st.Keys && t.payload == old(t).payload && s.prepared == old(s).prepared
      ensures if old(t).st[x] != Initialized then t == old(t) && s == old(s) && q == old(q) && events == old(events)
              else && RunOutcome(cnt, incarnation, checkSignature, old(t), old(s), t, x)
                   && Stamping(old(t), old(s), t, s, x)
      ensures old(t).st[x] == Initialized && t.st[x] == Delivered ==>
                x in g && x in t.payload && Reported(old(s), s, old(events), events, x, g[x], t.payload[x])
      ensures Unharmed(old(t), old(s), local) && NoneIll(t.st, local) ==> Unharmed(t, s, local)
    {
      hide TableInv, BookInv, ForkIdsOk, EventsOk, Heeded, Vouched, Sickened, OnlyInfected, Acceptable,
           DepsDelivered, LinkOk,
           Evolves, ReadyToDeliver, Forked, Waiting, Reported;
      hide Unharmed, NoneIll;
      if t.st[x] != Initialized {
        NothingToRun(cnt, t, q, g, x);
        EvolvesSame(t.st);
        return;
      }
      RunFacts(cnt, t, q, g, x);
      BookLength(cnt, t.st, s);
      DepsAreDelivered(cnt, t, q, g, s, x);
      assert t.pend[x] == 0 && x in t.db && x !in t.fork;
      ghost var t0, s0 := t, s;
      AcceptableIsFresh(cnt, incarnation, checkSignature, t, q, g, s, events, x);
      InitializeFork(x);
      ghost var s1 := s;
      ForkedTable(t0, x, t.fork[x], ContinuesFork(t0, x));
      ForkedBook(s0, s, x);
      ForkedChecks(cnt, incarnation, checkSignature, t0, s0, s, x, t.fork[x], ContinuesFork(t0, x));
      UnharmedLater(t0, s0, t, s, local);
      Settle(x);
      if t.st[x] == Delivered {
        DeliveredEvolves(t0.st, x);
        ReportedSince(s0, s1, s, old(events), events, x, g[x], t.payload[x]);
      } else {
        SickenedEvolves(t0.st, t.st);
        SickenedTables(t0.st, t.st);
      }
      UnharmedLater(t0, s0, t, s, local);
    }

    /**
      Drain the queue. Terminates because every block that runs leaves the `Initialized` state; when
      the queue is empty no wake-up has been lost. If nothing can be rejected, nothing is.
     */
    method RunScheduler()
      requires Valid()
      modifies this`t, this`s, this`q, this`events, this`g, this`totalForks
      ensures Valid() && q == [] && Quiescent(t.st, t.lk, t.db)
      ensures Evolves(old(t).st, t.st) && old(events) <= events && t.lk == old(t).lk && t.db == old(t).db
      ensures t.st.Keys == old(t).st.Keys && t.payload == old(t).payload && s.prepared == old(s).prepared
      ensures old(q) != [] ==> HeadRan(cnt, incarnation, checkSignature, old(t), old(s), t, old(q)[0])
      ensures Calm(cnt, incarnation, checkSignature, old(t), old(s)) ==> Calm(cnt, incarnation, checkSignature, t, s)
      ensures Unharmed(old(t), old(s), local) && NoneIll(t.st, local) ==> Unharmed(t, s, local)
    {
      hide TableInv, BookInv, ForkIdsOk, EventsOk, Heeded, Vouched, Evolves, Quiescent, Sickened, OnlyInfected,
           Acceptable,
           DepsDelivered, Unsettled;
      hide Unharmed, NoneIll, Calm, Stamping, HeadRan, RunOutcome;
      EvolvesSame(t.st);
      ghost var first := true;
      while q != []
        invariant first ==> q == old(q) && t == old(t) && s == old(s)
        invariant !first ==> old(q) != [] && HeadRan(cnt, incarnation, checkSignature, old(t), old(s), t, old(q)[0])
        invariant Valid() && Evolves(old(t).st, t.st) && old(events) <= events && t.lk == old(t).lk && t.db == old(t).db
        invariant t.st.Keys == old(t).st.Keys && t.payload == old(t).payload && s.prepared == old(s).prepared
        invariant Calm(cnt, incarnation, checkSignature, old(t), old(s)) ==>
                    Calm(cnt, incarnation, checkSignature, t, s)
        invariant Unharmed(old(t), old(s), local) && NoneIll(t.st, local) ==> Unharmed(t, s, local)
        decreases Unsettled(t.st), |q|
      {
        var x := q[0];
        ghost var t0, s0, q0, g0, total0, ev0 := t, s, q[1..], g, totalForks, events;
        PopKeeps(cnt, t, q, g);
        q := q[1..];
        Run(x);
        EvolvesTransitive(old(t).st, t0.st, t.st);
        NoneWasIll(t0.st, t.st, local);
        if first {
          HeadNow(cnt, incarnation, checkSignature, t0, s0, t, x);
        } else {
          HeadStays(cnt, incarnation, checkSignature, old(t), old(s), t0, t, old(q)[0]);
        }
        if t0.st[x] == Initialized {
          SettledNow(cnt, incarnation, checkSignature, t0, s0, t, x);
          if Calm(cnt, incarnation, checkSignature, t0, s0) {
            CalmRun(cnt, incarnation, checkSignature, t0, q0, g0, s0, total0, ev0, t, s, x);
          }
        }
        first := false;
      }
      NothingLost(cnt, t, g);
    }

    // ---------------------------------------------------------------- incoming blocks

    /** Has any linked block fallen ill? */
    method AnyIll(k: Link) returns (ill: bool)
      requires forall l | IsLink(k, l) :: l in t.st
      ensures ill <==> exists l :: IsLink(k, l) && t.st[l] == Ill
    {
      assert IsLink(k, k.prev);
      if t.st[k.prev] == Ill {
        return true;
      }
      var i := 0;
      while i < |k.deps|
        invariant 0 <= i <= |k.deps|
        invariant forall j | 0 <= j < i :: t.st[k.deps[j]] != Ill
      {
        assert IsLink(k, k.deps[i]);
        if t.st[k.deps[i]] == Ill {
          return true;
        }
        i := i + 1;
      }
      return false;
    }

    /** Make every block that `k` links to known. */
    method TouchLinks(x: Id, k: Link, ghost pl: Payload)
      requires Valid() && x in t.st && t.st[x] == None && LinkOk(x, k)
      requires forall l | IsLink(k, l) ::
                 l == Root || (l.src < cnt && l.height > 0 && HasSignature(checkSignature, l))
      modifies this`t, this`s, this`events
      ensures Valid() && x in t.st && t.st[x] == None && forall l | IsLink(k, l) :: l in t.st
      ensures Evolves(old(t).st, t.st) && old(events) <= events && t.lk == old(t).lk
      ensures t.db == old(t).db && t.payload == old(t).payload
      ensures (forall l | IsLink(k, l) :: l in old(t).st) ==> t == old(t) && s == old(s)
      ensures Adds(old(t), old(s), t, s, LinkSet(k), pl, local)
    {
      hide TableInv, BookInv, ForkIdsOk, EventsOk, Heeded, Vouched, LinkOk, Evolves, Named, Noted, IsLink, Adds,
           Touching;
      PrevLink(k);
      TouchingStarts(t, s, x, k, pl, local);
      TouchingMore(cnt, old(t), old(s), t, s, x, k, pl, local, k.prev);
      Touch(k.prev);
      var i := 0;
      while i < |k.deps|
        invariant 0 <= i <= |k.deps| && Valid() && old(events) <= events
        invariant LinksTouched(t.st, k, i) && Touching(old(t), old(s), t, s, x, k, pl, local)
      {
        DepLink(k, i);
        TouchedMore(t, k, i);
        TouchingMore(cnt, old(t), old(s), t, s, x, k, pl, local, k.deps[i]);
        Touch(k.deps[i]);
        i := i + 1;
      }
      TouchedAll(t.st, k);
      TouchingMeans(old(t), old(s), t, s, x, k, pl, local);
    }

    /** Store the links of a block known only by name, and find out what it waits for. */
    method Initialize(x: Id, k: Link, pl: Payload)
      requires Valid() && x in t.st && t.st[x] == None && LinkOk(x, k)
      requires forall l | IsLink(k, l) ::
                 l == Root || (l.src < cnt && l.height > 0 && HasSignature(checkSignature, l))
      modifies this`t, this`s, this`q, this`events
      ensures Valid() && x in t.st && t.st[x] in {Initialized, Ill} && t.db == old(t).db && t.lk == old(t).lk[x := k]
      ensures Evolves(old(t).st, t.st) && old(events) <= events && t.payload == old(t).payload[x := pl]
      ensures Adds(old(t), old(s), t, s, LinkSet(k), pl, local)
      ensures LinksDelivered(old(t).st, k) ==> Admitted(old(t), old(s), old(q), t, s, q, x, k, pl)
    {
      hide TableInv, BookInv, ForkIdsOk, EventsOk, Heeded, Vouched, Evolves, LinkOk, IsLink, Admitted, Adds;
      TouchLinks(x, k, pl);
      ghost var t0, s0 := t, s;
      var ill := AnyIll(k);
      if ill {
        InitializeIll(x, k, pl);
      } else {
        InitializedEvolves(t0.st, x);
        InitializeHealthy(x, k, pl);
      }
      EvolvesTransitive(old(t).st, t0.st, t.st);
      AddsMore(old(t), old(s), t0, s0, t, s, LinkSet(k), {}, LinkSet(k), pl, local);
    }

    /** Find or create the block of a validated message and initialize it if it is new. */
    method CreateBlock(m: Msg) returns (x: Id)
      requires Valid() && ValidMsg(cnt, maxDeps, incarnation, t.st, checkSignature, m) && NoRootDeps(m)
      modifies this`t, this`s, this`q, this`events
      ensures Valid() && x == MsgId(m) && x in t.st && t.st[x] != None && t.db == old(t).db
      ensures Evolves(old(t).st, t.st) && old(events) <= events
      ensures Created(old(t), old(s), old(q), t, s, q, x, m)
      ensures Adds(old(t), old(s), t, s, LinkSet(MsgLink(m)) + {x}, m.payload, local)
    {
      hide TableInv, BookInv, ForkIdsOk, EventsOk, Heeded, Vouched, Evolves, ValidMsg, LinkOk, IsLink, Admitted,
           LinksDelivered,
           Named, Noted, Adds;
      ValidMsgLinks(cnt, maxDeps, incarnation, t.st, checkSignature, m);
      ValidMsgSigned(cnt, maxDeps, incarnation, t.st, checkSignature, s.forkFound, m);
      x := MsgId(m);
      var k := MsgLink(m);
      ghost var ns := LinkSet(k) + {x};
      EvolvesSame(t.st);
      NamedEvolves(t, x);
      NamedTable(t, x);
      TouchAdds(cnt, t, s, x, m.payload, local);
      AddsNothing(t, s, ns, m.payload, local);
      Touch(x);
      AddsMore(old(t), old(s), old(t), old(s), t, s, ns, {x}, ns, m.payload, local);
      if t.st[x] == None {
        ghost var t1, s1 := t, s;
        BookLength(cnt, t.st, s);
        if LinksDelivered(old(t).st, k) {
          NamedLinks(old(t), x, k);
        }
        Initialize(x, k, m.payload);
        EvolvesTransitive(old(t).st, t1.st, t.st);
        AddsMore(old(t), old(s), t1, s1, t, s, ns, LinkSet(k), ns, m.payload, local);
        if LinksDelivered(old(t).st, k) {
          NamedAdmits(old(t), old(s), t1, s1, old(q), t, s, q, x, k, m.payload);
        }
      }
    }

    /** Enter a validated block, which then counts as stored. If its links are delivered it is next to run. */
    method Enter(m: Msg) returns (x: Id)
      requires Valid() && q == [] && NoRootDeps(m) && ValidMsg(cnt, maxDeps, incarnation, t.st, checkSignature, m)
      modifies this`t, this`s, this`q, this`events
      ensures Valid() && x == MsgId(m) && x in t.st && t.st[x] != None && t.db == old(t).db + {x}
      ensures Evolves(old(t).st, t.st) && old(events) <= events
      ensures t.lk == if IsNew(old(t).st, x) then old(t).lk[x := MsgLink(m)] else old(t).lk
      ensures t.payload == if IsNew(old(t).st, x) then old(t).payload[x := m.payload] else old(t).payload
      ensures Adds(old(t), old(s), t, s, LinkSet(MsgLink(m)) + {x}, m.payload, local)
      ensures IsNew(old(t).st, x) && LinksDelivered(old(t).st, MsgLink(m)) ==>
                Ready(cnt, incarnation, checkSignature, old(t), old(s), t, s, q, m)
      ensures IsNew(old(t).st, x) && LinksDelivered(old(t).st, MsgLink(m)) && OwnAlone(old(t), old(s), m) ==>
                s.prepared == old(s).prepared && (Unharmed(old(t), old(s), local) ==> Unharmed(t, s, local))
    {
      hide TableInv, BookInv, ForkIdsOk, EventsOk, Heeded, Vouched, Evolves, ValidMsg, Admitted, LinksDelivered,
           Ready, OwnAlone;
      hide Unharmed, Adds, Created, MsgLink;
      ghost var k, q0 := MsgLink(m), q;
      x := CreateBlock(m);
      ghost var t1 := t;
      CreatedLinks(old(t), old(s), q0, t, s, q, x, m);
      WrittenAdds(t, s, x, m.payload, local);
      EvolvesSame(t.st);
      AddsMore(old(t), old(s), t, s, t.(db := t.db + {x}), s, LinkSet(k) + {x}, {}, LinkSet(k) + {x}, m.payload, local);
      if IsNew(old(t).st, x) && LinksDelivered(old(t).st, k) {
        CreatedAdmits(old(t), old(s), q0, t, s, q, x, m);
        AdmittedReady(cnt, maxDeps, incarnation, checkSignature, old(t), q0, g, old(s), t, s, q, m);
        if OwnAlone(old(t), old(s), m) {
          OwnAdmitted(old(t), old(s), q0, t, s, q, m);
        }
      }
      Written(x);
    }

    lemma OwnAdmitted(t: Table, s: Book, q: seq<Id>, t': Table, s': Book, q': seq<Id>, m: Msg)
      requires Admitted(t, s, q, t', s', q', MsgId(m), MsgLink(m), m.payload) && OwnAlone(t, s, m)
      ensures s'.prepared == s.prepared
      ensures Unharmed(t, s, local) ==> Unharmed(t'.(db := t'.db + {MsgId(m)}), s', local)
    {
      hide Admitted, Unharmed, Accuses, MsgLink;
      UnharmedOwn(t, s, q, t', s', q', MsgId(m), MsgLink(m), m.payload, local);
      UnharmedLater(t', s', t'.(db := t'.db + {MsgId(m)}), s', local);
    }

    /** A block arrives from the network. If its links are delivered it is delivered at once or ill. */
    method ReceiveBlock(m: Msg)
      requires Valid() && q == [] && 0 <= m.src < cnt
      requires ValidMsg(cnt, maxDeps, incarnation, t.st, checkSignature, m) ==> NoRootDeps(m)
      modifies this`t, this`s, this`q, this`events, this`g, this`totalForks
      ensures Valid() && q == [] && Quiescent(t.st, t.lk, t.db)
      ensures Evolves(old(t).st, t.st) && old(events) <= events && old(s).prepared <= s.prepared
      ensures !Stores(m, old(t)) ==> t == old(t) && s == old(s) && events == old(events)
      ensures ValidMsg(cnt, maxDeps, incarnation, old(t).st, checkSignature, m) ==>
                MsgId(m) in t.st && t.st[MsgId(m)] != None
      ensures t.lk == if Stores(m, old(t)) && IsNew(old(t).st, MsgId(m)) then old(t).lk[MsgId(m) := MsgLink(m)]
                      else old(t).lk
      ensures Stores(m, old(t)) && IsNew(old(t).st, MsgId(m)) && t.st[MsgId(m)] == Delivered && m.payload.ForkProof? ==>
                0 <= m.payload.left.src && m.payload.left.src in s.forkFound && m.payload.left.src in s.blamed
      ensures t.db == if Stores(m, old(t)) then old(t).db + {MsgId(m)} else old(t).db
      ensures t.st.Keys <= old(t).st.Keys + LinkSet(MsgLink(m)) + {MsgId(m)}
      ensures Stores(m, old(t)) && IsNew(old(t).st, MsgId(m)) && LinksDelivered(old(t).st, MsgLink(m)) ==>
                Decided(cnt, incarnation, checkSignature, old(t), old(s), t, m)
      ensures (&& Unharmed(old(t), old(s), local) && NoneIll(t.st, local)
               && Harmless(old(t).st, LinkSet(MsgLink(m)) + {MsgId(m)}, m.payload, local))
              ==> Unharmed(t, s, local)
    {
      hide TableInv, BookInv, ForkIdsOk, EventsOk, Heeded, Vouched, Evolves, ValidMsg, Quiescent, Adds, Unharmed,
           NoneIll,
           Harmless,
           Calm, LinksDelivered, Ready, Decided, OwnAlone, HeadRan, MsgLink;
      EvolvesSame(t.st);
      assert Quiescent(t.st, t.lk, t.db) by { NothingLost(cnt, t, g); }
      if MsgId(m) in t.st && (t.st[MsgId(m)] == Initialized || t.st[MsgId(m)] == Delivered) {
        return;
      }
      var good := Validate(m);
      if !good {
        return;
      }
      var x := Enter(m);
      ghost var t1, s1, q1 := t, s, q;
      AddsMeans(old(t), old(s), t, s, LinkSet(MsgLink(m)) + {x}, m.payload, local);
      RunScheduler();
      if IsNew(old(t).st, x) && LinksDelivered(old(t).st, MsgLink(m)) {
        ReadyNames(cnt, incarnation, checkSignature, old(t), old(s), t1, s1, q1, m);
        ReadyRan(cnt, incarnation, checkSignature, old(t), old(s), t1, s1, q1, t, m);
      }
      EvolvesTransitive(old(t).st, t1.st, t.st);
      EvolvesKeeps(t1.st, t.st, x);
      NoneWasIll(t1.st, t.st, local);
      if IsNew(old(t).st, x) && t.st[x] == Delivered && m.payload.ForkProof? {
        ProofIsHeeded(cnt, t, s, x, m.payload);
      }
    }

    /** Is the message valid and not yet held as a healthy block? Then it is stored. */
    predicate Stores(m: Msg, t: Table) {
      && ValidMsg(cnt, maxDeps, incarnation, t.st, checkSignature, m)
      && !(MsgId(m) in t.st && (t.st[MsgId(m)] == Initialized || t.st[MsgId(m)] == Delivered))
    }

    /** The own block is new, its height is free, and it does not accuse its sender. */
    ghost predicate OwnAlone(t: Table, s: Book, m: Msg) {
      m.src == local < |s.at| && MsgId(m).Blk? && MsgId(m) !in t.st && MsgId(m).height !in s.at[local] &&
        !Accuses(m.payload, local)
    }

    /**
      The last step of sending an own block, once it is signed and stored: it is delivered at once if and
      only if it passes the checks made before delivery.
     */
    method AddOwnBlock(m: Msg)
      requires Valid() && q == [] && NoRootDeps(m) && ValidMsg(cnt, maxDeps, incarnation, t.st, checkSignature, m)
      requires IsNew(t.st, MsgId(m)) && LinksDelivered(t.st, MsgLink(m))
      modifies this`t, this`s, this`q, this`events, this`g, this`totalForks
      ensures Valid() && q == [] && Quiescent(t.st, t.lk, t.db)
      ensures Evolves(old(t).st, t.st) && old(events) <= events && t.st.Keys == old(t).st.Keys + {MsgId(m)}
      ensures t.lk == old(t).lk[MsgId(m) := MsgLink(m)] && old(s).prepared <= s.prepared
      ensures Decided(cnt, incarnation, checkSignature, old(t), old(s), t, m)
      ensures t.st[MsgId(m)] == Delivered && m.payload.ForkProof? ==>
                0 <= m.payload.left.src && m.payload.left.src in s.forkFound && m.payload.left.src in s.blamed
      ensures OwnAlone(old(t), old(s), m) ==>
                s.prepared == old(s).prepared &&
                  (Unharmed(old(t), old(s), local) && NoneIll(t.st, local) ==> Unharmed(t, s, local))
    {
      hide TableInv, BookInv, ForkIdsOk, EventsOk, Heeded, Vouched, Evolves, ValidMsg, Quiescent, LinksDelivered,
           Adds, Decided;
      hide Unharmed, NoneIll, Calm, Accuses, HeadRan, MsgLink, OwnAlone, Ready;
      var x := Enter(m);
      ghost var t1, s1, q1 := t, s, q;
      AddsMeans(old(t), old(s), t, s, LinkSet(MsgLink(m)) + {x}, m.payload, local);
      ReadyNames(cnt, incarnation, checkSignature, old(t), old(s), t, s, q, m);
      RunScheduler();
      ReadyRan(cnt, incarnation, checkSignature, old(t), old(s), t1, s1, q1, t, m);
      EvolvesTransitive(old(t).st, t1.st, t.st);
      if t.st[x] == Delivered && m.payload.ForkProof? {
        ProofIsHeeded(cnt, t, s, x, m.payload);
      }
    }

    constructor (cnt: nat, local: nat, maxDeps: nat, incarnation: nat, checkSignature: (Id, nat) -> bool)
      ensures Valid() && q == [] && events == [] && t == FreshTable() && s == FreshBook(cnt) && g == map[]
      ensures totalForks == 0
      ensures this.cnt == cnt && this.local == local && this.maxDeps == maxDeps
      ensures this.incarnation == incarnation && this.checkSignature == checkSignature
    {
      this.cnt, this.local, this.maxDeps, this.incarnation, this.checkSignature := cnt, local, maxDeps, incarnation,
        checkSignature;
      t := FreshTable();
      s := FreshBook(cnt);
      q, totalForks, events, g := [], 0, [], map[];
      FreshInv(cnt);
    }
  }
}
