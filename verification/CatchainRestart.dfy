/**
  A restarted receiver: it reads back the block that the last-block pointer names and everything that
  block depends on, in any order of completion, and then runs the queue.

  What it reads is accepted again if no two of the blocks share a source and a height, or only first blocks of
  a source depend directly on such sources. If two do, the reads themselves find the fork, and the receiver
  begins an own block before it knows its last one.
 */
module CatchainRestart {
  import opened CatchainDag
  import opened CatchainState
  import opened CatchainTables
  import opened CatchainTheorems
  import opened CatchainReplay
  import opened CatchainReceiver

  // ---------------------------------------------------------------- what is stored

  function LinksOf(d: map<Id, Msg>): (lk: map<Id, Link>)
    ensures lk.Keys == d.Keys
  {
    map x | x in d :: MsgLink(d[x])
  }

  /** Every message is stored under its name. */
  ghost predicate Filed(d: map<Id, Msg>) {
    forall x | x in d :: x != Root && MsgId(d[x]) == x && NoRootDeps(d[x])
  }

  /** `ord` lists stored blocks, each after the blocks it links to. */
  ghost predicate Ordered(lk: map<Id, Link>, ord: seq<Id>) {
    && (forall x | x in ord :: x in lk)
    && forall i, l | 0 <= i < |ord| && IsLink(lk[ord[i]], l) && l != Root :: l in ord[..i]
  }

  /** `x` is `p` or one of its ancestors. */
  ghost predicate Needed(lk: map<Id, Link>, p: Id, x: Id) {
    x != Root && Linked(lk, p, x)
  }

  /** No two of them share a source and a height. */
  ghost predicate Unforked(lk: map<Id, Link>, p: Id) {
    forall x, y {:trigger SameSource(x, y)} | Needed(lk, p, x) && Needed(lk, p, y) && SameSource(x, y) &&
      x.height == y.height :: x == y
  }

  /** Two of them are of `src` and of one height. */
  ghost predicate ForkBelow(lk: map<Id, Link>, p: Id, src: nat) {
    exists x, y {:trigger SameSource(x, y)} ::
      Needed(lk, p, x) && Needed(lk, p, y) && SameSource(x, y) && x.src == src && x.height == y.height && x != y
  }

  /** Only first blocks of a source depend directly on such sources. */
  ghost predicate Steady(lk: map<Id, Link>, p: Id) {
    forall x, e | Needed(lk, p, x) && x in lk && e in lk[x].deps && lk[x].prev != Root && e.Blk? ::
      !ForkBelow(lk, p, e.src)
  }

  lemma UnforkedIsSteady(lk: map<Id, Link>, p: Id)
    requires Unforked(lk, p)
    ensures Steady(lk, p)
  {
    hide Needed;
  }

  /** None of them depends directly on what its predecessor depends on; so it is with blocks that were delivered. */
  ghost predicate FreshBelow(lk: map<Id, Link>, p: Id) {
    forall x, e | Needed(lk, p, x) && x in lk && e in lk[x].deps :: !Linked(lk, lk[x].prev, e)
  }

  /** The message is valid by its signatures alone, whatever names are known. */
  predicate ValidAlone(cnt: nat, maxDeps: nat, incarnation: nat, sigOk: (Id, nat) -> bool, m: Msg) {
    && ValidMsg(cnt, maxDeps, incarnation, map[], sigOk, m)
    && (m.payload.ForkProof? ==> ProofOk(cnt, incarnation, map[], sigOk, m.payload.left, m.payload.right))
  }

  ghost predicate AllAlone(cnt: nat, maxDeps: nat, incarnation: nat, sigOk: (Id, nat) -> bool, d: map<Id, Msg>, p: Id) {
    forall x | Needed(LinksOf(d), p, x) && x in d :: ValidAlone(cnt, maxDeps, incarnation, sigOk, d[x])
  }

  // ---------------------------------------------------------------- paths

  lemma LinkedSelf(lk: map<Id, Link>, a: Id)
    ensures Linked(lk, a, a)
  {
    assert LinkPath(lk, [a]);
  }

  lemma LinkedMore(lk: map<Id, Link>, a: Id, b: Id, l: Id)
    requires Linked(lk, a, b) && b in lk && IsLink(lk[b], l)
    ensures Linked(lk, a, l)
  {
    var p :| LinkPath(lk, p) && p[0] == a && p[|p| - 1] == b;
    var q := p + [l];
    forall i | 0 <= i < |q| - 1 ensures q[i] in lk && IsLink(lk[q[i]], q[i + 1]) {
      if i < |p| - 1 {
        assert q[i] == p[i] && q[i + 1] == p[i + 1];
      }
    }
    assert LinkPath(lk, q);
  }

  /** The last step of a path that is not trivial. */
  lemma LinkedLast(lk: map<Id, Link>, a: Id, b: Id) returns (y: Id)
    requires Linked(lk, a, b) && a != b
    ensures y in lk && IsLink(lk[y], b) && Linked(lk, a, y)
  {
    var p :| LinkPath(lk, p) && p[0] == a && p[|p| - 1] == b;
    y := p[|p| - 2];
    assert p[|p| - 2 + 1] == b && LinkPath(lk, p[..|p| - 1]);
  }

  lemma LinkedWithin(lk: map<Id, Link>, lk': map<Id, Link>, a: Id, b: Id)
    requires Linked(lk, a, b) && forall x | x in lk :: x in lk' && lk'[x] == lk[x]
    ensures Linked(lk', a, b)
  {
    var p :| LinkPath(lk, p) && p[0] == a && p[|p| - 1] == b;
    assert LinkPath(lk', p);
  }

  /** A set of blocks that holds `p` and, with each block, what it links to, holds all that `p` needs. */
  lemma {:induction false} ClosedHolds(lk: map<Id, Link>, has: set<Id>, path: seq<Id>)
    requires LinkPath(lk, path) && path[0] in has && Root !in lk
    requires forall x, l | x in has && x in lk && IsLink(lk[x], l) && l != Root :: l in has
    ensures path[|path| - 1] == Root || path[|path| - 1] in has
    decreases |path|
  {
    if |path| > 1 {
      var rest := path[1..];
      assert path[0 + 1] == rest[0] && LinkPath(lk, rest);
      if rest[0] != Root {
        ClosedHolds(lk, has, rest);
      }
    }
  }

  lemma NeededHeld(lk: map<Id, Link>, has: set<Id>, p: Id, x: Id)
    requires Needed(lk, p, x) && p in has && Root !in lk
    requires forall y, l | y in has && y in lk && IsLink(lk[y], l) && l != Root :: l in has
    ensures x in has
  {
    var path :| LinkPath(lk, path) && path[0] == p && path[|path| - 1] == x;
    ClosedHolds(lk, has, path);
  }

  lemma NeededListed(lk: map<Id, Link>, ord: seq<Id>, p: Id, x: Id)
    requires Ordered(lk, ord) && p in ord && Needed(lk, p, x) && Root !in lk
    ensures x in ord && x in lk
  {
    var has := set y | y in ord;
    forall y, l | y in has && y in lk && IsLink(lk[y], l) && l != Root ensures l in has {
      var j :| 0 <= j < |ord| && ord[j] == y;
      assert l in ord[..j];
    }
    NeededHeld(lk, has, p, x);
  }

  // ---------------------------------------------------------------- reading

  /** The blocks of `d` that `p` needs have been entered, except for those in `todo` and below. */
  ghost predicate Loading(d: map<Id, Msg>, p: Id, t: Table, todo: seq<Id>) {
    && Held(d, p, t) && (forall x | x in todo :: Needed(LinksOf(d), p, x))
    && (p in t.lk || p in todo) && LinksHeld(t.lk, todo)
  }

  /** The blocks entered are as stored, and only names of needed blocks are known. */
  ghost predicate Held(d: map<Id, Msg>, p: Id, t: Table) {
    && (forall x | x in t.lk ::
       x in d && t.lk[x] == MsgLink(d[x]) && x in t.payload && t.payload[x] == d[x].payload && x in t.db)
    && (forall x | x in t.st && x != Root :: Needed(LinksOf(d), p, x))
  }

  ghost predicate LinksHeld(lk: map<Id, Link>, todo: seq<Id>) {
    forall x, l | x in lk && IsLink(lk[x], l) && l != Root :: l in lk || l in todo
  }

  lemma LoadStarts(d: map<Id, Msg>, p: Id)
    requires p != Root
    ensures Loading(d, p, FreshTable(), [p])
  {
    LinkedSelf(LinksOf(d), p);
  }

  lemma Without(todo: seq<Id>, i: nat)
    requires i < |todo|
    ensures forall x | x in todo :: x == todo[i] || x in todo[..i] + todo[i + 1..]
    ensures forall x | x in todo[..i] + todo[i + 1..] :: x in todo
  {
    assert todo == todo[..i] + [todo[i]] + todo[i + 1..];
  }

  /** A block read a second time. */
  lemma LoadedAgain(d: map<Id, Msg>, p: Id, t: Table, todo: seq<Id>, i: nat)
    requires Loading(d, p, t, todo) && i < |todo| && todo[i] in t.lk
    ensures Loading(d, p, t, todo[..i] + todo[i + 1..])
  {
    hide Needed, IsLink;
    Without(todo, i);
  }

  /** A block read for the first time. */
  lemma LoadedNow(d: map<Id, Msg>, p: Id, t: Table, t': Table, todo: seq<Id>, i: nat, more: seq<Id>)
    requires Loading(d, p, t, todo) && i < |todo| && todo[i] in d && todo[i] !in t.lk
    requires t'.lk == t.lk[todo[i] := MsgLink(d[todo[i]])]
    requires t'.payload == t.payload[todo[i] := d[todo[i]].payload] && t'.db == t.db + {todo[i]}
    requires t'.st.Keys <= t.st.Keys + LinkSet(MsgLink(d[todo[i]])) + {todo[i]}
    requires forall l :: l in more <==> IsLink(MsgLink(d[todo[i]]), l) && l != Root && l !in t'.lk
    ensures Loading(d, p, t', todo[..i] + todo[i + 1..] + more)
  {
    hide Linked, IsLink, Held, LinksHeld, MsgLink;
    var y, lk, k := todo[i], LinksOf(d), MsgLink(d[todo[i]]);
    Without(todo, i);
    assert y in todo && Needed(lk, p, y);
    forall l | IsLink(k, l) && l != Root ensures Needed(lk, p, l) {
      LinkedMore(lk, p, y, l);
    }
    HeldNow(d, p, t, t', y, k);
    LinksHeldNow(t.lk, todo, y, k, todo[..i] + todo[i + 1..], more);
  }

  lemma HeldNow(d: map<Id, Msg>, p: Id, t: Table, t': Table, y: Id, k: Link)
    requires Held(d, p, t) && y in d && k == MsgLink(d[y]) && Needed(LinksOf(d), p, y) && y !in t.lk
    requires t'.lk == t.lk[y := k] && t'.payload == t.payload[y := d[y].payload] && t'.db == t.db + {y}
    requires t'.st.Keys <= t.st.Keys + LinkSet(k) + {y}
    requires forall l | IsLink(k, l) && l != Root :: Needed(LinksOf(d), p, l)
    ensures Held(d, p, t')
  {
    hide Needed, IsLink, MsgLink;
  }

  lemma LinksHeldNow(lk: map<Id, Link>, todo: seq<Id>, y: Id, k: Link, rest: seq<Id>, more: seq<Id>)
    requires LinksHeld(lk, todo) && forall x | x in todo :: x == y || x in rest
    requires forall l :: l in more <==> IsLink(k, l) && l != Root && l !in lk[y := k]
    ensures LinksHeld(lk[y := k], rest + more)
  {
    hide IsLink;
  }

  /** The links of `k` that are not in `lk`, in the order the reads are issued. */
  function Unknown(k: Link, lk: map<Id, Link>): (r: seq<Id>)
    ensures forall l :: l in r <==> IsLink(k, l) && l != Root && l !in lk
  {
    Missing(k.deps, lk) + Missing([k.prev], lk)
  }

  function Missing(ls: seq<Id>, lk: map<Id, Link>): (r: seq<Id>)
    ensures forall l :: l in r <==> l in ls && l != Root && l !in lk
  {
    if ls == [] then [] else
      assert ls == [ls[0]] + ls[1..];
      (if ls[0] == Root || ls[0] in lk then [] else [ls[0]]) + Missing(ls[1..], lk)
  }

  lemma ReadFacts(d: map<Id, Msg>, p: Id, ord: seq<Id>, cnt: nat, t: Table, q: seq<Id>, g: Dag, todo: seq<Id>, i: nat)
    requires Filed(d) && Ordered(LinksOf(d), ord) && p in ord && Loading(d, p, t, todo) && i < |todo|
    requires TableInv(cnt, t, q, g, {})
    ensures todo[i] in d && todo[i] != Root && MsgId(d[todo[i]]) == todo[i] && NoRootDeps(d[todo[i]])
    ensures Needed(LinksOf(d), p, todo[i])
    ensures todo[i] !in t.lk ==> todo[i] !in t.st || t.st[todo[i]] == None
    ensures t.lk.Keys <= d.Keys
  {
    hide Needed, HealthOk, RevOk, PendingOk, QueueOk, ClocksOk, GraphOk, NextOk, NextFrom, RunOk, NoRootDeps;
    NeededListed(LinksOf(d), ord, p, todo[i]);
  }

  lemma KnownNamesHelp(cnt: nat, maxDeps: nat, incarnation: nat, known: map<Id, BlockState>,
                       sigOk: (Id, nat) -> bool, m: Msg)
    requires ValidAlone(cnt, maxDeps, incarnation, sigOk, m)
    ensures ValidMsg(cnt, maxDeps, incarnation, known, sigOk, m)
  {
    assert forall i | 0 <= i < |m.deps| :: ValidDep(cnt, incarnation, map[], sigOk, m.deps[i]);
  }

  /** The reference carries a good signature, or needs none. */
  predicate SignedRef(sigOk: (Id, nat) -> bool, d: Dep) {
    d.height > 0 ==> sigOk(DepId(d), d.sig)
  }

  /**
    When a message that was valid where it came in is valid by its signatures alone: exactly if its references
    are signed. A reference to a known block is not looked at, so its signature may be bad.
   */
  lemma AloneMeans(cnt: nat, maxDeps: nat, incarnation: nat, known: map<Id, BlockState>, sigOk: (Id, nat) -> bool,
                   m: Msg)
    requires ValidMsg(cnt, maxDeps, incarnation, known, sigOk, m)
    ensures ValidMsg(cnt, maxDeps, incarnation, map[], sigOk, m) <==>
              SignedRef(sigOk, m.prev) && forall i | 0 <= i < |m.deps| :: SignedRef(sigOk, m.deps[i])
  {
    assert forall i | 0 <= i < |m.deps| :: ValidDep(cnt, incarnation, known, sigOk, m.deps[i]);
    if ValidMsg(cnt, maxDeps, incarnation, map[], sigOk, m) {
      assert forall i | 0 <= i < |m.deps| :: ValidDep(cnt, incarnation, map[], sigOk, m.deps[i]);
    }
  }

  /**
    Read the block `p` and, for each link of a block read, the linked block unless it has been read; a
    block that is no longer valid ends the program.
   */
  method Load(rec: Receiver, d: map<Id, Msg>, p: Id, ghost ord: seq<Id>) returns (ok: bool)
    requires rec.Valid() && rec.t == FreshTable() && rec.s == FreshBook(rec.cnt)
    requires Filed(d) && Ordered(LinksOf(d), ord) && p in ord && p != Root
    modifies rec`t, rec`s, rec`q, rec`events
    ensures rec.Valid() && Reading(rec.t, rec.s)
    ensures ok ==> Loading(d, p, rec.t, [])
    ensures AllAlone(rec.cnt, rec.maxDeps, rec.incarnation, rec.checkSignature, d, p) ==> ok
  {
    hide TableInv, BookInv, ForkIdsOk, EventsOk, Heeded, Vouched, Loading, Reading, Adds, Evolves, ValidMsg, ValidAlone,
         NoRootDeps,
         Filed, Ordered, Admitted, Needed, LinksDelivered;
    var todo := [p];
    LoadStarts(d, p);
    ReadStarts(rec.cnt);
    while todo != []
      invariant rec.Valid() && Loading(d, p, rec.t, todo) && Reading(rec.t, rec.s)
      decreases d.Keys - rec.t.lk.Keys, |todo|
    {
      var i: nat :| i < |todo|;
      var y := todo[i];
      ReadFacts(d, p, ord, rec.cnt, rec.t, rec.q, rec.g, todo, i);
      if y in rec.t.lk {
        LoadedAgain(d, p, rec.t, todo, i);
        todo := todo[..i] + todo[i + 1..];
      } else {
        if AllAlone(rec.cnt, rec.maxDeps, rec.incarnation, rec.checkSignature, d, p) {
          KnownNamesHelp(rec.cnt, rec.maxDeps, rec.incarnation, rec.t.st, rec.checkSignature, d[y]);
        }
        var good := rec.Validate(d[y]);
        if !good {
          return false;
        }
        ghost var t0, s0 := rec.t, rec.s;
        var x := rec.CreateBlock(d[y]);
        ghost var t1 := rec.t;
        rec.Written(x);
        ReadAdds(t0, s0, t1, rec.s, rec.t, d[y], x, rec.local);
        LoadedNow(d, p, t0, rec.t, todo, i, Unknown(MsgLink(d[y]), rec.t.lk));
        todo := todo[..i] + todo[i + 1..] + Unknown(MsgLink(d[y]), rec.t.lk);
        assert y in d.Keys - t0.lk.Keys && y !in d.Keys - rec.t.lk.Keys;
      }
    }
    return true;
  }

  lemma ReadStarts(cnt: nat)
    ensures Reading(FreshTable(), FreshBook(cnt))
  {
  }

  lemma ReadAdds(t: Table, s: Book, t1: Table, s1: Book, t2: Table, m: Msg, x: Id, l: nat)
    requires Adds(t, s, t1, s1, LinkSet(MsgLink(m)) + {x}, m.payload, l) && t2 == t1.(db := t1.db + {x})
    requires Reading(t, s)
    ensures Reading(t2, s1) && t2.st.Keys <= t.st.Keys + LinkSet(MsgLink(m)) + {x}
  {
    hide ForkKnown, Harmless;
  }

  // ---------------------------------------------------------------- running

  /** All that `p` needs has been entered. */
  lemma LoadedIsNeeded(d: map<Id, Msg>, p: Id, t: Table, x: Id)
    requires Filed(d) && Loading(d, p, t, [])
    ensures Needed(LinksOf(d), p, x) ==> x in t.lk
  {
    hide Linked, NoRootDeps;
    if Needed(LinksOf(d), p, x) {
      NeededHeld(LinksOf(d), t.lk.Keys, p, x);
    }
  }

  /** A fork is known exactly if two of the needed blocks make one. */
  lemma ForkIsNeeded(cnt: nat, d: map<Id, Msg>, p: Id, t: Table)
    requires Filed(d) && Loading(d, p, t, []) && TablesOk(cnt, t.st, t.lk)
    ensures ForkKnown(t.st) <==> !Unforked(LinksOf(d), p)
  {
    hide Linked, NoRootDeps, IsLink, LinkOk;
    if ForkKnown(t.st) {
      var x, y :| x in t.st && y in t.st && SameSource(x, y) && x.height == y.height && x != y;
      assert SameSource(x, y);
    }
    if !Unforked(LinksOf(d), p) {
      var x, y :| Needed(LinksOf(d), p, x) && Needed(LinksOf(d), p, y) && SameSource(x, y) && x.height == y.height &&
        x != y;
      LoadedIsNeeded(d, p, t, x);
      LoadedIsNeeded(d, p, t, y);
      assert x in t.st && y in t.st && SameSource(x, y);
    }
  }

  lemma KnownForkIsNeeded(d: map<Id, Msg>, p: Id, t: Table, src: nat)
    requires Held(d, p, t)
    ensures ForkAt(t.st, src) ==> ForkBelow(LinksOf(d), p, src)
  {
    hide Linked;
    if ForkAt(t.st, src) {
      var x, y :| x in t.st && y in t.st && SameSource(x, y) && x.src == src && x.height == y.height && x != y;
      assert SameSource(x, y);
    }
  }

  lemma HeldIsNeeded(cnt: nat, d: map<Id, Msg>, p: Id, t: Table, x: Id)
    requires Filed(d) && Held(d, p, t) && TablesOk(cnt, t.st, t.lk) && x in t.lk
    ensures Needed(LinksOf(d), p, x) && x in d && LinksOf(d)[x] == t.lk[x] && x in t.payload
    ensures t.payload[x] == d[x].payload
  {
    hide Needed, NoRootDeps, LinkOk, LinksKnown;
  }

  lemma ReadIsSteady(cnt: nat, d: map<Id, Msg>, p: Id, t: Table)
    requires Filed(d) && Held(d, p, t) && TablesOk(cnt, t.st, t.lk) && Steady(LinksOf(d), p)
    ensures SteadyLinks(t.st, t.lk)
  {
    hide Filed, Held, TablesOk, Needed, ForkAt, ForkBelow;
    forall x, e | x in t.lk && e in t.lk[x].deps && t.lk[x].prev != Root && e.Blk? ensures !ForkAt(t.st, e.src) {
      HeldIsNeeded(cnt, d, p, t, x);
      KnownForkIsNeeded(d, p, t, e.src);
    }
  }

  lemma ReadIsFresh(cnt: nat, d: map<Id, Msg>, p: Id, t: Table)
    requires Filed(d) && Held(d, p, t) && TablesOk(cnt, t.st, t.lk) && FreshBelow(LinksOf(d), p)
    ensures FreshLinks(t.lk)
  {
    hide Filed, Held, TablesOk, Linked;
    forall x | x in t.lk ensures Needed(LinksOf(d), p, x) && x in d && LinksOf(d)[x] == t.lk[x] {
      HeldIsNeeded(cnt, d, p, t, x);
    }
    forall x, e | x in t.lk && e in t.lk[x].deps ensures !Linked(t.lk, t.lk[x].prev, e) {
      if Linked(t.lk, t.lk[x].prev, e) {
        LinkedWithin(t.lk, LinksOf(d), t.lk[x].prev, e);
      }
    }
  }

  lemma ReadIsSound(cnt: nat, maxDeps: nat, incarnation: nat, sigOk: (Id, nat) -> bool, d: map<Id, Msg>, p: Id,
                    t: Table)
    requires Filed(d) && Held(d, p, t) && TablesOk(cnt, t.st, t.lk) && t.payload.Keys == t.lk.Keys
    requires AllAlone(cnt, maxDeps, incarnation, sigOk, d, p)
    ensures SoundProofs(cnt, incarnation, sigOk, t.payload)
  {
    hide Filed, Held, TablesOk, Needed, ValidMsg, ProofOk;
    forall x | x in t.payload && t.payload[x].ForkProof?
      ensures ProofOk(cnt, incarnation, map[], sigOk, t.payload[x].left, t.payload[x].right) {
      HeldIsNeeded(cnt, d, p, t, x);
      assert ValidAlone(cnt, maxDeps, incarnation, sigOk, d[x]);
    }
  }

  /** What has been read is calm: nothing of it will be rejected. */
  lemma ReadIsCalm(cnt: nat, maxDeps: nat, incarnation: nat, sigOk: (Id, nat) -> bool, d: map<Id, Msg>, p: Id,
                   t: Table, s: Book)
    requires Filed(d) && Loading(d, p, t, []) && Reading(t, s) && TablesOk(cnt, t.st, t.lk)
    requires Steady(LinksOf(d), p) && FreshBelow(LinksOf(d), p)
    requires AllAlone(cnt, maxDeps, incarnation, sigOk, d, p) && t.payload.Keys == t.lk.Keys
    ensures Calm(cnt, incarnation, sigOk, t, s)
  {
    hide Filed, Held, TablesOk, Steady, FreshBelow, AllAlone, SteadyLinks, FreshLinks, SoundProofs, ForkAt, ForkKnown;
    ReadIsSteady(cnt, d, p, t);
    ReadIsFresh(cnt, d, p, t);
    ReadIsSound(cnt, maxDeps, incarnation, sigOk, d, p, t);
  }

  /** Nothing healthy stays undelivered: the first such block in the stored order could run. */
  lemma {:induction false} AllReplayed(d: map<Id, Msg>, p: Id, ord: seq<Id>, t: Table, i: nat)
    requires Ordered(LinksOf(d), ord) && Loading(d, p, t, []) && i <= |ord|
    requires Quiescent(t.st, t.lk, t.db) && Root in t.st && t.st[Root] == Delivered
    requires forall x | x in t.lk :: x in t.st && t.st[x] != Ill
    ensures forall j | 0 <= j < i && ord[j] in t.lk :: t.st[ord[j]] == Delivered
  {
    hide IsLink, Needed;
    if i > 0 {
      AllReplayed(d, p, ord, t, i - 1);
      var x := ord[i - 1];
      if x in t.lk {
        forall l | IsLink(t.lk[x], l) ensures l in t.st && t.st[l] == Delivered {
          if l != Root {
            assert LinksOf(d)[x] == t.lk[x];
            assert l in ord[..i - 1];
            var j :| 0 <= j < i - 1 && ord[j] == l;
          }
        }
      }
    }
  }

  /** So after the queue has been run everything that was read is delivered. */
  lemma ReplayDelivers(cnt: nat, incarnation: nat, sigOk: (Id, nat) -> bool, d: map<Id, Msg>, p: Id, ord: seq<Id>,
                       t: Table, q: seq<Id>, g: Dag, s: Book, x: Id)
    requires Filed(d) && Ordered(LinksOf(d), ord) && p in ord && Loading(d, p, t, []) && Quiescent(t.st, t.lk, t.db)
    requires TableInv(cnt, t, q, g, {}) && Calm(cnt, incarnation, sigOk, t, s) && Needed(LinksOf(d), p, x)
    ensures x in t.st && t.st[x] == Delivered
  {
    hide Needed, HealthOk, RevOk, PendingOk, QueueOk, ClocksOk, GraphOk, NextOk, NextFrom, RunOk, NoRootDeps,
         Quiescent, FreshLinks, SteadyLinks, OneFork, SoundProofs, LinkOk, LinksKnown;
    LoadedIsNeeded(d, p, t, x);
    NeededListed(LinksOf(d), ord, p, x);
    AllReplayed(d, p, ord, t, |ord|);
    var j :| 0 <= j < |ord| && ord[j] == x;
  }

  /**
    The whole restart. `ok` is false if a stored block is not valid any more. The reads prepare an own block
    if and only if the needed blocks have a fork. If they are steady and fresh, all of them are delivered again.
   */
  method Restore(cnt: nat, local: nat, maxDeps: nat, incarnation: nat, sigOk: (Id, nat) -> bool, d: map<Id, Msg>,
                 p: Id, ghost ord: seq<Id>)
    returns (rec: Receiver, ok: bool)
    requires Filed(d) && Ordered(LinksOf(d), ord) && p in ord && p != Root
    ensures fresh(rec) && rec.Valid()
    ensures rec.cnt == cnt && rec.local == local && rec.maxDeps == maxDeps
    ensures rec.incarnation == incarnation && rec.checkSignature == sigOk
    ensures ok ==> rec.q == [] && Loading(d, p, rec.t, []) && (rec.s.prepared == [] <==> Unforked(LinksOf(d), p))
    ensures AllAlone(cnt, maxDeps, incarnation, sigOk, d, p) ==> ok
    ensures AllAlone(cnt, maxDeps, incarnation, sigOk, d, p) && Steady(LinksOf(d), p) && FreshBelow(LinksOf(d), p) ==>
              forall x | Needed(LinksOf(d), p, x) :: x in rec.t.st && rec.t.st[x] == Delivered
    ensures (&& ok && Unforked(LinksOf(d), p) && NoneIll(rec.t.st, local)
             && (forall x | x in d :: !Accuses(d[x].payload, local)))
            ==> Unharmed(rec.t, rec.s, local)
  {
    hide TableInv, BookInv, ForkIdsOk, EventsOk, Heeded, Vouched, Loading, Reading, Evolves, Needed, Unforked, Steady,
         FreshBelow, Calm,
         Unharmed, NoneIll, HeadRan, Quiescent, AllAlone, Filed, Ordered;
    rec := new Receiver(cnt, local, maxDeps, incarnation, sigOk);
    ok := Load(rec, d, p, ord);
    if ok {
      ReadFinds(cnt, d, p, rec.t, rec.q, rec.g, rec.s);
      if AllAlone(cnt, maxDeps, incarnation, sigOk, d, p) && Steady(LinksOf(d), p) && FreshBelow(LinksOf(d), p) {
        ReadIsCalmNow(cnt, maxDeps, incarnation, sigOk, d, p, rec.t, rec.q, rec.g, rec.s);
      }
      assert rec.t.payload.Keys == rec.t.lk.Keys by { PayloadKeys(cnt, rec.t, rec.q, rec.g); }
      ReadUnharmed(d, p, rec.t, rec.s, local);
      ghost var t0 := rec.t;
      rec.RunScheduler();
      StillLoaded(d, p, t0, rec.t);
      forall x | Needed(LinksOf(d), p, x) && Calm(cnt, incarnation, sigOk, rec.t, rec.s)
        ensures x in rec.t.st && rec.t.st[x] == Delivered {
        ReplayDelivers(cnt, incarnation, sigOk, d, p, ord, rec.t, rec.q, rec.g, rec.s, x);
      }
    }
  }

  lemma ReadFinds(cnt: nat, d: map<Id, Msg>, p: Id, t: Table, q: seq<Id>, g: Dag, s: Book)
    requires TableInv(cnt, t, q, g, {}) && BookInv(cnt, t.st, s, {}, {}) && Reading(t, s) && Filed(d)
    requires Loading(d, p, t, [])
    ensures s.prepared == [] <==> Unforked(LinksOf(d), p)
  {
    hide HealthOk, RevOk, PendingOk, QueueOk, ClocksOk, GraphOk, NextOk, NextFrom, RunOk, BookInv, Reading, Filed,
         Loading, Unforked, ForkKnown, LinkOk, LinksKnown;
    NoticedIffForked(cnt, t, s);
    ForkIsNeeded(cnt, d, p, t);
  }

  lemma ReadIsCalmNow(cnt: nat, maxDeps: nat, incarnation: nat, sigOk: (Id, nat) -> bool, d: map<Id, Msg>, p: Id,
                      t: Table, q: seq<Id>, g: Dag, s: Book)
    requires Filed(d) && Loading(d, p, t, []) && Reading(t, s) && TableInv(cnt, t, q, g, {})
    requires Steady(LinksOf(d), p) && FreshBelow(LinksOf(d), p) && AllAlone(cnt, maxDeps, incarnation, sigOk, d, p)
    ensures Calm(cnt, incarnation, sigOk, t, s)
  {
    hide HealthOk, RevOk, PendingOk, QueueOk, ClocksOk, GraphOk, NextOk, NextFrom, RunOk, TablesOk, Reading, Filed,
         Loading, Steady, FreshBelow, Calm, AllAlone;
    ReadIsCalm(cnt, maxDeps, incarnation, sigOk, d, p, t, s);
  }

  lemma PayloadKeys(cnt: nat, t: Table, q: seq<Id>, g: Dag)
    requires TableInv(cnt, t, q, g, {})
    ensures t.payload.Keys == t.lk.Keys
  {
    hide HealthOk, RevOk, PendingOk, QueueOk, ClocksOk, GraphOk, NextOk, NextFrom, RunOk, TablesOk;
  }

  lemma ReadUnharmed(d: map<Id, Msg>, p: Id, t: Table, s: Book, l: nat)
    requires Loading(d, p, t, []) && Reading(t, s) && t.payload.Keys == t.lk.Keys
    ensures s.prepared == [] && (forall x | x in d :: !Accuses(d[x].payload, l)) ==> Unharmed(t, s, l)
  {
    hide Needed, Accuses, LinksHeld;
  }

  lemma StillLoaded(d: map<Id, Msg>, p: Id, t: Table, t': Table)
    requires Loading(d, p, t, []) && t'.lk == t.lk && t'.payload == t.payload && t'.db == t.db
    requires t'.st.Keys == t.st.Keys
    ensures Loading(d, p, t', [])
  {
    hide Needed, IsLink;
  }
}
