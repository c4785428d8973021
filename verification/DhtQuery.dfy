/**
  The iterative search for the nodes nearest to a key: ask the nearest nodes known, learn of others
  from their replies, and stop when all of the nearest have been asked.
 */
module DhtQuery {
  import opened DhtKeys
  import opened DhtNearest

  // ---------------------------------------------------------------- the list of candidates

  /** A key that is not nearer than a full list changes nothing. */
  lemma FartherIsIgnored(id: Key, seen: set<Key>, list: seq<Key>, k: nat, x: Key)
    requires Nearest(id, seen, list, k) && |x| == |id| && |list| == k > 0 && x !in list
    requires !Closer(id, x, list[|list| - 1])
    ensures Nearest(id, seen + {x}, list, k)
  {
    hide Closer;
    var last := list[|list| - 1];
    CloserTotal(id, x, last);
    forall i | 0 <= i < |list| ensures Closer(id, list[i], x) {
      if i < |list| - 1 {
        CloserChain(id, list[i], last, x);
      }
    }
  }

  /** A nearer key goes in, and the last one goes out if there are now too many. */
  lemma NearerIsAdded(id: Key, seen: set<Key>, list: seq<Key>, k: nat, x: Key, list': seq<Key>)
    requires Nearest(id, seen, list, k) && |x| == |id| && x !in list
    requires |list| < k || (k > 0 && Closer(id, x, list[|list| - 1]))
    requires Ascending(id, list') && Elements(list') == Elements(list) + {x} && |list'| == |list| + 1
    ensures Nearest(id, seen + {x}, if |list'| > k then list'[..k] else list', k)
    ensures |list'| > k ==> x !in seen && k == |list| && list'[k] == list[|list| - 1]
  {
    hide Closer;
    if |list| < k {
      Prefix(id, list', |list'|, k);
      assert list'[..|list'|] == list';
    } else {
      var last := list[|list| - 1];
      Prefix(id, list', k, k);
      var more := seen - Elements(list');
      forall y, z | y in Elements(list') && z in more ensures Closer(id, y, z) {
        if y == x {
          CloserChain(id, x, last, z);
        } else {
          var i :| 0 <= i < |list| && list[i] == y;
        }
      }
      FullStays(id, Elements(list'), more, list'[..k], k);
      assert Elements(list') + more == seen + {x};
      NotSeenBefore(id, seen, list, k, x);
      LastStaysLast(id, list, list', x);
    }
  }

  /** What is nearer than the last of a full list and not in it has never been seen. */
  lemma NotSeenBefore(id: Key, seen: set<Key>, list: seq<Key>, k: nat, x: Key)
    requires Nearest(id, seen, list, k) && |x| == |id| && x !in list && |list| > 0 && Closer(id, x, list[|list| - 1])
    ensures x !in seen
  {
    CloserAsymmetric(id, x, list[|list| - 1]);
  }

  lemma LastStaysLast(id: Key, list: seq<Key>, list': seq<Key>, x: Key)
    requires Ascending(id, list) && Ascending(id, list') && list != [] && |x| == |id| && Closer(id, x, list[|list| - 1])
    requires Elements(list') == Elements(list) + {x} && |list'| == |list| + 1
    ensures list'[|list'| - 1] == list[|list| - 1]
  {
    hide Closer;
    var last, last' := list[|list| - 1], list'[|list'| - 1];
    if last' != last {
      assert last' in Elements(list') && last in Elements(list');
      var j :| 0 <= j < |list'| && list'[j] == last;
      assert Closer(id, last, last');
      CloserAsymmetric(id, last, last');
    }
  }

  /** Remove a key from an ordered set. */
  method Erase(id: Key, v: seq<Key>, x: Key) returns (r: seq<Key>)
    requires Ascending(id, v)
    ensures Ascending(id, r) && Elements(r) == Elements(v) - {x}
  {
    hide Closer;
    var p := 0;
    while p < |v| && v[p] != x
      invariant 0 <= p <= |v| && forall i | 0 <= i < p :: v[i] != x
    {
      p := p + 1;
    }
    if p == |v| {
      return v;
    }
    r := v[..p] + v[p + 1..];
    Removed(id, v, p);
  }

  lemma Removed(id: Key, v: seq<Key>, p: nat)
    requires Ascending(id, v) && p < |v|
    ensures Ascending(id, v[..p] + v[p + 1..]) && Elements(v[..p] + v[p + 1..]) == Elements(v) - {v[p]}
  {
    hide Closer;
    var r := v[..p] + v[p + 1..];
    assert forall i | 0 <= i < |r| :: r[i] == if i < p then v[i] else v[i + 1];
    forall i | 0 <= i < |v| && i != p ensures v[i] != v[p] && v[i] in r {
      if i < p {
        assert Closer(id, v[i], v[p]) && r[i] == v[i];
        CloserAsymmetric(id, v[i], v[p]);
      } else {
        assert Closer(id, v[p], v[i]) && r[i - 1] == v[i];
        CloserAsymmetric(id, v[p], v[i]);
      }
    }
  }

  // ---------------------------------------------------------------- the invariant

  /** `sent` lists the nodes asked, none twice; every candidate has been asked or is still to be asked. */
  ghost predicate QueryOk(key: Key, k: nat, seen: set<Key>, list: seq<Key>, pending: seq<Key>, sent: seq<Key>) {
    && Nearest(key, seen, list, k) && Ascending(key, pending)
    && Elements(pending) <= Elements(list)
    && (forall x | x in list :: x in pending || x in sent)
    && (forall x | x in sent :: x in seen && x !in pending)
    && forall i, j | 0 <= i < j < |sent| :: sent[i] != sent[j]
  }

  /** All keys of length `n`. */
  ghost function Universe(n: nat): set<Key> {
    if n == 0 then {[]} else (set x | x in Universe(n - 1) :: [false] + x) + set x | x in Universe(n - 1) :: [true] + x
  }

  lemma {:induction false} InUniverse(x: Key)
    ensures x in Universe(|x|)
  {
    if x != [] {
      var y := x[1..];
      InUniverse(y);
      assert y in Universe(|x| - 1);
      assert if x[0] then x == [true] + y else x == [false] + y;
    }
  }

  /** How many nodes could still be asked. */
  ghost function Left(key: Key, sent: seq<Key>): nat {
    |Universe(|key|) - Elements(sent)|
  }

  lemma SentShrinks(key: Key, sent: seq<Key>, x: Key)
    requires |x| == |key| && x !in sent
    ensures Left(key, sent + [x]) == Left(key, sent) - 1
  {
    InUniverse(x);
    assert Universe(|key|) - Elements(sent + [x]) == Universe(|key|) - Elements(sent) - {x};
  }

  lemma FirstPending(key: Key, k: nat, seen: set<Key>, list: seq<Key>, pending: seq<Key>, sent: seq<Key>)
    requires QueryOk(key, k, seen, list, pending, sent) && pending != []
    ensures pending[0] in list && |pending[0]| == |key| && pending[0] !in sent
    ensures QueryOk(key, k, seen, list, pending[1..], sent + [pending[0]])
  {
    hide Closer;
    var x := pending[0];
    assert x in Elements(pending) && x in Elements(list);
    assert forall y | y in pending[1..] :: y in pending;
    forall i | 1 <= i < |pending| ensures pending[i] != x {
      assert Closer(key, x, pending[i]);
      CloserAsymmetric(key, x, pending[i]);
    }
    assert forall y | y in pending :: y == x || y in pending[1..];
  }

  // ---------------------------------------------------------------- the class

  class Query {
    const key: Key
    const k: nat
    const a: nat
    var list: seq<Key>       // list_, ordered by distance from `key`
    var pending: seq<Key>    // pending_ids_, likewise
    var active: nat
    var sent: seq<Key>
    var finished: bool
    /** Every node ever learned of. */
    ghost var seen: set<Key>
    /** The number of questions that have had a reply or failed. */
    ghost var closed: nat

    ghost predicate Valid()
      reads this
    {
      k > 0 && a > 0 && QueryOk(key, k, seen, list, pending, sent) && active <= a && |sent| == closed + active
    }

    constructor (key: Key, k: nat, a: nat, nodes: seq<Key>)
      requires k > 0 && a > 0 && forall x | x in nodes :: |x| == |key|
      ensures Valid() && this.key == key && this.k == k && this.a == a && seen == Elements(nodes)
      ensures active == 0 && sent == [] && !finished && closed == 0
    {
      this.key, this.k, this.a := key, k, a;
      list, pending, active, sent, finished, seen, closed := [], [], 0, [], false, {}, 0;
      new;
      AddNodes(nodes);
    }

    /** One node from a reply. */
    method AddNode(x: Key)
      requires Valid() && |x| == |key|
      modifies this`list, this`pending, this`seen
      ensures Valid() && seen == old(seen) + {x}
    {
      hide QueryOk, Closer, Nearest, Ascending;
      ListFacts(key, k, seen, list, pending, sent);
      seen := seen + {x};
      if x in list {
        SeenAlready(key, k, old(seen), list, pending, sent, x);
        return;
      }
      if |list| < k || Closer(key, x, list[|list| - 1]) {
        ghost var list0, pending0 := list, pending;
        list := Emplace(key, list, x);
        EmplacedOne(key, list0, x, list);
        NearerIsAdded(key, old(seen), list0, k, x, list);
        pending := Emplace(key, pending, x);
        if |list| > k {
          var last := list[|list| - 1];
          assert last != x by { LastIsOld(key, old(seen), list0, k, x); }
          pending := Erase(key, pending, last);
          list := Erase(key, list, last);
          ErasedLast(key, k, old(seen), list0, pending0, sent, x, last, list, pending);
        } else {
          AddedOne(key, k, old(seen), list0, pending0, sent, x, list, pending);
        }
      } else {
        IgnoredOne(key, k, old(seen), list, pending, sent, x);
      }
    }

    method AddNodes(nodes: seq<Key>)
      requires Valid() && forall x | x in nodes :: |x| == |key|
      modifies this`list, this`pending, this`seen
      ensures Valid() && seen == old(seen) + Elements(nodes)
    {
      hide QueryOk;
      for i := 0 to |nodes|
        invariant Valid() && seen == old(seen) + Elements(nodes[..i])
      {
        assert nodes[..i + 1] == nodes[..i] + [nodes[i]];
        AddNode(nodes[i]);
      }
      assert nodes[..|nodes|] == nodes;
    }

    /** Ask the nearest nodes not asked yet, at most `a` at a time; without any question open the search is over. */
    method SendQueries()
      requires Valid()
      modifies this`pending, this`active, this`sent, this`finished
      ensures Valid() && |old(sent)| <= |sent| && sent + pending == old(sent) + old(pending)
      ensures active == old(active) + |sent| - |old(sent)|
      ensures 2 * Left(key, sent) + active <= 2 * Left(key, old(sent)) + old(active)
      ensures pending == [] || active == a
      ensures active == 0 ==> finished && pending == []
      ensures active > 0 ==> finished == old(finished)
    {
      hide QueryOk, Left;
      while |pending| > 0 && active < a
        invariant Valid() && finished == old(finished)
        invariant |old(sent)| <= |sent| && sent + pending == old(sent) + old(pending)
        invariant active == old(active) + |sent| - |old(sent)|
        invariant 2 * Left(key, sent) + active <= 2 * Left(key, old(sent)) + old(active)
        decreases |pending|
      {
        FirstPending(key, k, seen, list, pending, sent);
        active := active + 1;
        var x := pending[0];
        pending := pending[1..];
        assert x in list;
        SentShrinks(key, sent, x);
        assert (sent + [x]) + pending == sent + ([x] + pending);
        sent := sent + [x];
      }
      if active == 0 {
        assert pending == [];
        finished := true;
      }
    }

    /**
      A reply, or a failure, which brings no nodes. Whatever is replied, less remains to be done, so
      every search finishes; and then it has the `k` nearest of all nodes it ever learned of.
     */
    method OnResult(nodes: seq<Key>)
      requires Valid() && active > 0 && forall x | x in nodes :: |x| == |key|
      modifies this`list, this`pending, this`active, this`sent, this`finished, this`seen, this`closed
      ensures Valid() && seen == old(seen) + Elements(nodes) && closed == old(closed) + 1 && old(sent) <= sent
      ensures active == a || pending == []
      ensures 2 * Left(key, sent) + active < 2 * Left(key, old(sent)) + old(active)
      ensures a <= k + 1 ==> old(active) - 1 <= k
      ensures active == 0 ==> finished && forall x | x in list :: x in sent
      ensures Nearest(key, seen, list, k) && forall i, j | 0 <= i < j < |sent| :: sent[i] != sent[j]
    {
      hide QueryOk, Left;
      AddNodes(nodes);
      ghost var all := sent + pending;
      active := active - 1;
      closed := closed + 1;
      SendQueries();
      assert old(sent) == all[..|old(sent)|] == (sent + pending)[..|old(sent)|] == sent[..|old(sent)|];
      ListFacts(key, k, seen, list, pending, sent);
    }
  }

  // ---------------------------------------------------------------- the steps of AddNode, on values

  lemma ListFacts(key: Key, k: nat, seen: set<Key>, list: seq<Key>, pending: seq<Key>, sent: seq<Key>)
    requires QueryOk(key, k, seen, list, pending, sent)
    ensures Ascending(key, list) && Ascending(key, pending) && Nearest(key, seen, list, k) && |list| <= k
    ensures forall i | 0 <= i < |list| :: |list[i]| == |key|
    ensures forall x | x in list :: x in pending || x in sent
    ensures forall i, j | 0 <= i < j < |sent| :: sent[i] != sent[j]
  {
  }

  lemma SeenAlready(key: Key, k: nat, seen: set<Key>, list: seq<Key>, pending: seq<Key>, sent: seq<Key>, x: Key)
    requires QueryOk(key, k, seen, list, pending, sent) && x in list
    ensures QueryOk(key, k, seen + {x}, list, pending, sent)
  {
    assert x in Elements(list);
    assert seen + {x} == seen;
  }

  lemma IgnoredOne(key: Key, k: nat, seen: set<Key>, list: seq<Key>, pending: seq<Key>, sent: seq<Key>, x: Key)
    requires QueryOk(key, k, seen, list, pending, sent) && |x| == |key| && x !in list && |list| == k > 0
    requires !Closer(key, x, list[|list| - 1])
    ensures QueryOk(key, k, seen + {x}, list, pending, sent)
  {
    hide Nearest, Closer, Ascending;
    FartherIsIgnored(key, seen, list, k, x);
  }

  lemma EmplacedOne(key: Key, list: seq<Key>, x: Key, list': seq<Key>)
    requires Ascending(key, list) && Ascending(key, list') && Elements(list') == Elements(list) + {x} && x !in list
    ensures |list'| == |list| + 1
  {
    SizeOfElements(key, list);
    SizeOfElements(key, list');
    assert x !in Elements(list);
  }

  lemma LastIsOld(key: Key, seen: set<Key>, list: seq<Key>, k: nat, x: Key)
    requires Nearest(key, seen, list, k) && x !in list && |list| > 0
    ensures list[|list| - 1] != x
  {
  }

  /** A node not seen before becomes a candidate that is still to be asked. */
  lemma AddedOne(key: Key, k: nat, seen: set<Key>, list: seq<Key>, pending: seq<Key>, sent: seq<Key>, x: Key,
                 list': seq<Key>, pending': seq<Key>)
    requires QueryOk(key, k, seen, list, pending, sent) && x !in list && |list| < k
    requires Nearest(key, seen + {x}, list', k) && Elements(list') == Elements(list) + {x}
    requires Ascending(key, pending') && Elements(pending') == Elements(pending) + {x}
    ensures QueryOk(key, k, seen + {x}, list', pending', sent)
  {
    hide Closer, Ascending;
    assert x !in Elements(list) && x !in seen;
    forall y | y in sent ensures y !in pending' {
      assert y !in Elements(pending) && y != x;
      assert y !in Elements(pending');
    }
    forall y | y in list' ensures y in pending' || y in sent {
      assert y in Elements(list');
      assert y == x || y in list;
      assert y in Elements(pending') || y in sent;
    }
  }

  lemma ErasedLast(key: Key, k: nat, seen: set<Key>, list: seq<Key>, pending: seq<Key>, sent: seq<Key>, x: Key,
                   last: Key, list': seq<Key>, pending': seq<Key>)
    requires QueryOk(key, k, seen, list, pending, sent) && x !in list && x !in seen
    requires Ascending(key, list') && Elements(list') == Elements(list) + {x} - {last} && last != x
    requires exists full :: Ascending(key, full) && |full| == k + 1 && full[k] == last &&
               Elements(full) == Elements(list) + {x} && Nearest(key, seen + {x}, full[..k], k)
    requires Ascending(key, pending') && Elements(pending') == Elements(pending) + {x} - {last}
    ensures QueryOk(key, k, seen + {x}, list', pending', sent)
  {
    hide Closer;
    var full :| Ascending(key, full) && |full| == k + 1 && full[k] == last &&
      Elements(full) == Elements(list) + {x} && Nearest(key, seen + {x}, full[..k], k);
    Removed(key, full, k);
    assert full[..k] + full[k + 1..] == full[..k];
    SameOrder(key, list', full[..k]);
    forall y | y in sent ensures y !in pending' {
      assert y !in Elements(pending) && y != x;
      assert y !in Elements(pending');
    }
    forall y | y in list' ensures y in pending' || y in sent {
      assert y in Elements(list');
      assert y == x || y in list;
      assert y in Elements(pending') || y in sent;
    }
  }

  /** An ordered list is determined by its elements. */
  lemma SameOrder(id: Key, v: seq<Key>, w: seq<Key>)
    requires Ascending(id, v) && Ascending(id, w) && Elements(v) == Elements(w)
    ensures v == w
  {
    SizeOfElements(id, v);
    SizeOfElements(id, w);
    Prefix(id, v, |v|, |v|);
    Prefix(id, w, |w|, |w|);
    assert v[..|v|] == v && w[..|w|] == w;
    NearestIsUnique(id, Elements(v), v, w, |v|);
  }
}
