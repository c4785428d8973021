/**
  The nodes nearest to a key, found by walking the buckets instead of sorting all nodes.
 */
module DhtNearest {
  import opened DhtKeys
  import opened Options

  /** The slots of a bucket for active nodes. */
  type Slots = seq<Option<Key>>

  ghost function Keys(slots: Slots): set<Key> {
    set s | s in slots && s.Some? :: s.value
  }

  ghost function Elements(v: seq<Key>): set<Key> {
    set x | x in v
  }

  ghost predicate AllKeys(n: nat, pool: set<Key>) {
    forall x | x in pool :: |x| == n
  }

  ghost predicate Ascending(id: Key, v: seq<Key>) {
    && (forall i | 0 <= i < |v| :: |v[i]| == |id|)
    && forall i, j | 0 <= i < j < |v| :: Closer(id, v[i], v[j])
  }

  // ---------------------------------------------------------------- the reference: sort and take k

  /** `v` lists, in increasing distance from `id`, the `k` nearest keys of `pool`, or all if there are fewer. */
  ghost predicate Nearest(id: Key, pool: set<Key>, v: seq<Key>, k: nat) {
    && AllKeys(|id|, pool) && Ascending(id, v) && Elements(v) <= pool
    && |v| <= k && (|v| < k ==> Elements(v) == pool)
    && forall i, x | 0 <= i < |v| && x in pool && x !in v :: Closer(id, v[i], x)
  }

  /** The first element is the nearest of all. */
  lemma FirstIsNearest(id: Key, pool: set<Key>, v: seq<Key>, k: nat, x: Key)
    requires Nearest(id, pool, v, k) && v != [] && x in pool
    ensures v[0] in pool && |v[0]| == |id| == |x| && (x == v[0] || Closer(id, v[0], x))
  {
    assert v[0] in Elements(v);
  }

  lemma RestIsNearest(id: Key, pool: set<Key>, v: seq<Key>, k: nat)
    requires Nearest(id, pool, v, k) && v != []
    ensures Nearest(id, pool - {v[0]}, v[1..], k - 1)
  {
    hide Closer;
    assert forall x | x in v[1..] :: x in v;
    assert forall x | x in v :: x == v[0] || x in v[1..];
    forall i | 0 <= i < |v[1..]| ensures v[1..][i] != v[0] {
      assert Closer(id, v[0], v[i + 1]);
      CloserAsymmetric(id, v[0], v[i + 1]);
    }
  }

  /** There is only one such list. */
  lemma {:induction false} NearestIsUnique(id: Key, pool: set<Key>, v: seq<Key>, w: seq<Key>, k: nat)
    requires Nearest(id, pool, v, k) && Nearest(id, pool, w, k)
    ensures v == w
    decreases |v|
  {
    hide Closer;
    SizeOfNearest(id, pool, v, k);
    SizeOfNearest(id, pool, w, k);
    if v != [] {
      hide Nearest;
      FirstIsNearest(id, pool, w, k, w[0]);
      FirstIsNearest(id, pool, v, k, v[0]);
      FirstIsNearest(id, pool, v, k, w[0]);
      FirstIsNearest(id, pool, w, k, v[0]);
      if v[0] != w[0] {
        CloserAsymmetric(id, v[0], w[0]);
      }
      RestIsNearest(id, pool, v, k);
      RestIsNearest(id, pool, w, k);
      NearestIsUnique(id, pool - {v[0]}, v[1..], w[1..], k - 1);
    }
  }

  lemma {:induction false} SizeOfElements(id: Key, v: seq<Key>)
    requires Ascending(id, v)
    ensures |Elements(v)| == |v|
  {
    hide Closer;
    if v != [] {
      var n := |v| - 1;
      SizeOfElements(id, v[..n]);
      assert Elements(v) == Elements(v[..n]) + {v[n]};
      forall i | 0 <= i < n ensures v[i] != v[n] {
        assert Closer(id, v[i], v[n]);
        CloserAsymmetric(id, v[i], v[n]);
      }
    }
  }

  lemma SizeOfNearest(id: Key, pool: set<Key>, v: seq<Key>, k: nat)
    requires Nearest(id, pool, v, k)
    ensures |v| == if |pool| < k then |pool| else k
  {
    SizeOfElements(id, v);
    SubsetSize(Elements(v), pool);
  }

  lemma {:induction false} SubsetSize(a: set<Key>, b: set<Key>)
    requires a <= b
    ensures |a| <= |b|
  {
    if a != {} {
      var x :| x in a;
      SubsetSize(a - {x}, b - {x});
    }
  }

  // ---------------------------------------------------------------- extending by farther keys

  ghost predicate Farther(id: Key, pool: set<Key>, more: set<Key>) {
    && AllKeys(|id|, pool) && AllKeys(|id|, more)
    && forall x, y | x in pool && y in more :: Closer(id, x, y)
  }

  /** A full list stays right when farther keys are added. */
  lemma FullStays(id: Key, pool: set<Key>, more: set<Key>, v: seq<Key>, k: nat)
    requires Nearest(id, pool, v, k) && |v| == k && Farther(id, pool, more)
    ensures Nearest(id, pool + more, v, k)
  {
    hide Closer;
    assert forall i | 0 <= i < |v| :: v[i] in Elements(v);
  }

  /** A list takes the nearest of the farther keys as far as it has room. */
  lemma RoomTakes(id: Key, pool: set<Key>, more: set<Key>, v: seq<Key>, w: seq<Key>, k: nat)
    requires Nearest(id, pool, v, k) && Farther(id, pool, more) && Nearest(id, more, w, k - |v|)
    ensures Nearest(id, pool + more, v + w, k)
  {
    hide Closer;
    assert forall i | 0 <= i < |v| :: v[i] in Elements(v);
    assert forall i | 0 <= i < |w| :: w[i] in Elements(w);
    assert Elements(v + w) == Elements(v) + Elements(w);
  }

  // ---------------------------------------------------------------- one bucket

  /** Insert into the ordered map, here a list ordered by distance; a key already there is not inserted again. */
  method Emplace(id: Key, list: seq<Key>, x: Key) returns (r: seq<Key>)
    requires Ascending(id, list) && |x| == |id|
    ensures Ascending(id, r) && Elements(r) == Elements(list) + {x}
  {
    hide Closer;
    var p := 0;
    while p < |list| && Closer(id, list[p], x)
      invariant 0 <= p <= |list| && forall i | 0 <= i < p :: Closer(id, list[i], x)
    {
      p := p + 1;
    }
    if p < |list| && list[p] == x {
      return list;
    }
    r := list[..p] + [x] + list[p..];
    if p < |list| {
      CloserTotal(id, list[p], x);
      forall j | p < j < |list| ensures Closer(id, x, list[j]) {
        CloserChain(id, x, list[p], list[j]);
      }
    }
    Inserted(id, list, x, p);
  }

  lemma CloserChain(id: Key, x: Key, y: Key, z: Key)
    requires |id| == |x| == |y| == |z| && Closer(id, x, y) && Closer(id, y, z)
    ensures Closer(id, x, z)
  {
    LessTransitive(Xor(x, id), Xor(y, id), Xor(z, id));
  }

  lemma Inserted(id: Key, list: seq<Key>, x: Key, p: nat)
    requires Ascending(id, list) && |x| == |id| && p <= |list|
    requires forall i | 0 <= i < p :: Closer(id, list[i], x)
    requires forall j | p <= j < |list| :: Closer(id, x, list[j])
    ensures Ascending(id, list[..p] + [x] + list[p..]) && Elements(list[..p] + [x] + list[p..]) == Elements(list) + {x}
  {
    hide Closer, Elements;
    var r := list[..p] + [x] + list[p..];
    assert forall i | 0 <= i < |r| :: r[i] == if i < p then list[i] else if i == p then x else list[i - 1];
    forall i, j | 0 <= i < j < |r| ensures |r[i]| == |id| == |r[j]| && Closer(id, r[i], r[j]) {
      if i == p {
        assert r[j] == list[j - 1];
      } else if j == p {
        assert r[i] == list[i];
      }
    }
    assert |list| == 0 ==> r == [x];
    InsertedSet(list, x, p);
  }

  lemma InsertedSet(list: seq<Key>, x: Key, p: nat)
    requires p <= |list|
    ensures Elements(list[..p] + [x] + list[p..]) == Elements(list) + {x}
  {
    var r := list[..p] + [x] + list[p..];
    assert list == list[..p] + list[p..];
    forall y ensures y in r <==> y in list || y == x {
      assert y in list <==> y in list[..p] || y in list[p..];
    }
  }

  /** The nearest nodes of one bucket are appended while there is room. */
  method BucketNearest(slots: Slots, id: Key, vec: seq<Key>, k: nat) returns (v: seq<Key>)
    requires AllKeys(|id|, Keys(slots)) && |vec| <= k
    ensures vec <= v && Nearest(id, Keys(slots), v[|vec|..], k - |vec|)
  {
    hide Closer;
    v := vec;
    var list: seq<Key> := [];
    for i := 0 to |slots|
      invariant Ascending(id, list) && Elements(list) == Keys(slots[..i])
    {
      assert slots[..i + 1] == slots[..i] + [slots[i]];
      assert Keys(slots[..i + 1]) == Keys(slots[..i]) + Keys([slots[i]]);
      if slots[i].Some? {
        assert slots[i].value in Keys(slots);
        list := Emplace(id, list, slots[i].value);
      }
    }
    assert slots[..|slots|] == slots;
    var i := 0;
    while i < |list| && |v| < k
      invariant 0 <= i <= |list| && v == vec + list[..i] && |v| <= k
      decreases |list| - i
    {
      v := v + [list[i]];
      i := i + 1;
    }
    Prefix(id, list, i, k - |vec|);
    assert v[|vec|..] == list[..i];
  }

  /** The beginning of an ordered list of all keys is the list of the nearest. */
  lemma Prefix(id: Key, list: seq<Key>, i: nat, k: nat)
    requires Ascending(id, list) && i <= |list| && i <= k && (i == |list| || i == k)
    ensures Nearest(id, Elements(list), list[..i], k)
  {
    hide Closer;
    assert forall j | 0 <= j < |list| :: list[j] in Elements(list);
    assert i == |list| ==> list[..i] == list;
    forall a, x | 0 <= a < i && x in Elements(list) && x !in list[..i] ensures Closer(id, list[a], x) {
      assert list == list[..i] + list[i..] && x in list[i..];
      var j :| 0 <= j < |list[i..]| && list[i..][j] == x;
      assert list[i + j] == x;
    }
  }

  // ---------------------------------------------------------------- the walk over the buckets

  /** Every bucket holds only keys that belong into it, each once. */
  ghost predicate TableOk(self: Key, buckets: seq<Slots>) {
    && |buckets| == |self|
    && (forall b, x | 0 <= b < |buckets| && x in Keys(buckets[b]) :: InBucket(self, b, x))
    && forall b | 0 <= b < |buckets| :: EachOnce(buckets[b])
  }

  ghost predicate EachOnce(slots: Slots) {
    forall i, j | 0 <= i < j < |slots| && slots[i].Some? && slots[j].Some? :: slots[i].value != slots[j].value
  }

  ghost function AllActive(buckets: seq<Slots>): set<Key> {
    set b, x | 0 <= b < |buckets| && x in Keys(buckets[b]) :: x
  }

  /** The keys in the buckets below `n` at one bits of `z`. */
  ghost function Ones(z: Key, buckets: seq<Slots>, n: nat): set<Key>
    requires n <= |z| == |buckets|
  {
    set b, x | 0 <= b < n && z[b] && x in Keys(buckets[b]) :: x
  }

  /** The keys in the buckets from `n` on at zero bits of `z`. */
  ghost function Zeros(z: Key, buckets: seq<Slots>, n: nat): set<Key>
    requires n <= |z| == |buckets|
  {
    set b, x | n <= b < |buckets| && !z[b] && x in Keys(buckets[b]) :: x
  }

  lemma OnesNext(self: Key, buckets: seq<Slots>, id: Key, z: Key, n: nat)
    requires TableOk(self, buckets) && |id| == |self| && z == Xor(id, self) && n < |self|
    ensures Ones(z, buckets, n + 1) == Ones(z, buckets, n) + if z[n] then Keys(buckets[n]) else {}
    ensures z[n] ==> Farther(id, Ones(z, buckets, n), Keys(buckets[n]))
  {
    hide Closer, Xor, Keys;
    if z[n] {
      forall x, y | x in Ones(z, buckets, n) && y in Keys(buckets[n]) ensures Closer(id, x, y) {
        var b :| 0 <= b < n && z[b] && x in Keys(buckets[b]);
        BucketOrder(self, id, b, n, x, y);
      }
    }
  }

  lemma ZerosNext(self: Key, buckets: seq<Slots>, id: Key, z: Key, n: nat)
    requires TableOk(self, buckets) && |id| == |self| && z == Xor(id, self) && n < |self|
    ensures Zeros(z, buckets, n) == Zeros(z, buckets, n + 1) + if !z[n] then Keys(buckets[n]) else {}
    ensures !z[n] ==> Farther(id, Ones(z, buckets, |z|) + Zeros(z, buckets, n + 1), Keys(buckets[n]))
  {
    hide Closer, Xor, Keys;
    if !z[n] {
      forall x, y | x in Ones(z, buckets, |z|) + Zeros(z, buckets, n + 1) && y in Keys(buckets[n])
        ensures Closer(id, x, y) {
        if x in Ones(z, buckets, |z|) {
          var b :| 0 <= b < |z| && z[b] && x in Keys(buckets[b]);
          OneBeforeZero(self, id, b, n, x, y);
        } else {
          var b :| n + 1 <= b < |z| && !z[b] && x in Keys(buckets[b]);
          BucketOrder(self, id, n, b, y, x);
        }
      }
    }
  }

  lemma OnesAndZeros(z: Key, buckets: seq<Slots>)
    requires |z| == |buckets|
    ensures Ones(z, buckets, |z|) + Zeros(z, buckets, 0) == AllActive(buckets)
  {
    hide Keys;
  }

  /** Once the list is full, the remaining buckets cannot change it. */
  lemma {:induction false} OnesFull(self: Key, buckets: seq<Slots>, id: Key, z: Key, n: nat, v: seq<Key>, k: nat)
    requires TableOk(self, buckets) && |id| == |self| && z == Xor(id, self) && n <= |self|
    requires Nearest(id, Ones(z, buckets, n), v, k) && |v| == k
    ensures Nearest(id, Ones(z, buckets, |z|), v, k)
    decreases |z| - n
  {
    TableSize(self, buckets);
    hide TableOk, Nearest, Ones, Xor, Farther;
    if n < |z| {
      OnesNext(self, buckets, id, z, n);
      if z[n] {
        FullStays(id, Ones(z, buckets, n), Keys(buckets[n]), v, k);
      } else {
        assert Ones(z, buckets, n) + {} == Ones(z, buckets, n);
      }
      OnesFull(self, buckets, id, z, n + 1, v, k);
    }
  }

  lemma {:induction false} ZerosFull(self: Key, buckets: seq<Slots>, id: Key, z: Key, n: nat, v: seq<Key>, k: nat)
    requires TableOk(self, buckets) && |id| == |self| && z == Xor(id, self) && n <= |self|
    requires Nearest(id, Ones(z, buckets, |z|) + Zeros(z, buckets, n), v, k) && |v| == k
    ensures Nearest(id, AllActive(buckets), v, k)
    decreases n
  {
    TableSize(self, buckets);
    hide TableOk, Nearest, Ones, Zeros, Xor, Farther, AllActive;
    if n == 0 {
      OnesAndZeros(z, buckets);
    } else {
      ZerosNext(self, buckets, id, z, n - 1);
      var pool := Ones(z, buckets, |z|) + Zeros(z, buckets, n);
      if !z[n - 1] {
        FullStays(id, pool, Keys(buckets[n - 1]), v, k);
        assert pool + Keys(buckets[n - 1]) == Ones(z, buckets, |z|) + Zeros(z, buckets, n - 1);
      } else {
        assert pool == Ones(z, buckets, |z|) + Zeros(z, buckets, n - 1);
      }
      ZerosFull(self, buckets, id, z, n - 1, v, k);
    }
  }

  /** The buckets at one bits, first to last. */
  method WalkOnes(self: Key, buckets: seq<Slots>, id: Key, k: nat) returns (v: seq<Key>)
    requires TableOk(self, buckets) && |id| == |self|
    ensures Nearest(id, Ones(Xor(id, self), buckets, |self|), v, k)
  {
    hide TableOk, Nearest, Ones, Xor, Farther, Keys;
    v := [];
    var z := Xor(id, self);
    TableSize(self, buckets);
    NothingNearest(id, z, buckets, k);
    for bit := 0 to |self|
      invariant Nearest(id, Ones(z, buckets, bit), v, k) && |v| <= k
    {
      OnesNext(self, buckets, id, z, bit);
      if z[bit] {
        ghost var pool := Ones(z, buckets, bit);
        BucketKeys(self, buckets, bit);
        var w := BucketNearest(buckets[bit], id, v, k);
        NearestSize(id, Keys(buckets[bit]), w[|v|..], k - |v|);
        RoomTakes(id, pool, Keys(buckets[bit]), v, w[|v|..], k);
        assert v + w[|v|..] == w;
        v := w;
        if |v| >= k {
          OnesFull(self, buckets, id, z, bit + 1, v, k);
          break;
        }
      } else {
        assert Ones(z, buckets, bit) + {} == Ones(z, buckets, bit);
      }
    }
  }

  /**
    First the buckets at one bits of the distance, upwards, then those at zero bits, downwards: the
    result is the `k` nearest of all active nodes, in order.
   */
  method GetNearestNodes(self: Key, buckets: seq<Slots>, id: Key, k: nat) returns (v: seq<Key>)
    requires TableOk(self, buckets) && |id| == |self|
    ensures Nearest(id, AllActive(buckets), v, k)
  {
    hide TableOk, Nearest, Ones, Zeros, Xor, Farther, Keys, AllActive;
    var z := Xor(id, self);
    TableSize(self, buckets);
    v := WalkOnes(self, buckets, id, k);
    CheckedCloser(self, buckets, id, z, v, k);
    NearestSize(id, Ones(z, buckets, |z|), v, k);
    ghost var ones := Ones(z, buckets, |z|);
    NoZeros(z, buckets);
    assert ones + {} == ones;
    if |v| < k {
      var bit := |self|;
      while bit > 0
        invariant 0 <= bit <= |self| && Nearest(id, ones + Zeros(z, buckets, bit), v, k) && |v| <= k
      {
        bit := bit - 1;
        ZerosNext(self, buckets, id, z, bit);
        ghost var pool := ones + Zeros(z, buckets, bit + 1);
        if !z[bit] {
          BucketKeys(self, buckets, bit);
          var w := BucketNearest(buckets[bit], id, v, k);
          NearestSize(id, Keys(buckets[bit]), w[|v|..], k - |v|);
          RoomTakes(id, pool, Keys(buckets[bit]), v, w[|v|..], k);
          assert v + w[|v|..] == w && pool + Keys(buckets[bit]) == ones + Zeros(z, buckets, bit);
          v := w;
          if |v| >= k {
            ZerosFull(self, buckets, id, z, bit, v, k);
            return;
          }
        } else {
          assert pool == ones + Zeros(z, buckets, bit);
        }
      }
      OnesAndZeros(z, buckets);
    } else {
      ZerosFull(self, buckets, id, z, |z|, v, k);
    }
  }

  lemma TableSize(self: Key, buckets: seq<Slots>)
    requires TableOk(self, buckets)
    ensures |buckets| == |self|
  {
  }

  lemma BucketKeys(self: Key, buckets: seq<Slots>, b: nat)
    requires TableOk(self, buckets) && b < |self|
    ensures AllKeys(|self|, Keys(buckets[b]))
  {
  }

  lemma NearestSize(id: Key, pool: set<Key>, v: seq<Key>, k: nat)
    requires Nearest(id, pool, v, k)
    ensures |v| <= k
  {
  }

  lemma NothingNearest(id: Key, z: Key, buckets: seq<Slots>, k: nat)
    requires |z| == |buckets|
    ensures Nearest(id, Ones(z, buckets, 0), [], k)
  {
  }

  lemma NoZeros(z: Key, buckets: seq<Slots>)
    requires |z| == |buckets|
    ensures Zeros(z, buckets, |z|) == {}
  {
  }

  /** The program's CHECK after the first walk: all found so far are closer to `id` than the node itself. */
  lemma CheckedCloser(self: Key, buckets: seq<Slots>, id: Key, z: Key, v: seq<Key>, k: nat)
    requires TableOk(self, buckets) && |id| == |self| && z == Xor(id, self) && Nearest(id, Ones(z, buckets, |z|), v, k)
    ensures forall x | x in v :: |x| == |id| && Closer(id, x, self)
  {
    hide Closer, Xor, Keys;
    forall x | x in v ensures |x| == |id| && Closer(id, x, self) {
      assert x in Elements(v);
      var b :| 0 <= b < |z| && z[b] && x in Keys(buckets[b]);
      CloserThanSelf(self, id, b, x);
    }
  }

  // ---------------------------------------------------------------- distance

  /** The active nodes strictly closer to `id` than the node itself. */
  ghost function CloserNodes(self: Key, buckets: seq<Slots>, id: Key): set<Key>
    requires TableOk(self, buckets) && |id| == |self|
  {
    set x | x in AllActive(buckets) && |x| == |id| && Closer(id, x, self)
  }

  lemma CloserIsOnes(self: Key, buckets: seq<Slots>, id: Key, z: Key)
    requires TableOk(self, buckets) && |id| == |self| && z == Xor(id, self)
    ensures CloserNodes(self, buckets, id) == Ones(z, buckets, |z|)
  {
    hide Closer, Xor, Keys;
    forall b, x | 0 <= b < |buckets| && x in Keys(buckets[b]) ensures z[b] <==> Closer(id, x, self) {
      CloserThanSelf(self, id, b, x);
    }
  }

  method ActiveCount(slots: Slots) returns (n: nat)
    requires EachOnce(slots)
    ensures n == |Keys(slots)|
  {
    n := 0;
    for i := 0 to |slots|
      invariant n == |Keys(slots[..i])|
    {
      assert slots[..i + 1] == slots[..i] + [slots[i]];
      assert Keys(slots[..i + 1]) == Keys(slots[..i]) + Keys([slots[i]]);
      if slots[i].Some? {
        assert Keys([slots[i]]) == {slots[i].value};
        assert slots[i].value !in Keys(slots[..i]);
        n := n + 1;
      } else {
        assert Keys([slots[i]]) == {};
      }
    }
    assert slots[..|slots|] == slots;
  }

  /** How many active nodes are closer to a key than this node, up to a limit; 0 stands for twice `k`. */
  method Distance(self: Key, buckets: seq<Slots>, id: Key, max: nat, k: nat) returns (res: nat)
    requires TableOk(self, buckets) && |id| == |self|
    ensures var cap := if max == 0 then 2 * k else max;
            res == if |CloserNodes(self, buckets, id)| < cap then |CloserNodes(self, buckets, id)| else cap
  {
    hide TableOk, Ones, Xor, Keys, Farther, CloserNodes, EachOnce;
    var cap := if max == 0 then 2 * k else max;
    res := 0;
    var z := Xor(id, self);
    TableSize(self, buckets);
    CloserIsOnes(self, buckets, id, z);
    NoOnes(z, buckets);
    var bit := 0;
    while bit < |self|
      invariant 0 <= bit <= |self| && res == |Ones(z, buckets, bit)| && (res < cap || res == 0)
    {
      OnesSize(self, buckets, id, z, bit);
      if z[bit] {
        var n := ActiveCount(buckets[bit]);
        res := res + n;
        if res >= cap {
          OnesGrow(z, buckets, bit + 1);
          return cap;
        }
      }
      bit := bit + 1;
    }
  }

  lemma NoOnes(z: Key, buckets: seq<Slots>)
    requires |z| == |buckets|
    ensures Ones(z, buckets, 0) == {}
  {
  }

  lemma OnesGrow(z: Key, buckets: seq<Slots>, n: nat)
    requires n <= |z| == |buckets|
    ensures |Ones(z, buckets, n)| <= |Ones(z, buckets, |z|)|
  {
    SubsetSize(Ones(z, buckets, n), Ones(z, buckets, |z|));
  }

  lemma OnesSize(self: Key, buckets: seq<Slots>, id: Key, z: Key, n: nat)
    requires TableOk(self, buckets) && |id| == |self| && z == Xor(id, self) && n < |self|
    ensures EachOnce(buckets[n])
    ensures |Ones(z, buckets, n + 1)| == |Ones(z, buckets, n)| + if z[n] then |Keys(buckets[n])| else 0
  {
    hide Xor, Closer, Keys, Ones;
    OnesNext(self, buckets, id, z, n);
    if z[n] {
      forall x | x in Ones(z, buckets, n) && x in Keys(buckets[n]) ensures false {
        CloserAsymmetric(id, x, x);
      }
    }
  }
}
