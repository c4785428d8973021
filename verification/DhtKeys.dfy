/** DHT keys: bit strings of one fixed length, most significant bit first, compared lexicographically. */
module DhtKeys {

  type Key = seq<bool>

  function Xor(a: Key, b: Key): (c: Key)
    requires |a| == |b|
    ensures |c| == |a| && forall i | 0 <= i < |a| :: c[i] == (a[i] != b[i])
  {
    if a == [] then [] else [a[0] != b[0]] + Xor(a[1..], b[1..])
  }

  /** The keys agree before bit `d`. */
  predicate Agree(a: Key, b: Key, d: nat)
    requires |a| == |b| && d <= |a|
  {
    forall i | 0 <= i < d :: a[i] == b[i]
  }

  /** `a` and `b` first differ at bit `d`, where `a` has 0. */
  predicate LessAt(a: Key, b: Key, d: nat)
    requires |a| == |b| && d < |a|
  {
    Agree(a, b, d) && !a[d] && b[d]
  }

  predicate Less(a: Key, b: Key)
    requires |a| == |b|
  {
    exists d | 0 <= d < |a| :: LessAt(a, b, d)
  }

  /** The program's order of keys is a strict total order. */
  lemma LessTransitive(a: Key, b: Key, c: Key)
    requires |a| == |b| == |c| && Less(a, b) && Less(b, c)
    ensures Less(a, c)
  {
    var d :| 0 <= d < |a| && LessAt(a, b, d);
    var e :| 0 <= e < |a| && LessAt(b, c, e);
    assert LessAt(a, c, if d < e then d else e);
  }

  lemma LessTotal(a: Key, b: Key)
    requires |a| == |b| && a != b
    ensures Less(a, b) || Less(b, a)
  {
    hide Xor, LeadingZeroes;
    var d := LeadingZeroes(Xor(a, b));
    assert forall i | 0 <= i < d :: !Xor(a, b)[i];
    assert d == |a| ==> a == b;
    assert LessAt(a, b, d) || LessAt(b, a, d);
  }

  /** The number of zero bits before the first one bit. */
  function LeadingZeroes(a: Key): (n: nat)
    ensures n <= |a| && (n < |a| ==> a[n]) && forall i | 0 <= i < n :: !a[i]
  {
    if a == [] || a[0] then 0 else 1 + LeadingZeroes(a[1..])
  }

  /** `x` is closer to `id` than `y`. */
  predicate Closer(id: Key, x: Key, y: Key)
    requires |id| == |x| == |y|
  {
    Less(Xor(x, id), Xor(y, id))
  }

  lemma XorInjective(id: Key, x: Key, y: Key)
    requires |id| == |x| == |y| && Xor(x, id) == Xor(y, id)
    ensures x == y
  {
    hide Xor;
    forall i | 0 <= i < |x| ensures x[i] == y[i] {
      assert Xor(x, id)[i] == Xor(y, id)[i];
    }
  }

  lemma CloserTotal(id: Key, x: Key, y: Key)
    requires |id| == |x| == |y| && x != y
    ensures Closer(id, x, y) || Closer(id, y, x)
  {
    if Xor(x, id) == Xor(y, id) {
      XorInjective(id, x, y);
    } else {
      LessTotal(Xor(x, id), Xor(y, id));
    }
  }

  lemma CloserAsymmetric(id: Key, x: Key, y: Key)
    requires |id| == |x| == |y| && Closer(id, x, y)
    ensures !Closer(id, y, x)
  {
    if Closer(id, y, x) {
      LessTransitive(Xor(x, id), Xor(y, id), Xor(x, id));
    }
  }

  // ---------------------------------------------------------------- buckets

  /** `x` belongs into bucket `b` of the node `self`: `b` is the first bit in which they differ. */
  predicate InBucket(self: Key, b: nat, x: Key)
    requires b < |self|
  {
    |x| == |self| && Agree(self, x, b) && x[b] != self[b]
  }

  /** Every key but one's own has exactly one bucket. */
  lemma BucketOf(self: Key, x: Key, b: nat)
    requires |x| == |self| && b == LeadingZeroes(Xor(x, self))
    ensures b < |self| ==> InBucket(self, b, x)
    ensures b == |self| <==> x == self
  {
    hide Xor, LeadingZeroes;
    if b == |self| {
      assert forall i | 0 <= i < |self| :: !Xor(x, self)[i];
      assert x == self;
    }
  }

  /** A bucket at a one bit of the distance between `id` and `self` holds the keys closer to `id` than `self`. */
  lemma CloserThanSelf(self: Key, id: Key, b: nat, x: Key)
    requires |id| == |self| && b < |self| && InBucket(self, b, x)
    ensures Xor(id, self)[b] <==> Closer(id, x, self)
    ensures !Xor(id, self)[b] <==> Closer(id, self, x)
  {
    hide Xor;
    if Xor(id, self)[b] {
      assert LessAt(Xor(x, id), Xor(self, id), b);
      CloserAsymmetric(id, x, self);
    } else {
      assert LessAt(Xor(self, id), Xor(x, id), b);
      CloserAsymmetric(id, self, x);
    }
  }

  /** Among one bits the earlier bucket is closer, among zero bits the later. */
  lemma BucketOrder(self: Key, id: Key, b: nat, c: nat, x: Key, y: Key)
    requires |id| == |self| && b < c < |self| && InBucket(self, b, x) && InBucket(self, c, y)
    ensures Xor(id, self)[b] ==> Closer(id, x, y)
    ensures !Xor(id, self)[b] ==> Closer(id, y, x)
  {
    hide Xor;
    if Xor(id, self)[b] {
      assert LessAt(Xor(x, id), Xor(y, id), b);
    } else {
      assert LessAt(Xor(y, id), Xor(x, id), b);
    }
  }

  lemma OneBeforeZero(self: Key, id: Key, b: nat, c: nat, x: Key, y: Key)
    requires |id| == |self| && b < |self| && c < |self| && InBucket(self, b, x) && InBucket(self, c, y)
    requires Xor(id, self)[b] && !Xor(id, self)[c]
    ensures Closer(id, x, y)
  {
    CloserThanSelf(self, id, b, x);
    CloserThanSelf(self, id, c, y);
    LessTransitive(Xor(x, id), Xor(self, id), Xor(y, id));
  }
}
