/**
 Shard counts that do not divide one another: the proxy presents the least common multiple
 of both counts and remaps each presented shard to the cluster's own. All arithmetic of
 the source is on 32-bit integers.
 */
module ShardRemap {
  const MAX_INT32 := 0x7fff_ffff

  predicate IsInt32(x: int) {
    -0x8000_0000 <= x <= MAX_INT32
  }

  /** The value a 32-bit register holds for x. */
  function Wrap32(x: int): (w: int)
    ensures IsInt32(w)
    ensures IsInt32(x) ==> w == x
    ensures (x - w) % 0x1_0000_0000 == 0
  {
    (x + 0x8000_0000) % 0x1_0000_0000 - 0x8000_0000
  }

  function Abs(x: int): nat {
    if x < 0 then -x else x
  }

  /** Division and remainder that truncate toward zero. */
  function Quo(a: int, b: int): int
    requires b != 0
  {
    if (a < 0) == (b < 0) then Abs(a) / Abs(b) else -(Abs(a) / Abs(b))
  }

  function Rem(a: int, b: int): int
    requires b != 0
  {
    if a < 0 then -(Abs(a) % Abs(b)) else Abs(a) % Abs(b)
  }

  ghost predicate Divides(d: int, x: int) {
    exists k :: x == k * d
  }

  ghost predicate IsGcd(a: int, b: int, g: nat) {
    && g > 0 && Divides(g, a) && Divides(g, b)
    && forall d :: Divides(d, a) && Divides(d, b) ==> Divides(d, g)
  }

  lemma DividesSum(d: int, x: int, y: int, m: int)
    requires Divides(d, x) && Divides(d, y)
    ensures Divides(d, x + m * y)
  {
    var j :| x == j * d;
    var k :| y == k * d;
    assert x + m * y == (j + m * k) * d;
  }

  /** A remainder step keeps the common divisors. */
  lemma RemKeepsDivisors(a: int, b: int, d: int)
    requires b != 0
    ensures Divides(d, a) && Divides(d, b) <==> Divides(d, b) && Divides(d, Rem(a, b))
  {
    var q := Quo(a, b);
    RemIsDifference(a, b);
    if Divides(d, b) {
      if Divides(d, a) {
        DividesSum(d, a, b, -q);
      }
      if Divides(d, Rem(a, b)) {
        DividesSum(d, Rem(a, b), b, q);
      }
    }
  }

  lemma RemIsDifference(a: int, b: int)
    requires b != 0
    ensures Rem(a, b) == a + (-Quo(a, b)) * b
    ensures a == Rem(a, b) + Quo(a, b) * b
    ensures Abs(Rem(a, b)) < Abs(b)
    ensures (a >= 0 ==> Rem(a, b) >= 0) && (a <= 0 ==> Rem(a, b) <= 0)
  {
    var n, d := Abs(a), Abs(b);
    assert n == (n / d) * d + n % d;
  }

  /** GCD of any two nonzero numbers, whatever their signs; zero stays zero. */
  method GCD(a: int, b: int) returns (g: int)
    ensures a == 0 || b == 0 ==> g == 0
    ensures a != 0 && b != 0 ==> IsGcd(a, b, Abs(g))
    ensures a > 0 && b > 0 ==> g > 0
  {
    if a == 0 || b == 0 {
      return 0;
    }
    var x, y := a, b;
    if x > y {
      x, y := y, x;
    }
    while y != 0
      invariant forall d :: Divides(d, x) && Divides(d, y) <==> Divides(d, a) && Divides(d, b)
      invariant x != 0 && (a > 0 && b > 0 ==> x > 0 && y >= 0)
      decreases Abs(y)
    {
      forall d
        ensures Divides(d, x) && Divides(d, y) <==> Divides(d, y) && Divides(d, Rem(x, y))
      {
        RemKeepsDivisors(x, y, d);
      }
      RemIsDifference(x, y);
      x, y := y, Rem(x, y);
    }
    LastIsGcd(a, b, x);
    g := x;
  }

  lemma LastIsGcd(a: int, b: int, x: int)
    requires x != 0 && forall d :: Divides(d, x) && Divides(d, 0) <==> Divides(d, a) && Divides(d, b)
    ensures IsGcd(a, b, Abs(x))
  {
    forall d
      ensures Divides(d, 0) && (Divides(d, x) ==> Divides(d, Abs(x)))
    {
      assert 0 == 0 * d;
      if Divides(d, x) {
        var k :| x == k * d;
        assert Abs(x) == (if x < 0 then -k else k) * d;
      }
    }
    assert x == (if x < 0 then -1 else 1) * Abs(x);
    assert Divides(Abs(x), x);
  }

  ghost predicate IsLcm(a: int, b: int, l: int) {
    && l > 0 && Divides(a, l) && Divides(b, l)
    && forall m :: Divides(a, m) && Divides(b, m) ==> Divides(l, m)
  }

  lemma LcmIsUnique(a: int, b: int, l: int, m: int)
    requires IsLcm(a, b, l) && IsLcm(a, b, m)
    ensures l == m
  {
    var j :| m == j * l;
    var k :| l == k * m;
    assert l == (k * j) * l;
    PositiveFactor(j, l);
    PositiveFactor(k, m);
    assert k * j == 1;
  }

  lemma PositiveFactor(k: int, d: int)
    requires d > 0 && k * d > 0
    ensures k > 0
  {
    assert k <= 0 ==> k * d <= 0;
  }

  lemma MulCancel(x: int, y: int, d: int)
    requires d != 0 && x * d == y * d
    ensures x == y
  {
  }

  /** Euclid's identity: the gcd is an integer combination of the two numbers. */
  lemma {:induction false} Bezout(a: nat, b: nat) returns (g: nat, u: int, v: int)
    requires a > 0 || b > 0
    ensures g > 0 && g == u * a + v * b && Divides(g, a) && Divides(g, b)
    decreases b
  {
    if b == 0 {
      g, u, v := a, 1, 0;
      assert a == 1 * a && b == 0 * a;
    } else {
      var g', u', v' := Bezout(b, a % b);
      g := g';
      u, v := v', u' - v' * (a / b);
      assert a == (a / b) * b + a % b;
      assert g == u' * b + v' * (a - (a / b) * b) == u * a + v * b by {
        assert v' * (a - (a / b) * b) == v' * a - v' * ((a / b) * b);
        assert v' * ((a / b) * b) == (v' * (a / b)) * b;
      }
      DividesSum(g, a % b, b, a / b);
    }
  }

  lemma Quotient(d: int, x: int) returns (k: int)
    requires Divides(d, x)
    ensures x == k * d
  {
    k :| x == k * d;
  }

  lemma Scale(j: int, x: int, a: int, y: int, b: int)
    ensures j * (x * a + y * b) == (j * x) * a + (j * y) * b
  {
    calc {
      j * (x * a + y * b);
      j * (x * a) + j * (y * b);
      (j * x) * a + (j * y) * b;
    }
  }

  lemma GcdIsCombination(a: nat, b: nat, g: nat) returns (u: int, v: int)
    requires a > 0 && b > 0 && IsGcd(a, b, g)
    ensures g == u * a + v * b
  {
    var h, x, y := Bezout(a, b);
    assert Divides(h, g);
    var j := Quotient(h, g);
    Scale(j, x, a, y, b);
    u, v := j * x, j * y;
  }

  /** The product over the gcd is the least common multiple. */
  lemma ProductOverGcdIsLcm(a: nat, b: nat, g: nat)
    requires a > 0 && b > 0 && IsGcd(a, b, g)
    ensures (a * b) % g == 0 && IsLcm(a, b, a * b / g)
  {
    var p :| a == p * g;
    var q :| b == q * g;
    var l := p * q * g;
    assert a * b == l * g by {
      assert a * b == (p * g) * (q * g) == (p * q * g) * g;
    }
    DivExact(l, g, a * b);
    assert l == q * a by { assert q * a == q * (p * g) == p * q * g; }
    assert l == p * b by { assert p * b == p * (q * g) == p * q * g; }
    assert l > 0 by {
      PositiveFactor(p, g);
      PositiveFactor(q, g);
      assert p * q > 0;
    }
    var u, v := GcdIsCombination(a, b, g);
    forall m | Divides(a, m) && Divides(b, m)
      ensures Divides(l, m)
    {
      var s :| m == s * a;
      var t :| m == t * b;
      CombineMultiples(a, b, g, l, u, v, m, s, t);
    }
  }

  lemma DivExact(q: int, d: int, x: int)
    requires d > 0 && x == q * d
    ensures x / d == q && x % d == 0
  {
    DivUnique(x, q, 0, d);
    assert x == (x / d) * d + x % d;
    MulCancel(x / d, q, d);
  }

  lemma MulSwap(t: int, b: int, u: int, a: int)
    ensures (t * b) * (u * a) == (u * t) * (a * b)
  {
    Associate(t * b, u, a);
    Associate(t, b, u);
    Associate(t, u, b);
    Associate(t * u, b, a);
  }

  lemma Associate(x: int, y: int, z: int)
    ensures (x * y) * z == x * (y * z)
  {
  }

  lemma Distribute(m: int, p: int, q: int)
    ensures m * (p + q) == m * p + m * q
  {
  }

  lemma CombineMultiples(a: int, b: int, g: int, l: int, u: int, v: int, m: int, s: int, t: int)
    requires g > 0 && g == u * a + v * b && a * b == l * g && m == s * a && m == t * b
    ensures m == (u * t + v * s) * l
  {
    var w := u * t + v * s;
    calc {
      m * g;
      { Distribute(m, u * a, v * b); }
      (t * b) * (u * a) + (s * a) * (v * b);
      { MulSwap(t, b, u, a); MulSwap(s, a, v, b); }
      (u * t) * (a * b) + (v * s) * (b * a);
      { Distribute(a * b, u * t, v * s); }
      w * (l * g);
      { Associate(w, l, g); }
      (w * l) * g;
    }
    MulCancel(m, w * l, g);
  }

  /**
   LCM as the source computes it, product first, in 32 bits. For positive counts the
   result is the least common multiple exactly when the product does not overflow.
   */
  method LCM(a: int, b: int) returns (l: int)
    requires IsInt32(a) && IsInt32(b)
    ensures a == 0 || b == 0 ==> l == 0
    ensures a > 0 && b > 0 ==> (IsLcm(a, b, l) <==> a * b <= MAX_INT32)
  {
    if a == 0 || b == 0 {
      return 0;
    }
    var g := GCD(a, b);
    l := Quo(Wrap32(a * b), g);
    if a > 0 && b > 0 {
      ProductOverGcdIsLcm(a, b, g);
      assert a * b > 0;
      if a * b > MAX_INT32 {
        OverflowedIsSmaller(a * b, g);
        if IsLcm(a, b, l) {
          LcmIsUnique(a, b, l, a * b / g);
          assert false;
        }
      }
    }
  }

  lemma QuoOfPositive(w: int, g: int)
    requires g > 0
    ensures w >= 0 ==> Quo(w, g) == w / g
    ensures w < 0 ==> Quo(w, g) <= 0
  {
  }

  lemma OverflowedIsSmaller(x: int, g: int)
    requires MAX_INT32 < x && 0 < g && x % g == 0
    ensures Quo(Wrap32(x), g) < x / g
  {
    var w := Wrap32(x);
    QuoOfPositive(w, g);
    SmallerQuotient(x, if w < 0 then 0 else w, g);
  }

  /** Below an exact multiple, quotients are strictly smaller. */
  lemma SmallerQuotient(x: int, w: int, g: int)
    requires g > 0 && x % g == 0 && 0 <= w < x
    ensures w / g < x / g && 0 / g == 0
  {
    var p, q := x / g, w / g;
    assert x == p * g && w == q * g + w % g;
    assert (p - q) * g == p * g - q * g;
    PositiveFactor(p - q, g);
  }

  // ---------- remapping a presented shard ----------

  /**
   MapShardID of the server, by its documented contract: between counts of which one
   divides the other, a shard maps to the shards congruent to it, numbered from one.
   */
  function MapShardID(sourceCount: int, targetCount: int, id: int): seq<int>
    requires sourceCount > 0 && targetCount > 0 && id >= 1
    requires sourceCount % targetCount == 0 || targetCount % sourceCount == 0
  {
    if sourceCount <= targetCount then seq(targetCount / sourceCount, i => (id - 1) + i * sourceCount + 1)
    else [(id - 1) % targetCount + 1]
  }

  /** The shard of a workflow hash in a cluster with that many shards. */
  function ShardOf(hash: nat, count: int): int
    requires count > 0
  {
    hash % count + 1
  }

  lemma ModOfMod(x: nat, k: nat, n: int)
    requires n > 0 && k * n > 0
    ensures (x % (k * n)) % n == x % n
  {
    var l := k * n;
    var q, r := x / l, x % l;
    assert x == q * l + r;
    Regroup(q, k, n);
    ModAddMultiple(q * k, r, n);
  }

  lemma Regroup(q: nat, k: nat, n: int)
    ensures q * (k * n) == (q * k) * n && q * k >= 0
  {
  }

  lemma ModAddMultiple(k: nat, r: nat, n: int)
    requires n > 0
    ensures (k * n + r) % n == r % n
  {
    var q := r / n;
    assert r == q * n + r % n;
    assert k * n + r == (k + q) * n + r % n by {
      assert (k + q) * n == k * n + q * n;
    }
    DivUnique(k * n + r, k + q, r % n, n);
  }

  lemma DivUnique(x: int, q: int, r: int, n: int)
    requires n > 0 && x == q * n + r && 0 <= r < n
    ensures x % n == r
  {
    var d := x / n - q;
    assert x == (x / n) * n + x % n;
    assert d * n == r - x % n by {
      assert d * n == (x / n) * n - q * n;
    }
    assert d == 0 by {
      assert d >= 1 ==> d * n >= n;
      assert d <= -1 ==> d * n <= -n;
    }
  }

  /**
   The remap of the LCM mode: with the least common multiple presented, every presented
   shard maps to exactly one shard of either cluster (so the panic is unreachable), and it
   is the one the workflow would have hashed to directly.
   */
  lemma RemapAgreesWithDirectHash(a: int, b: int, l: int, hash: nat)
    requires a > 0 && b > 0 && IsLcm(a, b, l)
    ensures l % a == 0 && l % b == 0 && a <= l && b <= l
    ensures |MapShardID(l, a, ShardOf(hash, l))| == 1 && MapShardID(l, a, ShardOf(hash, l))[0] == ShardOf(hash, a)
    ensures |MapShardID(l, b, ShardOf(hash, l))| == 1 && MapShardID(l, b, ShardOf(hash, l))[0] == ShardOf(hash, b)
  {
    RemapTo(a, l, hash);
    RemapTo(b, l, hash);
  }

  lemma RemapTo(n: int, l: int, hash: nat)
    requires n > 0 && l > 0 && Divides(n, l)
    ensures l % n == 0 && n <= l
    ensures |MapShardID(l, n, ShardOf(hash, l))| == 1 && MapShardID(l, n, ShardOf(hash, l))[0] == ShardOf(hash, n)
  {
    var k :| l == k * n;
    DivExact(k, n, l);
    PositiveFactor(k, n);
    assert (k - 1) * n >= 0;
    ModOfMod(hash, k, n);
    if l == n {
      assert n / l == 1;
    }
  }

  /** Between counts of which one divides the other, a strictly larger target count is at least twice as large. */
  lemma LargerCountSplits(sourceCount: int, targetCount: int)
    requires 0 < sourceCount < targetCount
    requires sourceCount % targetCount == 0 || targetCount % sourceCount == 0
    ensures targetCount % sourceCount == 0 && targetCount / sourceCount >= 2
  {
    DivUnique(sourceCount, 0, sourceCount, targetCount);
    var q := targetCount / sourceCount;
    assert targetCount == q * sourceCount + targetCount % sourceCount;
    Distribute(sourceCount, q, -1);
    PositiveFactor(q - 1, sourceCount);
  }

  /** Mapping to no more shards: one shard, congruent to the given one. */
  lemma MapsToCongruentShard(sourceCount: int, targetCount: int, id: int)
    requires 0 < targetCount <= sourceCount && id >= 1
    requires sourceCount % targetCount == 0 || targetCount % sourceCount == 0
    ensures var shards := MapShardID(sourceCount, targetCount, id);
            && |shards| == 1 && (shards[0] - id) % targetCount == 0
            && (id <= sourceCount ==> 1 <= shards[0] <= targetCount)
  {
    if sourceCount == targetCount {
      assert targetCount / sourceCount == 1;
    } else {
      Congruent(id - 1, targetCount);
    }
  }

  lemma Congruent(x: nat, n: int)
    requires n > 0
    ensures (x % n - x) % n == 0
  {
    var q := x / n;
    assert x == q * n + x % n;
    assert x % n - x == (-q) * n;
    DivExact(-q, n, x % n - x);
  }

  /** mapShardIDUnique: it panics exactly when the target count is the larger one. */
  method MapShardIDUnique(sourceCount: int, targetCount: int, id: int) returns (panics: bool, shard: int)
    requires sourceCount > 0 && targetCount > 0 && id >= 1
    requires sourceCount % targetCount == 0 || targetCount % sourceCount == 0
    ensures panics <==> sourceCount < targetCount
    ensures !panics ==> [shard] == MapShardID(sourceCount, targetCount, id)
  {
    var shards := MapShardID(sourceCount, targetCount, id);
    panics, shard := |shards| != 1, 0;
    if sourceCount < targetCount {
      LargerCountSplits(sourceCount, targetCount);
    } else {
      MapsToCongruentShard(sourceCount, targetCount, id);
    }
    if !panics {
      shard := shards[0];
    }
  }

  /** The LCM branch of handleStream for the presented shard of a workflow: never a panic, always its shard. */
  method RemapStream(localCount: int, remoteCount: int, hash: nat) returns (panics: bool, shard: int)
    requires localCount > 0 && remoteCount > 0 && localCount * remoteCount <= MAX_INT32
    requires IsInt32(localCount) && IsInt32(remoteCount)
    ensures !panics && shard == ShardOf(hash, remoteCount)
  {
    var l := LCM(localCount, remoteCount);
    RemapAgreesWithDirectHash(localCount, remoteCount, l, hash);
    panics, shard := MapShardIDUnique(l, remoteCount, ShardOf(hash, l));
  }
}
