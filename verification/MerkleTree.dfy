/** The tree hash of RFC 6962 section 2.1 and its audit paths (section 2.1.1), over an
    arbitrary digest type and an arbitrary node hash.  Nothing is assumed about the hash: where
    a result needs collision resistance, its statement says "or these nodes collide", and names
    the trees or the path they come from. */
module MerkleTree {
  import opened Wrappers

  /** `empty` is the digest of the empty tree; `node` hashes a pair of children. */
  datatype Hashing<!D> = Hashing(empty: D, node: (D, D) -> D)

  function Pow2(e: nat): (p: nat)
    ensures p > 0
  {
    if e == 0 then 1 else 2 * Pow2(e - 1)
  }

  function BitLength(n: nat): nat {
    if n == 0 then 0 else 1 + BitLength(n / 2)
  }

  lemma {:induction false} BitLengthBounds(n: nat)
    requires n > 0
    ensures BitLength(n) > 0 && Pow2(BitLength(n) - 1) <= n < Pow2(BitLength(n))
  {
    if n > 1 { BitLengthBounds(n / 2); }
  }

  lemma {:induction false} BitLengthMonotone(m: nat, n: nat)
    requires m <= n
    ensures BitLength(m) <= BitLength(n)
  {
    if m > 0 { BitLengthMonotone(m / 2, n / 2); }
  }

  lemma {:induction false} Pow2Monotone(d: nat, e: nat)
    requires d < e
    ensures 2 * Pow2(d) <= Pow2(e)
  {
    if d + 1 < e { Pow2Monotone(d, e - 1); }
  }

  /** The exponent of the largest power of two strictly below n, as computed from the
      bit length of n - 1. */
  function SplitLog(n: nat): nat
    requires n >= 2
  {
    BitLengthBounds(n - 1);
    BitLength(n - 1) - 1
  }

  function Split(n: nat): (k: nat)
    requires n >= 2
    ensures 0 < k < n <= 2 * k
  {
    BitLengthBounds(n - 1);
    Pow2(SplitLog(n))
  }

  /** Splitting a perfect tree halves it. */
  lemma SplitLogOfPow2(m: nat)
    requires m > 0
    ensures Pow2(m) >= 2 && SplitLog(Pow2(m)) == m - 1
  {
  }

  function Root<D>(h: Hashing<D>, leaves: seq<D>): D {
    if leaves == [] then h.empty
    else if |leaves| == 1 then leaves[0]
    else
      var k := Split(|leaves|);
      h.node(Root(h, leaves[..k]), Root(h, leaves[k..]))
  }

  /** None is the error raised for an index outside the tree. */
  function AuditPath<D>(h: Hashing<D>, leaves: seq<D>, i: int): (p: Option<seq<D>>)
    ensures p.Some? <==> 0 <= i < |leaves|
    decreases |leaves|
  {
    if !(0 <= i < |leaves|) then None
    else if |leaves| == 1 then Some([])
    else
      var k := Split(|leaves|);
      if i < k then
        Some(AuditPath(h, leaves[..k], i).value + [Root(h, leaves[k..])])
      else
        Some(AuditPath(h, leaves[k..], i - k).value + [Root(h, leaves[..k])])
  }

  /** How many siblings lie between leaf i and the root of a tree of n leaves. */
  function Depth(i: nat, n: nat): nat
    requires i < n
    decreases n
  {
    if n == 1 then 0
    else var k := Split(n); if i < k then Depth(i, k) + 1 else Depth(i - k, n - k) + 1
  }

  /** The root that a leaf, an index and a path of the right length lead to: the
      specification both verifiers are proved against. */
  function Climb<D>(h: Hashing<D>, leaf: D, i: nat, n: nat, path: seq<D>): D
    requires i < n && |path| == Depth(i, n)
    decreases n
  {
    if n == 1 then leaf
    else
      var k, last := Split(n), |path| - 1;
      if i < k then h.node(Climb(h, leaf, i, k, path[..last]), path[last])
      else h.node(path[last], Climb(h, leaf, i - k, n - k, path[..last]))
  }

  lemma {:induction false} DepthOfPerfectTree(i: nat, m: nat)
    requires i < Pow2(m)
    ensures Depth(i, Pow2(m)) == m
    decreases m
  {
    if m > 0 {
      SplitLogOfPow2(m);
      DepthOfPerfectTree(if i < Pow2(m - 1) then i else i - Pow2(m - 1), m - 1);
    }
  }

  /** A path is never longer than the bit length of the last index. */
  lemma {:induction false} DepthBound(i: nat, n: nat)
    requires i < n
    ensures Depth(i, n) <= BitLength(n - 1)
    decreases n
  {
    if n > 1 {
      var k := Split(n);
      BitLengthBounds(n - 1);
      if i < k {
        DepthOfPerfectTree(i, SplitLog(n));
      } else {
        DepthBound(i - k, n - k);
        BitLengthMonotone(n - k - 1, k - 1);
        ShorterBelowPow2(SplitLog(n));
      }
    }
  }

  lemma {:induction false} ShorterBelowPow2(m: nat)
    ensures BitLength(Pow2(m) - 1) == m
  {
    if m > 0 {
      ShorterBelowPow2(m - 1);
      assert (Pow2(m) - 1) / 2 == Pow2(m - 1) - 1;
    }
  }

  /** The pairs of children that are hashed for the root of these leaves. */
  ghost function Nodes<D>(h: Hashing<D>, leaves: seq<D>): set<(D, D)> {
    if |leaves| <= 1 then {}
    else
      var left, right := leaves[..Split(|leaves|)], leaves[Split(|leaves|)..];
      {(Root(h, left), Root(h, right))} + Nodes(h, left) + Nodes(h, right)
  }

  /** The pairs of children that are hashed on the way up a path. */
  ghost function ClimbNodes<D>(h: Hashing<D>, leaf: D, i: nat, n: nat, path: seq<D>): set<(D, D)>
    requires i < n && |path| == Depth(i, n)
    decreases n
  {
    if n == 1 then {}
    else
      var k, last := Split(n), |path| - 1;
      var below := path[..last];
      if i < k then {(Climb(h, leaf, i, k, below), path[last])} + ClimbNodes(h, leaf, i, k, below)
      else {(path[last], Climb(h, leaf, i - k, n - k, below))} + ClimbNodes(h, leaf, i - k, n - k, below)
  }

  /** Two different pairs, one from each set, have one parent digest. */
  ghost predicate Collide<D>(h: Hashing<D>, a: set<(D, D)>, b: set<(D, D)>) {
    exists p, q :: p in a && q in b && p != q && h.node(p.0, p.1) == h.node(q.0, q.1)
  }

  lemma CollideInMore<D>(h: Hashing<D>, a: set<(D, D)>, b: set<(D, D)>, a': set<(D, D)>, b': set<(D, D)>)
    requires Collide(h, a, b) && a <= a' && b <= b'
    ensures Collide(h, a', b')
  {
    var p, q :| p in a && q in b && p != q && h.node(p.0, p.1) == h.node(q.0, q.1);
    assert p in a' && q in b';
  }

  /** Completeness: the audit path of leaf i has the right length and leads to the root. */
  lemma {:induction false} HonestPathClimbs<D>(h: Hashing<D>, leaves: seq<D>, i: nat)
    requires i < |leaves|
    ensures var path := AuditPath(h, leaves, i).value;
            |path| == Depth(i, |leaves|) && Climb(h, leaves[i], i, |leaves|, path) == Root(h, leaves)
    decreases |leaves|
  {
    if |leaves| > 1 {
      var k, path := Split(|leaves|), AuditPath(h, leaves, i).value;
      if i < k {
        var below := AuditPath(h, leaves[..k], i).value;
        HonestPathClimbs(h, leaves[..k], i);
        assert path == below + [Root(h, leaves[k..])] && path[..|path| - 1] == below;
        assert leaves[..k][i] == leaves[i];
      } else {
        var below := AuditPath(h, leaves[k..], i - k).value;
        HonestPathClimbs(h, leaves[k..], i - k);
        assert path == below + [Root(h, leaves[..k])] && path[..|path| - 1] == below;
        assert leaves[k..][i - k] == leaves[i];
      }
    }
  }

  predicate Honest<D(==)>(h: Hashing<D>, leaves: seq<D>, leaf: D, i: int, path: seq<D>) {
    0 <= i < |leaves| && leaf == leaves[i] && path == AuditPath(h, leaves, i).value
  }

  /** On the way up this path a node collides with a node of the tree over these leaves. */
  ghost predicate PathCollides<D>(h: Hashing<D>, leaves: seq<D>, leaf: D, i: int, path: seq<D>) {
    && 0 <= i < |leaves| && |path| == Depth(i, |leaves|)
    && Collide(h, ClimbNodes(h, leaf, i, |leaves|, path), Nodes(h, leaves))
  }

  /** What holds of a path into the left half holds of the longer path into the whole tree. */
  lemma LeftHalfDecides<D>(h: Hashing<D>, leaves: seq<D>, leaf: D, i: nat, path: seq<D>)
    requires |leaves| > 1 && i < Split(|leaves|) && |path| == Depth(i, |leaves|)
    requires var k, last := Split(|leaves|), |path| - 1;
             && path[last] == Root(h, leaves[k..])
             && (Honest(h, leaves[..k], leaf, i, path[..last]) || PathCollides(h, leaves[..k], leaf, i, path[..last]))
    ensures Honest(h, leaves, leaf, i, path) || PathCollides(h, leaves, leaf, i, path)
  {
    var k, last := Split(|leaves|), |path| - 1;
    var left, below := leaves[..k], path[..last];
    if Honest(h, left, leaf, i, below) {
      assert path == below + [path[last]];
    } else {
      CollideInMore(h, ClimbNodes(h, leaf, i, k, below), Nodes(h, left),
                    ClimbNodes(h, leaf, i, |leaves|, path), Nodes(h, leaves));
    }
  }

  lemma RightHalfDecides<D>(h: Hashing<D>, leaves: seq<D>, leaf: D, i: nat, path: seq<D>)
    requires |leaves| > 1 && Split(|leaves|) <= i < |leaves| && |path| == Depth(i, |leaves|)
    requires var k, last := Split(|leaves|), |path| - 1;
             && path[last] == Root(h, leaves[..k])
             && (|| Honest(h, leaves[k..], leaf, i - k, path[..last])
                 || PathCollides(h, leaves[k..], leaf, i - k, path[..last]))
    ensures Honest(h, leaves, leaf, i, path) || PathCollides(h, leaves, leaf, i, path)
  {
    var k, last := Split(|leaves|), |path| - 1;
    var right, below := leaves[k..], path[..last];
    if Honest(h, right, leaf, i - k, below) {
      assert path == below + [path[last]];
    } else {
      CollideInMore(h, ClimbNodes(h, leaf, i - k, |leaves| - k, below), Nodes(h, right),
                    ClimbNodes(h, leaf, i, |leaves|, path), Nodes(h, leaves));
    }
  }

  /** The pair hashed last on the way up, and the pair hashed for the root. */
  ghost function TopPair<D>(h: Hashing<D>, leaf: D, i: nat, n: nat, path: seq<D>): (D, D)
    requires n > 1 && i < n && |path| == Depth(i, n)
  {
    var k, last := Split(n), |path| - 1;
    if i < k then (Climb(h, leaf, i, k, path[..last]), path[last])
    else (path[last], Climb(h, leaf, i - k, n - k, path[..last]))
  }

  ghost function RootPair<D>(h: Hashing<D>, leaves: seq<D>): (D, D)
    requires |leaves| > 1
  {
    (Root(h, leaves[..Split(|leaves|)]), Root(h, leaves[Split(|leaves|)..]))
  }

  /** If the top pairs differ although the way up ends in the root, they collide. */
  lemma TopPairsDecide<D>(h: Hashing<D>, leaves: seq<D>, leaf: D, i: nat, path: seq<D>)
    requires |leaves| > 1 && i < |leaves| && |path| == Depth(i, |leaves|)
    requires Climb(h, leaf, i, |leaves|, path) == Root(h, leaves)
    ensures TopPair(h, leaf, i, |leaves|, path) == RootPair(h, leaves) || PathCollides(h, leaves, leaf, i, path)
  {
    var p, q := TopPair(h, leaf, i, |leaves|, path), RootPair(h, leaves);
    assert p in ClimbNodes(h, leaf, i, |leaves|, path) && q in Nodes(h, leaves);
    assert h.node(p.0, p.1) == h.node(q.0, q.1);
  }

  /** Soundness: only the i-th leaf with its own audit path leads to the root, unless a node on
      that way and a node of the tree collide. */
  lemma {:induction false} OnlyHonestPathClimbs<D>(h: Hashing<D>, leaves: seq<D>, leaf: D, i: nat, path: seq<D>)
    requires i < |leaves| && |path| == Depth(i, |leaves|)
    requires Climb(h, leaf, i, |leaves|, path) == Root(h, leaves)
    ensures Honest(h, leaves, leaf, i, path) || PathCollides(h, leaves, leaf, i, path)
    decreases |leaves|
  {
    if |leaves| > 1 {
      var k, last := Split(|leaves|), |path| - 1;
      TopPairsDecide(h, leaves, leaf, i, path);
      if TopPair(h, leaf, i, |leaves|, path) == RootPair(h, leaves) {
        if i < k {
          OnlyHonestPathClimbs(h, leaves[..k], leaf, i, path[..last]);
          LeftHalfDecides(h, leaves, leaf, i, path);
        } else {
          OnlyHonestPathClimbs(h, leaves[k..], leaf, i - k, path[..last]);
          RightHalfDecides(h, leaves, leaf, i, path);
        }
      }
    }
  }

  ghost predicate SameOrCollide<D>(h: Hashing<D>, a: seq<D>, b: seq<D>) {
    a == b || Collide(h, Nodes(h, a), Nodes(h, b))
  }

  lemma HalvesDecide<D>(h: Hashing<D>, a: seq<D>, b: seq<D>, k: nat)
    requires |a| == |b| > 1 && k == Split(|a|)
    requires SameOrCollide(h, a[..k], b[..k]) && SameOrCollide(h, a[k..], b[k..])
    ensures SameOrCollide(h, a, b)
  {
    if a[..k] != b[..k] {
      CollideInMore(h, Nodes(h, a[..k]), Nodes(h, b[..k]), Nodes(h, a), Nodes(h, b));
    } else if a[k..] != b[k..] {
      CollideInMore(h, Nodes(h, a[k..]), Nodes(h, b[k..]), Nodes(h, a), Nodes(h, b));
    } else {
      assert a == a[..k] + a[k..] && b == b[..k] + b[k..];
    }
  }

  /** A root determines its leaves: same-sized leaf lists with one root are equal, unless a node
      of one tree and a node of the other collide. */
  lemma {:induction false} RootDeterminesLeaves<D>(h: Hashing<D>, a: seq<D>, b: seq<D>)
    requires |a| == |b| && Root(h, a) == Root(h, b)
    ensures SameOrCollide(h, a, b)
    decreases |a|
  {
    if |a| > 1 {
      var k, p, q := Split(|a|), RootPair(h, a), RootPair(h, b);
      assert p in Nodes(h, a) && q in Nodes(h, b) && h.node(p.0, p.1) == h.node(q.0, q.1);
      if p == q {
        RootDeterminesLeaves(h, a[..k], b[..k]);
        RootDeterminesLeaves(h, a[k..], b[k..]);
        HalvesDecide(h, a, b, k);
      }
    } else if |a| == 1 {
      assert a == [a[0]] && b == [b[0]];
    }
  }

  lemma SplitIsPowerOfTwo(n: nat, m: nat)
    requires Pow2(m) < n <= 2 * Pow2(m)
    ensures Split(n) == Pow2(m)
  {
    BitLengthBounds(n - 1);
    var e := SplitLog(n);
    if e < m { Pow2Monotone(e, m); }
    if m < e { Pow2Monotone(m, e); }
  }

  /** The hash of n leaves joins the hash of the first 2^m with the hash of the rest, in that
      order, where 2^m is the largest power of two below n. */
  lemma RootSplitsAtPowerOfTwo<D>(h: Hashing<D>, leaves: seq<D>, m: nat)
    requires Pow2(m) < |leaves| <= 2 * Pow2(m)
    ensures Root(h, leaves) == h.node(Root(h, leaves[..Pow2(m)]), Root(h, leaves[Pow2(m)..]))
  {
    SplitIsPowerOfTwo(|leaves|, m);
  }

  /** Audit paths go the same way: the last sibling is the half that the leaf is not in. */
  lemma PathSplitsAtPowerOfTwo<D>(h: Hashing<D>, leaves: seq<D>, m: nat, i: nat)
    requires Pow2(m) < |leaves| <= 2 * Pow2(m) && i < |leaves|
    ensures var left, right := leaves[..Pow2(m)], leaves[Pow2(m)..];
            AuditPath(h, leaves, i) ==
            Some(if i < Pow2(m) then AuditPath(h, left, i).value + [Root(h, right)]
                 else AuditPath(h, right, i - Pow2(m)).value + [Root(h, left)])
  {
    SplitIsPowerOfTwo(|leaves|, m);
  }

  lemma SmallTrees<D>(h: Hashing<D>, a: D, b: D, c: D)
    ensures Root(h, []) == h.empty && Root(h, [a]) == a
    ensures Root(h, [a, b]) == h.node(a, b) && Root(h, [a, b, c]) == h.node(h.node(a, b), c)
    ensures AuditPath(h, [a, b], 0) == Some([b]) && AuditPath(h, [a, b, c], 2) == Some([h.node(a, b)])
  {
    assert Pow2(0) == 1 && Pow2(1) == 2;
    assert [] + [b] == [b] && [] + [h.node(a, b)] == [h.node(a, b)];
    assert AuditPath(h, [a], 0) == Some([]) && AuditPath(h, [c], 0) == Some([]);
    assert [a, b][..1] == [a] && [a, b][1..] == [b] && [a, b, c][..2] == [a, b] && [a, b, c][2..] == [c];
    RootSplitsAtPowerOfTwo(h, [a, b], 0);
    RootSplitsAtPowerOfTwo(h, [a, b, c], 1);
    PathSplitsAtPowerOfTwo(h, [a, b], 0, 0);
    PathSplitsAtPowerOfTwo(h, [a, b, c], 1, 2);
  }
}
