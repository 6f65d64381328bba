/** The two inclusion verifiers: the loop over the bits of `fn` and `sn` of RFC 9162
    section 2.1.3.2, and the top-down recursion that reads siblings through a cursor.
    Each method is proved against its own functional reading; the lemmas then show that
    the two readings agree on every input and accept exactly the honest proofs. */
module InclusionVerifiers {
  import opened Wrappers
  import opened MerkleTree

  const MAX_ITEMS := 10000
  const MAX_PATH := 64

  // ----- the bottom-up loop

  /** Position of the climb: the digest so far and the two shifted indices. */
  datatype Position<D> = Position(current: D, fn: nat, sn: nat)

  function Strip(fn: nat, sn: nat): (nat, nat) {
    if fn > 0 && fn % 2 == 0 then Strip(fn / 2, sn / 2) else (fn, sn)
  }

  function Rise<D>(h: Hashing<D>, p: Position<D>, sibling: D): Position<D> {
    if p.fn % 2 == 1 then Position(h.node(sibling, p.current), p.fn / 2, p.sn / 2)
    else if p.fn == p.sn then
      var (fn, sn) := Strip(p.fn, p.sn);
      Position(h.node(sibling, p.current), fn / 2, sn / 2)
    else Position(h.node(p.current, sibling), p.fn / 2, p.sn / 2)
  }

  /** None: a sibling was left over after the root was reached. */
  function BottomUp<D>(h: Hashing<D>, p: Position<D>, path: seq<D>): Option<Position<D>>
    decreases |path|
  {
    if path == [] then Some(p)
    else if p.sn == 0 then None
    else BottomUp(h, Rise(h, p, path[0]), path[1..])
  }

  predicate BottomUpAccepts<D(==)>(h: Hashing<D>, leaf: D, i: int, n: int, path: seq<D>, root: D) {
    0 <= i < n &&
    var end := BottomUp(h, Position(leaf, i, n - 1), path);
    end.Some? && end.value.sn == 0 && end.value.current == root
  }

  method Strict<E, D(==)>(h: Hashing<D>, leafHash: E -> D, entry: E, index: int, size: int, path: seq<D>, root: D)
    returns (ok: bool)
    ensures ok == BottomUpAccepts(h, leafHash(entry), index, size, path, root)
  {
    if !(0 <= index < size) { return false; }
    var fn, sn := index, size - 1;
    var current := leafHash(entry);
    ghost var start := Position(leafHash(entry), index, size - 1);
    for j := 0 to |path|
      invariant fn >= 0 && sn >= 0
      invariant BottomUp(h, start, path) == BottomUp(h, Position(current, fn, sn), path[j..])
    {
      if sn == 0 { return false; }
      ghost var before := Position(current, fn, sn);
      if fn % 2 == 1 || fn == sn {
        current := h.node(path[j], current);
        if fn % 2 == 0 {
          ghost var stripped := Strip(fn, sn);
          while fn != 0 && fn % 2 == 0
            invariant fn >= 0 && sn >= 0 && Strip(fn, sn) == stripped
          {
            fn, sn := fn / 2, sn / 2;
          }
        }
      } else {
        current := h.node(current, path[j]);
      }
      fn, sn := fn / 2, sn / 2;
      assert Position(current, fn, sn) == Rise(h, before, path[j]);
      assert path[j..][1..] == path[j + 1..];
    }
    return sn == 0 && current == root;
  }

  // ----- the top-down recursion with its cursor

  /** The digest and the cursor after folding the subtree of n leaves; None is the error
      for a truncated proof. */
  function FoldFrom<D>(h: Hashing<D>, siblings: seq<D>, cursor: nat, leaf: D, i: nat, n: nat): (r: Option<(D, nat)>)
    requires i < n && cursor <= |siblings|
    ensures r.Some? ==> cursor <= r.value.1 <= |siblings|
    decreases n
  {
    if n == 1 then Some((leaf, cursor))
    else
      var k := Split(n);
      var child := if i < k then FoldFrom(h, siblings, cursor, leaf, i, k)
                   else FoldFrom(h, siblings, cursor, leaf, i - k, n - k);
      if child.None? || child.value.1 == |siblings| then None
      else
        var sibling := siblings[child.value.1];
        var digest := if i < k then h.node(child.value.0, sibling) else h.node(sibling, child.value.0);
        Some((digest, child.value.1 + 1))
  }

  datatype Verdict = Raised | Answer(ok: bool)

  function CursorVerdict<D(==)>(h: Hashing<D>, leaf: D, i: int, n: int, path: seq<D>, root: D): Verdict {
    if !(0 <= n <= MAX_ITEMS && 0 <= i <= MAX_ITEMS) then Raised
    else if n == 0 || i >= n || |path| > MAX_PATH then Answer(false)
    else
      var r := FoldFrom(h, path, 0, leaf, i, n);
      Answer(r.Some? && r.value.1 == |path| && r.value.0 == root)
  }

  /** The closure of the recursive verifier: a fixed list of siblings and the cursor that
      every level of the recursion advances. */
  class ProofReader<D> {
    const h: Hashing<D>
    const siblings: seq<D>
    const leaf: D
    var cursor: nat

    constructor (h: Hashing<D>, siblings: seq<D>, leaf: D)
      ensures this.h == h && this.siblings == siblings && this.leaf == leaf && cursor == 0
    {
      this.h, this.siblings, this.leaf, cursor := h, siblings, leaf, 0;
    }

    method Fold(i: nat, n: nat) returns (r: Option<D>)
      requires i < n && cursor <= |siblings|
      modifies this
      ensures cursor <= |siblings|
      ensures var spec := FoldFrom(h, siblings, old(cursor), leaf, i, n);
              r == (if spec.Some? then Some(spec.value.0) else None)
              && (spec.Some? ==> cursor == spec.value.1)
      decreases n
    {
      if n == 1 { return Some(leaf); }
      var k := Split(n);
      var child;
      if i < k { child := Fold(i, k); } else { child := Fold(i - k, n - k); }
      if child.None? || cursor == |siblings| { return None; }
      var sibling := siblings[cursor];
      cursor := cursor + 1;
      return Some(if i < k then h.node(child.value, sibling) else h.node(sibling, child.value));
    }
  }

  method Inclusion<D(==)>(h: Hashing<D>, leaf: D, index: int, size: int, path: seq<D>, root: D) returns (v: Verdict)
    ensures v == CursorVerdict(h, leaf, index, size, path, root)
  {
    if !(0 <= size <= MAX_ITEMS) { return Raised; }
    if !(0 <= index <= MAX_ITEMS) { return Raised; }
    if size == 0 || index >= size || |path| > MAX_PATH { return Answer(false); }
    var reader := new ProofReader(h, path, leaf);
    var result := reader.Fold(index, size);
    return Answer(result.Some? && reader.cursor == |path| && result.value == root);
  }

  // ----- the cursor recursion climbs

  lemma SlicePrefix<D>(s: seq<D>, from: nat, d: nat)
    requires 0 < d && from + d <= |s|
    ensures var slice := s[from..from + d];
            |slice| == d && slice[..d - 1] == s[from..from + d - 1] && slice[d - 1] == s[from + d - 1]
  {
  }

  /** The recursion takes exactly the next Depth siblings, and fails if there are fewer. */
  ghost predicate FoldsTo<D>(h: Hashing<D>, siblings: seq<D>, cursor: nat, leaf: D, i: nat, n: nat)
    requires i < n && cursor <= |siblings|
  {
    var r, d := FoldFrom(h, siblings, cursor, leaf, i, n), Depth(i, n);
    if cursor + d <= |siblings| then r == Some((Climb(h, leaf, i, n, siblings[cursor..cursor + d]), cursor + d))
    else r.None?
  }

  lemma FoldsOneMore<D>(h: Hashing<D>, siblings: seq<D>, cursor: nat, leaf: D, i: nat, n: nat)
    requires 1 < n && i < n && cursor <= |siblings|
    requires var k := Split(n);
             if i < k then FoldsTo(h, siblings, cursor, leaf, i, k)
             else FoldsTo(h, siblings, cursor, leaf, i - k, n - k)
    ensures FoldsTo(h, siblings, cursor, leaf, i, n)
  {
    var d := Depth(i, n);
    if cursor + d <= |siblings| { SlicePrefix(siblings, cursor, d); }
  }

  lemma {:induction false} FoldClimbs<D>(h: Hashing<D>, siblings: seq<D>, cursor: nat, leaf: D, i: nat, n: nat)
    requires i < n && cursor <= |siblings|
    ensures FoldsTo(h, siblings, cursor, leaf, i, n)
    decreases n
  {
    if n > 1 {
      var k := Split(n);
      if i < k { FoldClimbs(h, siblings, cursor, leaf, i, k); }
      else { FoldClimbs(h, siblings, cursor, leaf, i - k, n - k); }
      FoldsOneMore(h, siblings, cursor, leaf, i, n);
    }
  }

  // ----- the bit loop climbs

  lemma {:induction false} BottomUpAppend<D>(h: Hashing<D>, p: Position<D>, a: seq<D>, b: seq<D>)
    ensures BottomUp(h, p, a + b) ==
            (if BottomUp(h, p, a).None? then None else BottomUp(h, BottomUp(h, p, a).value, b))
    decreases |a|
  {
    if a == [] {
      assert a + b == b;
    } else if p.sn > 0 {
      assert (a + b)[0] == a[0] && (a + b)[1..] == a[1..] + b;
      BottomUpAppend(h, Rise(h, p, a[0]), a[1..], b);
    }
  }

  lemma OneMore<D>(h: Hashing<D>, p: Position<D>, path: seq<D>)
    requires path != []
    ensures var before := BottomUp(h, p, path[..|path| - 1]);
            BottomUp(h, p, path) ==
            (if before.None? || before.value.sn == 0 then None
             else Some(Rise(h, before.value, path[|path| - 1])))
  {
    var last := |path| - 1;
    assert path == path[..last] + [path[last]];
    BottomUpAppend(h, p, path[..last], [path[last]]);
    var before := BottomUp(h, p, path[..last]);
    if before.Some? && before.value.sn > 0 {
      var up := Rise(h, before.value, path[last]);
      assert [path[last]][1..] == [];
      assert BottomUp(h, up, []) == Some(up);
    }
  }

  /** A right child has its sibling on the left. */
  function Join<D>(h: Hashing<D>, right: bool, child: D, sibling: D): D {
    if right then h.node(sibling, child) else h.node(child, sibling)
  }

  /** One level up from subtree 2a + c: an odd number is a right child. */
  lemma RiseByOneBit<D>(h: Hashing<D>, current: D, a: nat, c: nat, b: nat, d: nat, sibling: D)
    requires a < b && c < 2 && d < 2
    ensures Rise(h, Position(current, 2 * a + c, 2 * b + d), sibling)
         == Position(Join(h, c == 1, current, sibling), a, b)
  {
  }

  lemma ClimbPerfectTree<D>(h: Hashing<D>, leaf: D, r: nat, m: nat, path: seq<D>)
    requires m > 0 && r < Pow2(m) && |path| == m
    ensures Depth(r, Pow2(m)) == m
    ensures var q := Pow2(m - 1);
            var low := if r < q then r else r - q;
            Depth(low, q) == m - 1 &&
            Climb(h, leaf, r, Pow2(m), path) ==
              Join(h, r >= q, Climb(h, leaf, low, q, path[..m - 1]), path[m - 1])
  {
    SplitLogOfPow2(m);
    DepthOfPerfectTree(r, m);
    DepthOfPerfectTree(if r < Pow2(m - 1) then r else r - Pow2(m - 1), m - 1);
  }

  /** Inside a perfect subtree of 2^m leaves that is not the last one of its level, the
      loop climbs to the subtree's root and is left with the subtree's number. */
  lemma {:induction false} PerfectSubtree<D>(h: Hashing<D>, p: Position<D>, a: nat, r: nat, b: nat, t: nat, m: nat,
                                             path: seq<D>)
    requires a < b && r < Pow2(m) && t < Pow2(m) && p.fn == a * Pow2(m) + r && p.sn == b * Pow2(m) + t
    requires |path| == m && Depth(r, Pow2(m)) == m
    ensures BottomUp(h, p, path) == Some(Position(Climb(h, p.current, r, Pow2(m), path), a, b))
    decreases m
  {
    if m > 0 {
      var c, r' := Halve(a, r, Pow2(m - 1));
      var d, t' := Halve(b, t, Pow2(m - 1));
      ClimbPerfectTree(h, p.current, r, m, path);
      PerfectSubtree(h, p, 2 * a + c, r', 2 * b + d, t', m - 1, path[..m - 1]);
      OneMore(h, p, path);
      RiseByOneBit(h, Climb(h, p.current, r', Pow2(m - 1), path[..m - 1]), a, c, b, d, path[m - 1]);
    }
  }

  /** The position x * 2q + r read one level down: c is the next bit. */
  lemma Halve(x: nat, r: nat, q: nat) returns (c: nat, low: nat)
    requires r < 2 * q
    ensures c == (if r < q then 0 else 1) && low == r - c * q && low < q
    ensures x * (2 * q) + r == (2 * x + c) * q + low
  {
    c := if r < q then 0 else 1;
    low := r - c * q;
    assert x * (2 * q) == (2 * x) * q;
    assert (2 * x + c) * q == (2 * x) * q + c * q;
  }

  lemma {:induction false} StripShift(f: nat, e: nat) returns (e1: nat)
    requires 0 < f < Pow2(e)
    ensures 0 < e1 <= e
    ensures var s := Strip(f, f).0;
            && 0 < s < Pow2(e1) && s % 2 == 1 && Strip(f, f) == (s, s)
            && Strip(f + Pow2(e), f + Pow2(e)) == (s + Pow2(e1), s + Pow2(e1))
    decreases f
  {
    if f % 2 == 0 {
      assert f / 2 < Pow2(e - 1) && (f + Pow2(e)) / 2 == f / 2 + Pow2(e - 1);
      e1 := StripShift(f / 2, e - 1);
    } else {
      e1 := e;
    }
  }

  /** The same position with one more high bit in both indices. */
  function WithHighBit<D>(p: Position<D>, e: nat): Position<D> {
    Position(p.current, p.fn + Pow2(e), p.sn + Pow2(e))
  }

  lemma HighBitRise<D>(h: Hashing<D>, p: Position<D>, e: nat, sibling: D) returns (lower: nat)
    requires p.fn <= p.sn < Pow2(e) && p.sn > 0
    ensures var up := Rise(h, p, sibling);
            up.fn <= up.sn < Pow2(lower) && Rise(h, WithHighBit(p, e), sibling) == WithHighBit(up, lower)
  {
    if p.fn % 2 == 0 && p.fn == p.sn {
      var e1 := StripShift(p.fn, e);
      lower := e1 - 1;
    } else {
      lower := e - 1;
    }
  }

  /** Prefixing both indices with one more high bit changes nothing in the climb below it:
      the right subtree of an unbalanced tree is climbed as if it stood alone. */
  lemma {:induction false} HighBit<D>(h: Hashing<D>, p: Position<D>, e: nat, path: seq<D>) returns (e1: nat)
    requires p.fn <= p.sn < Pow2(e)
    requires BottomUp(h, p, path).Some?
    ensures var q := BottomUp(h, p, path).value;
            q.fn <= q.sn < Pow2(e1) && BottomUp(h, WithHighBit(p, e), path) == Some(WithHighBit(q, e1))
    decreases |path|
  {
    if path == [] {
      e1 := e;
    } else {
      var lower := HighBitRise(h, p, e, path[0]);
      e1 := HighBit(h, Rise(h, p, path[0]), lower, path[1..]);
    }
  }

  lemma {:induction false} StripOfPow2(e: nat)
    ensures Strip(Pow2(e), Pow2(e)) == (1, 1)
  {
    if e > 0 {
      assert Pow2(e) % 2 == 0 && Pow2(e) / 2 == Pow2(e - 1);
      assert Strip(Pow2(e), Pow2(e)) == Strip(Pow2(e - 1), Pow2(e - 1));
      StripOfPow2(e - 1);
    }
  }

  /** A leaf in the left half climbs its perfect subtree and then once more. */
  lemma LeftHalfClimbs<D>(h: Hashing<D>, leaf: D, i: nat, n: nat, path: seq<D>)
    requires 1 < n && i < Split(n) && |path| == Depth(i, n)
    ensures BottomUp(h, Position(leaf, i, n - 1), path) == Some(Position(Climb(h, leaf, i, n, path), 0, 0))
  {
    var k, m, last := Split(n), SplitLog(n), |path| - 1;
    OneMore(h, Position(leaf, i, n - 1), path);
    DepthOfPerfectTree(i, m);
    PerfectSubtree(h, Position(leaf, i, n - 1), 0, i, 1, n - 1 - k, m, path[..last]);
  }

  /** A leaf in the right half climbs as if its half stood alone, and then once more. */
  lemma RightHalfClimbs<D>(h: Hashing<D>, leaf: D, i: nat, n: nat, path: seq<D>)
    requires 1 < n && Split(n) <= i < n && |path| == Depth(i, n)
    requires var k, below := Split(n), path[..|path| - 1];
             BottomUp(h, Position(leaf, i - k, n - k - 1), below)
             == Some(Position(Climb(h, leaf, i - k, n - k, below), 0, 0))
    ensures BottomUp(h, Position(leaf, i, n - 1), path) == Some(Position(Climb(h, leaf, i, n, path), 0, 0))
  {
    OneMore(h, Position(leaf, i, n - 1), path);
    var e1 := HighBit(h, Position(leaf, i - Split(n), n - Split(n) - 1), SplitLog(n), path[..|path| - 1]);
    StripOfPow2(e1);
  }

  /** A path of the right length takes the loop exactly to the root. */
  lemma {:induction false} LoopClimbs<D>(h: Hashing<D>, leaf: D, i: nat, n: nat, path: seq<D>)
    requires i < n && |path| == Depth(i, n)
    ensures BottomUp(h, Position(leaf, i, n - 1), path) == Some(Position(Climb(h, leaf, i, n, path), 0, 0))
    decreases n
  {
    if n > 1 {
      var k := Split(n);
      if i < k {
        LeftHalfClimbs(h, leaf, i, n, path);
      } else {
        LoopClimbs(h, leaf, i - k, n - k, path[..|path| - 1]);
        RightHalfClimbs(h, leaf, i, n, path);
      }
    }
  }

  /** The loop accepts exactly the paths of the right length that climb to the root. */
  lemma LoopAcceptsExactly<D>(h: Hashing<D>, leaf: D, i: int, n: int, path: seq<D>, root: D)
    ensures BottomUpAccepts(h, leaf, i, n, path, root)
       <==> 0 <= i < n && |path| == Depth(i, n) && Climb(h, leaf, i, n, path) == root
  {
    if 0 <= i < n {
      var d, start := Depth(i, n), Position(leaf, i, n - 1);
      if |path| < d {
        var padded := path + seq(d - |path|, _ => leaf);
        LoopClimbs(h, leaf, i, n, padded);
        BottomUpAppend(h, start, path, padded[|path|..]);
        assert padded == path + padded[|path|..];
      } else {
        LoopClimbs(h, leaf, i, n, path[..d]);
        BottomUpAppend(h, start, path[..d], path[d..]);
        assert path == path[..d] + path[d..];
        assert path[d..] == [] <==> |path| == d;
        assert |path| == d ==> path[..d] == path;
      }
    }
  }

  /** The two verifiers give the same answer for every leaf, index, size up to 10000, path
      and root, right or wrong, whenever the recursive one answers at all. */
  lemma VerifiersAgree<D>(h: Hashing<D>, leaf: D, i: int, n: int, path: seq<D>, root: D)
    ensures var v := CursorVerdict(h, leaf, i, n, path, root);
            (v.Raised? <==> !(0 <= n <= 10000 && 0 <= i <= 10000)) &&
            (v.Answer? ==> v.ok == BottomUpAccepts(h, leaf, i, n, path, root))
  {
    LoopAcceptsExactly(h, leaf, i, n, path, root);
    if 0 <= i < n <= MAX_ITEMS {
      PathsFit(i, n);
      FoldClimbs(h, path, 0, leaf, i, n);
      var d := Depth(i, n);
      assert |path| == d ==> path[0..0 + d] == path;
    }
  }

  lemma {:induction false} Pow2Adds(d: nat, e: nat)
    ensures Pow2(d + e) == Pow2(d) * Pow2(e)
  {
    if d > 0 {
      Pow2Adds(d - 1, e);
      assert 2 * (Pow2(d - 1) * Pow2(e)) == (2 * Pow2(d - 1)) * Pow2(e);
    }
  }

  /** An honest path in the supported range has at most 14 siblings, so the 64-item cap
      never rejects one. */
  lemma PathsFit(i: nat, n: nat)
    requires i < n <= MAX_ITEMS
    ensures Depth(i, n) <= BitLength(n - 1) <= 14 < MAX_PATH
  {
    DepthBound(i, n);
    Pow2Adds(7, 7);
    assert Pow2(7) == 128;
    ShorterBelowPow2(14);
    BitLengthMonotone(n - 1, Pow2(14) - 1);
  }

  /** Against the root of some leaves, both verifiers accept every honest proof; and whatever
      either accepts is the honest proof, or shows a collision on its own path. */
  lemma AcceptsExactlyHonestProofs<D>(h: Hashing<D>, leaves: seq<D>, leaf: D, i: int, path: seq<D>)
    requires |leaves| <= MAX_ITEMS
    ensures var honest := Honest(h, leaves, leaf, i, path);
            var loop := BottomUpAccepts(h, leaf, i, |leaves|, path, Root(h, leaves));
            var recursion := CursorVerdict(h, leaf, i, |leaves|, path, Root(h, leaves)) == Answer(true);
            && (honest ==> loop && recursion)
            && (loop || recursion ==> honest || PathCollides(h, leaves, leaf, i, path))
  {
    var n := |leaves|;
    LoopAcceptsExactly(h, leaf, i, n, path, Root(h, leaves));
    VerifiersAgree(h, leaf, i, n, path, Root(h, leaves));
    if 0 <= i < n {
      HonestPathClimbs(h, leaves, i);
      if |path| == Depth(i, n) && Climb(h, leaf, i, n, path) == Root(h, leaves) {
        OnlyHonestPathClimbs(h, leaves, leaf, i, path);
      }
    }
  }
}
