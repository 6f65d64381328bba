/** Requirement INT-008: reconcile a delivery of events with the batch that an anchor
    committed to.  "Verified" is shown to mean that the delivery is the whole batch. */
module BatchCompleteness {
  import opened Wrappers
  import opened MerkleTree
  import opened InclusionVerifiers

  datatype Body = Body(eventId: string, sourceId: string, eventType: string, payload: string)
  datatype Entry<D> = Entry(eventId: string, sourceId: string, eventType: string, leaf: D)
  datatype Event<D> = Event(body: Body, signatureOk: bool, sourceOk: bool, eventHash: D, index: int, path: seq<D>)
  datatype Batch<D> = Batch(eventCount: int, indexDigest: D, root: D, firstId: Option<string>,
                            lastId: Option<string>, policyDigest: D)

  /** The hashes in use: tree nodes, event leaves, event bodies and the whole index. */
  datatype Suite<!D> = Suite(tree: Hashing<D>, leafHash: Body -> D, bodyDigest: Body -> D,
                             indexDigest: seq<Entry<D>> -> D)

  datatype Completeness = Verified | Failed | Indeterminate

  function Ids<D>(index: seq<Entry<D>>): seq<string> { seq(|index|, i requires 0 <= i < |index| => index[i].eventId) }

  function Leaves<D>(index: seq<Entry<D>>): seq<D> { seq(|index|, i requires 0 <= i < |index| => index[i].leaf) }

  function Elements<T>(s: seq<T>): set<T> { set x | x in s }

  /** The signed index describes the batch: digest, root, count, distinct ids, endpoints
      and policy all agree with the anchor. */
  predicate IndexGood<D(==)>(c: Suite<D>, index: seq<Entry<D>>, batch: Batch<D>, pinnedPolicy: D) {
    && |index| == batch.eventCount && |Elements(Ids(index))| == batch.eventCount
    && c.indexDigest(index) == batch.indexDigest
    && Root(c.tree, Leaves(index)) == batch.root
    && batch.firstId == (if index == [] then None else Some(index[0].eventId))
    && batch.lastId == (if index == [] then None else Some(index[|index| - 1].eventId))
    && batch.policyDigest == pinnedPolicy
  }

  function Identity<D>(c: Suite<D>, body: Body): Entry<D> {
    Entry(body.eventId, body.sourceId, body.eventType, c.leafHash(body))
  }

  /** Hash, signature and inclusion checks of one delivered event. */
  predicate EventGood<D(==)>(c: Suite<D>, index: seq<Entry<D>>, batch: Batch<D>, e: Event<D>) {
    && e.signatureOk && e.sourceOk && c.bodyDigest(e.body) == e.eventHash
    && 0 <= e.index < |index| && index[e.index] == Identity(c, e.body)
    && CursorVerdict(c.tree, c.leafHash(e.body), e.index, batch.eventCount, e.path, batch.root) == Answer(true)
  }

  predicate AllGood<D(==)>(c: Suite<D>, index: seq<Entry<D>>, batch: Batch<D>, events: seq<Event<D>>) {
    forall i :: 0 <= i < |events| ==> EventGood(c, index, batch, events[i])
  }

  predicate InRange<D>(events: seq<Event<D>>) {
    forall i :: 0 <= i < |events| ==> 0 <= events[i].index <= MAX_ITEMS
  }

  /** Numbers and lists are bounded as the input contract demands; otherwise an error is raised. */
  predicate Bounded<D>(index: seq<Entry<D>>, batch: Batch<D>, events: seq<Event<D>>) {
    |events| <= MAX_ITEMS && |index| <= MAX_ITEMS && 0 <= batch.eventCount <= MAX_ITEMS && InRange(events)
  }

  function Range(n: int): (r: set<int>)
    ensures forall j :: j in r <==> 0 <= j < n
    ensures n >= 0 ==> |r| == n
  {
    if n <= 0 then {} else Range(n - 1) + {n - 1}
  }

  function DeliveredIds<D(==)>(events: seq<Event<D>>): set<string> { set e | e in events :: e.body.eventId }

  function DeliveredIndices<D(==)>(events: seq<Event<D>>): set<int> { set e | e in events :: e.index }

  /** Delivered ids and indices cover the batch exactly once. */
  predicate Covers<D(==)>(index: seq<Entry<D>>, batch: Batch<D>, events: seq<Event<D>>) {
    && |events| == batch.eventCount && |DeliveredIds(events)| == batch.eventCount
    && DeliveredIndices(events) == Range(batch.eventCount)
    && DeliveredIds(events) == Elements(Ids(index))
  }

  /** None is the error for a number or a list out of range. */
  method Reconcile<D(==)>(c: Suite<D>, index: seq<Entry<D>>, batch: Batch<D>, pinnedPolicy: D, anchorOk: bool,
                          events: seq<Event<D>>)
    returns (r: Option<Completeness>)
    ensures r.Some? <==> Bounded(index, batch, events)
    ensures r.Some? ==>
      var grounded, whole := IndexGood(c, index, batch, pinnedPolicy) && anchorOk, Covers(index, batch, events);
      && (r.value == Verified <==> grounded && whole && AllGood(c, index, batch, events))
      && (r.value == Failed <==> grounded && !whole)
  {
    if |events| > MAX_ITEMS { return None; }
    var size := batch.eventCount;
    if !(0 <= size <= MAX_ITEMS) || |index| > MAX_ITEMS { return None; }
    var indexOk := IndexGood(c, index, batch, pinnedPolicy) && anchorOk;
    var delivery := CheckDelivery(c, index, batch, events);
    if delivery.None? { return None; }
    var Tally(deliveredIds, indices, checksOk) := delivery.value;
    var complete := |events| == size && |deliveredIds| == size && indices == Range(size)
                    && deliveredIds == Elements(Ids(index));
    var completeness := if complete then Verified else Failed;
    if complete && !checksOk { completeness := Indeterminate; }
    return Some(if indexOk then completeness else Indeterminate);
  }

  /** What was delivered, and whether every check on it succeeded. */
  datatype Tally = Tally(ids: set<string>, indices: set<int>, checksOk: bool)

  ghost predicate Tallies<D>(c: Suite<D>, index: seq<Entry<D>>, batch: Batch<D>, events: seq<Event<D>>, t: Tally) {
    && t.ids == DeliveredIds(events) && t.indices == DeliveredIndices(events)
    && (t.checksOk <==> AllGood(c, index, batch, events))
  }

  lemma TallyLonger<D>(c: Suite<D>, index: seq<Entry<D>>, batch: Batch<D>, past: seq<Event<D>>, e: Event<D>, t: Tally,
                       good: bool)
    requires Tallies(c, index, batch, past, t) && (good <==> EventGood(c, index, batch, e))
    ensures Tallies(c, index, batch, past + [e],
                    Tally(t.ids + {e.body.eventId}, t.indices + {e.index}, t.checksOk && good))
  {
    var all := past + [e];
    assert forall i :: 0 <= i < |past| ==> all[i] == past[i];
    assert all[|past|] == e;
  }

  method CheckDelivery<D(==)>(c: Suite<D>, index: seq<Entry<D>>, batch: Batch<D>, events: seq<Event<D>>)
    returns (r: Option<Tally>)
    requires 0 <= batch.eventCount <= MAX_ITEMS
    ensures r.Some? <==> InRange(events)
    ensures r.Some? ==> Tallies(c, index, batch, events, r.value)
  {
    var t := Tally({}, {}, true);
    for pos := 0 to |events|
      invariant forall i :: 0 <= i < pos ==> 0 <= events[i].index <= MAX_ITEMS
      invariant Tallies(c, index, batch, events[..pos], t)
    {
      var e := events[pos];
      if !(0 <= e.index <= MAX_ITEMS) { return None; }
      var good := CheckEvent(c, index, batch, e);
      TallyLonger(c, index, batch, events[..pos], e, t, good);
      assert events[..pos + 1] == events[..pos] + [e];
      t := Tally(t.ids + {e.body.eventId}, t.indices + {e.index}, t.checksOk && good);
    }
    assert events[..|events|] == events;
    return Some(t);
  }

  /** The three checks on one event; the source keeps their results in three lists. */
  method CheckEvent<D(==)>(c: Suite<D>, index: seq<Entry<D>>, batch: Batch<D>, e: Event<D>) returns (good: bool)
    requires 0 <= e.index <= MAX_ITEMS && 0 <= batch.eventCount <= MAX_ITEMS
    ensures good <==> EventGood(c, index, batch, e)
  {
    var sigOk := e.signatureOk && e.sourceOk;
    var hashOk := c.bodyDigest(e.body) == e.eventHash;
    var proofOk := false;
    if e.index < |index| && index[e.index] == Identity(c, e.body) {
      var verdict := Inclusion(c.tree, c.leafHash(e.body), e.index, batch.eventCount, e.path, batch.root);
      proofOk := verdict == Answer(true);
    }
    return sigOk && hashOk && proofOk;
  }

  // ----- what "verified" means

  ghost predicate IsVerified<D>(c: Suite<D>, index: seq<Entry<D>>, batch: Batch<D>, pinnedPolicy: D,
                                events: seq<Event<D>>) {
    && IndexGood(c, index, batch, pinnedPolicy) && Covers(index, batch, events) && 0 <= batch.eventCount <= MAX_ITEMS
    && forall i :: 0 <= i < |events| ==> EventGood(c, index, batch, events[i])
  }

  /** `order` lists every position 0..n-1 exactly once. */
  ghost predicate Permutation(order: seq<nat>, n: nat) {
    && |order| == n
    && (forall i :: 0 <= i < n ==> order[i] < n)
    && (forall i, j :: 0 <= i < j < n ==> order[i] != order[j])
    && (forall p: nat :: p < n ==> p in order)
  }

  lemma {:induction false} DistinctCardinality(s: seq<nat>)
    requires forall i, j :: 0 <= i < j < |s| ==> s[i] != s[j]
    ensures |Elements(s)| == |s|
  {
    if s != [] {
      var rest := s[..|s| - 1];
      DistinctCardinality(rest);
      assert Elements(s) == Elements(rest) + {s[|s| - 1]};
    }
  }

  lemma SubsetOfSameSize<T>(a: set<T>, b: set<T>)
    requires a <= b && |a| == |b|
    ensures a == b
  {
    assert b == a + (b - a);
  }

  ghost predicate Delivers<D>(events: seq<Event<D>>, k: int) {
    exists i :: 0 <= i < |events| && events[i].index == k
  }

  /** Where the event with index k was delivered. */
  ghost function PositionOf<D>(events: seq<Event<D>>, k: int): (i: nat)
    requires Delivers(events, k)
    ensures i < |events| && events[i].index == k
  {
    var i :| 0 <= i < |events| && events[i].index == k;
    i
  }

  /** n positions below n without repetition are all of them. */
  lemma DistinctPositionsPermute(order: seq<nat>, n: nat)
    requires |order| == n && (forall i :: 0 <= i < n ==> order[i] < n)
    requires forall i, j :: 0 <= i < j < n ==> order[i] != order[j]
    ensures Permutation(order, n)
  {
    DistinctCardinality(order);
    var positions: set<nat> := set p | p in Range(n);
    assert positions == Range(n);
    SubsetOfSameSize(Elements(order), positions);
    forall p: nat | p < n ensures p in order {
      assert p in positions;
    }
  }

  /** Sorting a complete delivery by index is a permutation of it. */
  lemma SortByIndex<D>(index: seq<Entry<D>>, batch: Batch<D>, events: seq<Event<D>>) returns (order: seq<nat>)
    requires batch.eventCount >= 0 && Covers(index, batch, events)
    ensures Permutation(order, |events|)
    ensures forall j :: 0 <= j < |events| ==> events[order[j]].index == j
  {
    var n := |events|;
    forall j | 0 <= j < n ensures Delivers(events, j) {
      assert j in DeliveredIndices(events);
    }
    order := seq(n, j requires 0 <= j < n && Delivers(events, j) => PositionOf(events, j));
    DistinctPositionsPermute(order, n);
  }

  /** A verified delivery is a permutation of the anchored batch: sorted by index, event j is
      the one the index names at j, and the tree over the delivered bodies has the anchored
      root. */
  lemma VerifiedIsTheBatch<D>(c: Suite<D>, index: seq<Entry<D>>, batch: Batch<D>, pinnedPolicy: D,
                              events: seq<Event<D>>)
    returns (order: seq<nat>)
    requires IsVerified(c, index, batch, pinnedPolicy, events)
    ensures |events| == batch.eventCount && Permutation(order, |events|)
    ensures forall j :: 0 <= j < |events| ==> index[j] == Identity(c, events[order[j]].body)
    ensures Root(c.tree, seq(|events|, j requires 0 <= j < |events| => c.leafHash(events[order[j]].body))) == batch.root
  {
    order := SortByIndex(index, batch, events);
    forall j | 0 <= j < |events| ensures index[j] == Identity(c, events[order[j]].body) {
      assert EventGood(c, index, batch, events[order[j]]);
    }
    SortedLeaves(c, index, events, order);
  }

  lemma SortedLeaves<D>(c: Suite<D>, index: seq<Entry<D>>, events: seq<Event<D>>, order: seq<nat>)
    requires |index| == |events| == |order| && forall j :: 0 <= j < |order| ==> order[j] < |events|
    requires forall j :: 0 <= j < |events| ==> index[j] == Identity(c, events[order[j]].body)
    ensures seq(|events|, j requires 0 <= j < |events| => c.leafHash(events[order[j]].body)) == Leaves(index)
  {
  }

  /** A delivery that repeats an index, or leaves one out, is never verified. */
  lemma VerifiedDeliversOnceEach<D>(c: Suite<D>, index: seq<Entry<D>>, batch: Batch<D>, pinnedPolicy: D,
                                    events: seq<Event<D>>)
    requires IsVerified(c, index, batch, pinnedPolicy, events)
    ensures forall i, j :: 0 <= i < j < |events| ==> events[i].index != events[j].index
    ensures forall k :: 0 <= k < batch.eventCount ==> Delivers(events, k)
  {
    var order := SortByIndex(index, batch, events);
    forall i: nat, j: nat | i < j < |events| ensures events[i].index != events[j].index {
      assert i in order && j in order;
    }
    forall k | 0 <= k < batch.eventCount ensures Delivers(events, k) {
      assert events[order[k]].index == k;
    }
  }

  /** The anchored root and count determine what a verified delivery contains: two verified
      deliveries carry the same body at every index, unless these two bodies have one leaf hash
      or a node of one tree collides with a node of the other. */
  lemma AnchorDeterminesDelivery<D>(c: Suite<D>, batch: Batch<D>, policy: D, policy': D,
                                    index: seq<Entry<D>>, events: seq<Event<D>>,
                                    index': seq<Entry<D>>, events': seq<Event<D>>, i: nat, i': nat)
    requires IsVerified(c, index, batch, policy, events) && IsVerified(c, index', batch, policy', events')
    requires i < |events| && i' < |events'| && events[i].index == events'[i'].index
    ensures var body, body' := events[i].body, events'[i'].body;
            || body == body' || (body != body' && c.leafHash(body) == c.leafHash(body'))
            || Collide(c.tree, Nodes(c.tree, Leaves(index)), Nodes(c.tree, Leaves(index')))
  {
    RootDeterminesLeaves(c.tree, Leaves(index), Leaves(index'));
    assert EventGood(c, index, batch, events[i]) && EventGood(c, index', batch, events'[i']);
    var k := events[i].index;
    assert Leaves(index)[k] == c.leafHash(events[i].body) && Leaves(index')[k] == c.leafHash(events'[i'].body);
  }

  // ----- the same in plain positions and ids

  lemma {:induction false} DistinctMeans<T>(s: seq<T>)
    ensures |Elements(s)| <= |s|
    ensures |Elements(s)| == |s| <==> forall i, j :: 0 <= i < j < |s| ==> s[i] != s[j]
  {
    if s != [] {
      var rest, last := s[..|s| - 1], s[|s| - 1];
      DistinctMeans(rest);
      assert Elements(s) == Elements(rest) + {last};
      if last in rest {
        var i :| 0 <= i < |rest| && rest[i] == last;
        assert s[i] == s[|s| - 1];
        assert Elements(s) == Elements(rest);
      }
    }
  }

  function DeliveredIdList<D>(events: seq<Event<D>>): seq<string> {
    seq(|events|, i requires 0 <= i < |events| => events[i].body.eventId)
  }

  function DeliveredIndexList<D>(events: seq<Event<D>>): seq<int> {
    seq(|events|, i requires 0 <= i < |events| => events[i].index)
  }

  lemma DeliveredAre<D>(events: seq<Event<D>>)
    ensures DeliveredIds(events) == Elements(DeliveredIdList(events))
    ensures DeliveredIndices(events) == Elements(DeliveredIndexList(events))
  {
    var ids, positions := DeliveredIdList(events), DeliveredIndexList(events);
    forall i | 0 <= i < |events| ensures ids[i] in DeliveredIds(events) && positions[i] in DeliveredIndices(events) {
      assert events[i] in events;
    }
    forall e | e in events ensures e.body.eventId in ids && e.index in positions {
      var i :| 0 <= i < |events| && events[i] == e;
      assert ids[i] == e.body.eventId && positions[i] == e.index;
    }
  }

  lemma SameElements<T>(a: seq<T>, b: seq<T>)
    ensures Elements(a) == Elements(b) <==> forall x :: x in a <==> x in b
  {
    if Elements(a) == Elements(b) {
      forall x ensures x in a <==> x in b {
        assert (x in a <==> x in Elements(a)) && (x in b <==> x in Elements(b));
      }
    }
  }

  /** n positions are all of those below n exactly when they lie there and differ. */
  lemma AllPositions(positions: seq<int>)
    ensures Elements(positions) == Range(|positions|) <==>
      && (forall i :: 0 <= i < |positions| ==> 0 <= positions[i] < |positions|)
      && (forall i, j :: 0 <= i < j < |positions| ==> positions[i] != positions[j])
  {
    DistinctMeans(positions);
    if forall i :: 0 <= i < |positions| ==> 0 <= positions[i] < |positions| {
      if |Elements(positions)| == |positions| { SubsetOfSameSize(Elements(positions), Range(|positions|)); }
    } else {
      var i :| 0 <= i < |positions| && !(0 <= positions[i] < |positions|);
      assert positions[i] in Elements(positions);
    }
  }

  /** A delivery covers the batch exactly when it has as many events, at different positions
      within the batch, with different ids, and the ids are those of the index. */
  lemma CoversWhen<D>(index: seq<Entry<D>>, batch: Batch<D>, events: seq<Event<D>>)
    ensures Covers(index, batch, events) <==>
      var ids, positions := DeliveredIdList(events), DeliveredIndexList(events);
      && |events| == batch.eventCount
      && (forall i :: 0 <= i < |positions| ==> 0 <= positions[i] < |positions|)
      && (forall i, j :: 0 <= i < j < |positions| ==> positions[i] != positions[j])
      && (forall i, j :: 0 <= i < j < |ids| ==> ids[i] != ids[j])
      && (forall id :: id in ids <==> id in seq(|index|, k requires 0 <= k < |index| => index[k].eventId))
  {
    DeliveredAre(events);
    DistinctMeans(DeliveredIdList(events));
    AllPositions(DeliveredIndexList(events));
    SameElements(DeliveredIdList(events), Ids(index));
    assert Ids(index) == seq(|index|, k requires 0 <= k < |index| => index[k].eventId);
  }

  /** The index is grounded exactly when its digest, its tree, its count, its ends and its policy
      are the anchored ones and no id comes twice. */
  lemma IndexGoodWhen<D>(c: Suite<D>, index: seq<Entry<D>>, batch: Batch<D>, pinnedPolicy: D)
    ensures IndexGood(c, index, batch, pinnedPolicy) <==>
      && c.indexDigest(index) == batch.indexDigest && |index| == batch.eventCount && batch.policyDigest == pinnedPolicy
      && Root(c.tree, seq(|index|, i requires 0 <= i < |index| => index[i].leaf)) == batch.root
      && (forall i, j :: 0 <= i < j < |index| ==> index[i].eventId != index[j].eventId)
      && (|index| == 0 ==> batch.firstId == None && batch.lastId == None)
      && (|index| > 0 ==> batch.firstId == Some(index[0].eventId) && batch.lastId == Some(index[|index| - 1].eventId))
  {
    DistinctMeans(Ids(index));
    assert Leaves(index) == seq(|index|, i requires 0 <= i < |index| => index[i].leaf);
    if forall i, j :: 0 <= i < j < |Ids(index)| ==> Ids(index)[i] != Ids(index)[j] {
      forall i, j | 0 <= i < j < |index| ensures index[i].eventId != index[j].eventId {
        assert Ids(index)[i] != Ids(index)[j];
      }
    }
  }

  /** An event passes exactly when it and its source are signed, it has its own hash, the index
      names it at its position, and its path leads from there to the anchored root. */
  lemma EventGoodWhen<D>(c: Suite<D>, index: seq<Entry<D>>, batch: Batch<D>, e: Event<D>)
    requires 0 <= batch.eventCount <= 10000 && 0 <= e.index <= 10000
    ensures EventGood(c, index, batch, e) <==>
      && e.signatureOk && e.sourceOk && e.eventHash == c.bodyDigest(e.body) && e.index < |index|
      && index[e.index] == Entry(e.body.eventId, e.body.sourceId, e.body.eventType, c.leafHash(e.body))
      && e.index < batch.eventCount && |e.path| == Depth(e.index, batch.eventCount)
      && Climb(c.tree, c.leafHash(e.body), e.index, batch.eventCount, e.path) == batch.root
  {
    VerifiersAgree(c.tree, c.leafHash(e.body), e.index, batch.eventCount, e.path, batch.root);
    LoopAcceptsExactly(c.tree, c.leafHash(e.body), e.index, batch.eventCount, e.path, batch.root);
  }

  /** Every list and every number of an input that is answered at all is at most ten thousand. */
  lemma BoundedWhen<D>(index: seq<Entry<D>>, batch: Batch<D>, events: seq<Event<D>>)
    ensures Bounded(index, batch, events) <==>
      && |index| <= 10000 && |events| <= 10000 && 0 <= batch.eventCount <= 10000
      && forall i :: 0 <= i < |events| ==> 0 <= events[i].index <= 10000
  {
  }
}
