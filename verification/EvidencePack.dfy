/** Verification of an evidence pack: one ordered batch of events in which attempts and
    outcomes pair up, under a Merkle root that three independent roles have signed. */
module EvidencePack {
  import opened Wrappers
  import opened MerkleTree

  datatype Kind = Attempt | Outcome
  datatype Scope = Scope(chain: string, policy: string, start: int, end: int, expectedAttempts: int)

  /** `authentic`: the payload hash matches and the producer's signature verifies. */
  datatype Event = Event(id: string, chain: string, policy: string, sequence: int, kind: Kind, at: int,
                         attemptId: string, keyId: string, authentic: bool)

  datatype RecordKind = ProducerManifest | ObserverReceipt | AnchorReceipt
  datatype Record<D> = Record(kind: RecordKind, keyId: string, root: D, commitment: string, eventCount: int,
                              issuedAt: int, signedBy: Option<string>)
  datatype Pack<D> = Pack(scope: Scope, scopeCommitment: string, events: seq<Event>, root: D,
                          manifest: Record<D>, observer: Record<D>, anchor: Record<D>)
  datatype Trust = Trust(scopeCommitment: string, producer: string, observer: string, anchor: string)

  /** The hashes in use: of tree nodes, of whole signed events and of scopes. */
  datatype Hashes<!D> = Hashes(tree: Hashing<D>, leaf: Event -> D, scope: Scope -> string)

  function Leaves<D>(h: Hashes<D>, events: seq<Event>): (s: seq<D>)
    ensures |s| == |events| && forall i :: 0 <= i < |s| ==> s[i] == h.leaf(events[i])
  {
    if events == [] then [] else Leaves(h, events[..|events| - 1]) + [h.leaf(events[|events| - 1])]
  }

  // ----- what an accepted pack promises

  predicate Sequenced(events: seq<Event>, scope: Scope) {
    && (forall i :: 0 <= i < |events| ==>
          && events[i].sequence == i + 1 && events[i].chain == scope.chain && events[i].policy == scope.policy
          && scope.start <= events[i].at <= scope.end)
    && (forall i, j :: 0 <= i < j < |events| ==> events[i].id != events[j].id && events[i].at <= events[j].at)
  }

  /** Two events about one attempt are the attempt and then its outcome. */
  predicate OnceEach(events: seq<Event>) {
    forall i, j :: 0 <= i < j < |events| && events[i].attemptId == events[j].attemptId ==>
      events[i].kind == Attempt && events[j].kind == Outcome
  }

  predicate Preceded(events: seq<Event>, j: int)
    requires 0 <= j < |events|
  {
    exists i :: 0 <= i < j && events[i].attemptId == events[j].attemptId && events[i].kind == Attempt
  }

  predicate Followed(events: seq<Event>, i: int)
    requires 0 <= i < |events|
  {
    exists j :: i < j < |events| && events[j].attemptId == events[i].attemptId && events[j].kind == Outcome
  }

  function AttemptIds(events: seq<Event>): set<string> {
    set i | 0 <= i < |events| :: events[i].attemptId
  }

  predicate Paired(events: seq<Event>, expected: int) {
    && OnceEach(events) && |AttemptIds(events)| == expected
    && (forall j :: 0 <= j < |events| && events[j].kind == Outcome ==> Preceded(events, j))
    && (forall i :: 0 <= i < |events| && events[i].kind == Attempt ==> Followed(events, i))
  }

  predicate RecordOk<D(==)>(r: Record<D>, kind: RecordKind, keyId: string, root: D, commitment: string, count: int,
                            end: int) {
    && r.kind == kind && r.keyId == keyId && r.root == root && r.commitment == commitment && r.eventCount == count
    && r.issuedAt >= end && r.signedBy == Some(keyId)
  }

  predicate ShapeOk<D>(p: Pack<D>, t: Trust) {
    && p.scope.start <= p.scope.end && 1 <= p.scope.expectedAttempts <= 64 && 2 <= |p.events| <= 128
    && t.producer != t.observer && t.producer != t.anchor && t.observer != t.anchor
  }

  /** The three roles stand behind this scope, this root and this number of events. */
  predicate Endorsed<D(==)>(h: Hashes<D>, p: Pack<D>, t: Trust) {
    && p.scopeCommitment == h.scope(p.scope) && p.scopeCommitment == t.scopeCommitment
    && p.root == Root(h.tree, Leaves(h, p.events))
    && RecordOk(p.manifest, ProducerManifest, t.producer, p.root, p.scopeCommitment, |p.events|, p.scope.end)
    && RecordOk(p.observer, ObserverReceipt, t.observer, p.root, p.scopeCommitment, |p.events|, p.scope.end)
    && RecordOk(p.anchor, AnchorReceipt, t.anchor, p.root, p.scopeCommitment, |p.events|, p.scope.end)
  }

  predicate ByProducer(events: seq<Event>, t: Trust) {
    forall i :: 0 <= i < |events| ==> events[i].keyId == t.producer && events[i].authentic
  }

  predicate Accepted<D(==)>(h: Hashes<D>, p: Pack<D>, t: Trust) {
    && ShapeOk(p, t) && Endorsed(h, p, t) && ByProducer(p.events, t) && Sequenced(p.events, p.scope)
    && Paired(p.events, p.scope.expectedAttempts)
  }

  // ----- verification

  /** One more event fits when its number, scope and window do, its id is new and its time is
      not before the last one. */
  predicate Continues(past: seq<Event>, e: Event, scope: Scope) {
    && e.sequence == |past| + 1 && e.chain == scope.chain && e.policy == scope.policy
    && scope.start <= e.at <= scope.end
    && !UsesId(past, e.id) && (past != [] ==> past[|past| - 1].at <= e.at)
  }

  predicate UsesId(events: seq<Event>, id: string) { exists k :: 0 <= k < |events| && events[k].id == id }

  lemma SequencedGrows(past: seq<Event>, e: Event, scope: Scope)
    requires Sequenced(past, scope)
    ensures Sequenced(past + [e], scope) <==> Continues(past, e, scope)
  {
    var all := past + [e];
    assert forall k :: 0 <= k < |past| ==> all[k] == past[k];
    assert all[|past|] == e;
    if Continues(past, e, scope) {
      forall i | 0 <= i < |past| ensures past[i].at <= e.at { assert past[i].at <= past[|past| - 1].at; }
    }
  }

  lemma SequencedPrefix(events: seq<Event>, scope: Scope, n: nat)
    requires n <= |events| && Sequenced(events, scope)
    ensures Sequenced(events[..n], scope)
  {
    assert forall k :: 0 <= k < n ==> events[..n][k] == events[k];
  }

  lemma UsesIdLonger(past: seq<Event>, e: Event)
    ensures forall id :: UsesId(past + [e], id) <==> UsesId(past, id) || e.id == id
  {
    var all := past + [e];
    assert all[|past|] == e;
    forall id ensures UsesId(all, id) <==> UsesId(past, id) || e.id == id {
      if UsesId(past, id) {
        var k :| 0 <= k < |past| && past[k].id == id;
        assert all[k] == past[k];
      }
    }
  }

  /** What the loop remembers of the events it has accepted. */
  ghost predicate Remembered(past: seq<Event>, scope: Scope, seen: set<string>, previous: int) {
    && (forall id :: id in seen <==> UsesId(past, id))
    && previous == (if past == [] then scope.start else past[|past| - 1].at)
  }

  lemma RememberedGrows(past: seq<Event>, e: Event, scope: Scope, seen: set<string>, previous: int)
    requires Remembered(past, scope, seen, previous)
    ensures Remembered(past + [e], scope, seen + {e.id}, e.at)
  {
    UsesIdLonger(past, e);
  }

  method CheckNext(ghost past: seq<Event>, e: Event, sequence: int, scope: Scope, seen: set<string>, previous: int)
    returns (ok: bool)
    requires sequence == |past| + 1 && Remembered(past, scope, seen, previous)
    ensures ok <==> Continues(past, e, scope)
  {
    ok := && e.sequence == sequence && e.id !in seen && e.chain == scope.chain && e.policy == scope.policy
          && scope.start <= e.at <= scope.end && e.at >= previous;
  }

  method CheckSequence(events: seq<Event>, scope: Scope) returns (ok: bool)
    ensures ok <==> Sequenced(events, scope)
  {
    var seen: set<string>, previous := {}, scope.start;
    for i := 0 to |events|
      invariant Sequenced(events[..i], scope) && Remembered(events[..i], scope, seen, previous)
    {
      var e := events[i];
      ghost var past := events[..i];
      assert events[..i + 1] == past + [e];
      SequencedGrows(past, e, scope);
      RememberedGrows(past, e, scope, seen, previous);
      var fits := CheckNext(past, e, i + 1, scope, seen, previous);
      if !fits {
        if Sequenced(events, scope) { SequencedPrefix(events, scope, i + 1); }
        return false;
      }
      seen, previous := seen + {e.id}, e.at;
    }
    assert events[..|events|] == events;
    return true;
  }

  /** The sequence numbers filed for one attempt id. */
  datatype Pair = Pair(attempt: Option<int>, outcome: Option<int>)

  predicate Filed(events: seq<Event>, id: string, kind: Kind) {
    exists k :: 0 <= k < |events| && events[k].attemptId == id && events[k].kind == kind
  }

  ghost predicate FiledPairs(pairs: map<string, Pair>, events: seq<Event>) {
    forall id :: (id in pairs <==> Filed(events, id, Attempt) || Filed(events, id, Outcome))
                 && (id in pairs ==> (pairs[id].attempt.Some? <==> Filed(events, id, Attempt))
                                     && (pairs[id].outcome.Some? <==> Filed(events, id, Outcome)))
  }

  lemma FiledLonger(past: seq<Event>, e: Event)
    ensures forall id, kind :: Filed(past + [e], id, kind) <==>
      Filed(past, id, kind) || (e.attemptId == id && e.kind == kind)
  {
    var all := past + [e];
    assert all[|past|] == e;
    forall id, kind ensures Filed(all, id, kind) <==> Filed(past, id, kind) || (e.attemptId == id && e.kind == kind) {
      if Filed(past, id, kind) {
        var k :| 0 <= k < |past| && past[k].attemptId == id && past[k].kind == kind;
        assert all[k] == past[k];
      }
    }
  }

  /** What has been established about a prefix while its outcomes are still coming in. */
  predicate Orderly(events: seq<Event>) {
    OnceEach(events) && forall j :: 0 <= j < |events| && events[j].kind == Outcome ==> Preceded(events, j)
  }

  /** One more event keeps a prefix orderly exactly when its kind is new for its attempt, and
      an outcome finds its attempt already filed. */
  lemma OrderlyLonger(past: seq<Event>, e: Event)
    requires Orderly(past)
    ensures Orderly(past + [e]) <==>
      !Filed(past, e.attemptId, e.kind) && (e.kind == Outcome ==> Filed(past, e.attemptId, Attempt))
                                     && (e.kind == Attempt ==> !Filed(past, e.attemptId, Outcome))
    ensures !Filed(past, e.attemptId, Attempt) ==> !Filed(past, e.attemptId, Outcome)
  {
    var all := past + [e];
    assert forall k :: 0 <= k < |past| ==> all[k] == past[k];
    assert all[|past|] == e;
    if Filed(past, e.attemptId, Outcome) {
      var k :| 0 <= k < |past| && past[k].attemptId == e.attemptId && past[k].kind == Outcome;
      assert Preceded(past, k);
    }
    forall j | 0 <= j < |past| ensures Preceded(all, j) <==> Preceded(past, j) { }
    assert Preceded(all, |past|) <==> Filed(past, e.attemptId, Attempt);
  }

  lemma OrderlyPrefix(events: seq<Event>, n: nat)
    requires n <= |events| && Orderly(events)
    ensures Orderly(events[..n])
  {
  }

  /** What the pairs filed so far tell about one more event. */
  lemma PairTells(pairs: map<string, Pair>, past: seq<Event>, e: Event)
    requires FiledPairs(pairs, past) && Orderly(past)
    ensures FiledPairs(File(pairs, e), past + [e])
    ensures Orderly(past + [e]) <==> Fits(PairOf(pairs, e.attemptId), e.kind)
  {
    OrderlyLonger(past, e);
    FiledGrows(pairs, past, e);
  }

  lemma FiledGrows(pairs: map<string, Pair>, past: seq<Event>, e: Event)
    requires FiledPairs(pairs, past)
    ensures FiledPairs(File(pairs, e), past + [e])
  {
    FiledLonger(past, e);
  }

  /** The halves of an attempt come once each, its outcome after it. */
  predicate Fits(pair: Pair, kind: Kind) {
    if kind == Attempt then pair.attempt.None? else pair.outcome.None? && pair.attempt.Some?
  }

  function PairOf(pairs: map<string, Pair>, id: string): Pair {
    if id in pairs then pairs[id] else Pair(None, None)
  }

  function File(pairs: map<string, Pair>, e: Event): map<string, Pair> {
    var pair := PairOf(pairs, e.attemptId);
    pairs[e.attemptId := if e.kind == Attempt then pair.(attempt := Some(e.sequence))
                         else pair.(outcome := Some(e.sequence))]
  }

  /** File every event with its pair; None: an event that does not fit. */
  method PairUp(events: seq<Event>) returns (r: Option<map<string, Pair>>)
    ensures r.Some? <==> Orderly(events)
    ensures r.Some? ==> FiledPairs(r.value, events)
  {
    var pairs: map<string, Pair> := map[];
    for i := 0 to |events|
      invariant FiledPairs(pairs, events[..i]) && Orderly(events[..i])
    {
      var e := events[i];
      assert events[..i + 1] == events[..i] + [e];
      PairTells(pairs, events[..i], e);
      var pair := PairOf(pairs, e.attemptId);
      if (if e.kind == Attempt then pair.attempt.Some? else pair.outcome.Some? || pair.attempt.None?) {
        if Orderly(events) { OrderlyPrefix(events, i + 1); }
        return None;
      }
      pairs := File(pairs, e);
    }
    assert events[..|events|] == events;
    return Some(pairs);
  }

  method CheckPairs(events: seq<Event>, expected: int) returns (ok: bool)
    ensures ok <==> Paired(events, expected)
  {
    var paired := PairUp(events);
    if paired.None? { return false; }
    var pairs := paired.value;
    AllFollowed(events, pairs);
    PairsAreIds(events, pairs);
    return |pairs| == expected && forall id :: id in pairs ==> pairs[id].attempt.Some? && pairs[id].outcome.Some?;
  }

  lemma PairsAreIds(events: seq<Event>, pairs: map<string, Pair>)
    requires FiledPairs(pairs, events)
    ensures |pairs| == |AttemptIds(events)|
  {
    forall id ensures id in pairs.Keys <==> id in AttemptIds(events) {
      if id in AttemptIds(events) {
        var k :| 0 <= k < |events| && events[k].attemptId == id;
        assert Filed(events, id, events[k].kind);
      }
    }
    assert pairs.Keys == AttemptIds(events);
  }

  /** Every attempt has a later outcome exactly when both halves of each pair are filed. */
  lemma AllFollowed(events: seq<Event>, pairs: map<string, Pair>)
    requires FiledPairs(pairs, events) && Orderly(events)
    ensures (forall id :: id in pairs ==> pairs[id].attempt.Some? && pairs[id].outcome.Some?) <==>
            (forall i :: 0 <= i < |events| && events[i].kind == Attempt ==> Followed(events, i))
  {
    if forall id :: id in pairs ==> pairs[id].attempt.Some? && pairs[id].outcome.Some? {
      forall i | 0 <= i < |events| && events[i].kind == Attempt ensures Followed(events, i) {
        assert Filed(events, events[i].attemptId, Attempt);
        var j :| 0 <= j < |events| && events[j].attemptId == events[i].attemptId && events[j].kind == Outcome;
      }
    }
    if forall i :: 0 <= i < |events| && events[i].kind == Attempt ==> Followed(events, i) {
      forall id | id in pairs ensures Filed(events, id, Attempt) && Filed(events, id, Outcome) {
        if Filed(events, id, Outcome) {
          var j :| 0 <= j < |events| && events[j].attemptId == id && events[j].kind == Outcome;
          assert Preceded(events, j);
        }
        var i :| 0 <= i < |events| && events[i].attemptId == id && events[i].kind == Attempt;
        assert Followed(events, i);
      }
    }
  }

  method VerifyPack<D(==)>(h: Hashes<D>, p: Pack<D>, t: Trust) returns (ok: bool)
    ensures ok <==> Accepted(h, p, t)
  {
    if !ShapeOk(p, t) || p.scopeCommitment != h.scope(p.scope) || p.scopeCommitment != t.scopeCommitment {
      return false;
    }
    for i := 0 to |p.events|
      invariant forall k :: 0 <= k < i ==> p.events[k].keyId == t.producer && p.events[k].authentic
    {
      if p.events[i].keyId != t.producer || !p.events[i].authentic { return false; }
    }
    var sequenced := CheckSequence(p.events, p.scope);
    if !sequenced || p.root != Root(h.tree, Leaves(h, p.events)) { return false; }
    if !RecordOk(p.manifest, ProducerManifest, t.producer, p.root, p.scopeCommitment, |p.events|, p.scope.end)
       || !RecordOk(p.observer, ObserverReceipt, t.observer, p.root, p.scopeCommitment, |p.events|, p.scope.end)
       || !RecordOk(p.anchor, AnchorReceipt, t.anchor, p.root, p.scopeCommitment, |p.events|, p.scope.end) {
      return false;
    }
    ok := CheckPairs(p.events, p.scope.expectedAttempts);
  }

  // ----- what acceptance means

  function Positions(events: seq<Event>, kind: Kind): set<int> {
    set i | 0 <= i < |events| && events[i].kind == kind
  }

  lemma SomeElement<T>(s: set<T>) returns (x: T)
    requires |s| > 0
    ensures x in s
  {
    x :| x in s;
  }

  lemma {:induction false} AsManyAsIds(events: seq<Event>, positions: set<int>)
    requires forall i :: i in positions ==> 0 <= i < |events|
    requires forall i, j :: i in positions && j in positions && i != j ==> events[i].attemptId != events[j].attemptId
    ensures |set i | i in positions :: events[i].attemptId| == |positions|
    decreases positions
  {
    if |positions| > 0 {
      var p := SomeElement(positions);
      var rest := positions - {p};
      AsManyAsIds(events, rest);
      var ids, restIds := (set i | i in positions :: events[i].attemptId), (set i | i in rest :: events[i].attemptId);
      assert ids == restIds + {events[p].attemptId};
    }
  }

  lemma PositionsCover(n: nat, a: set<int>, b: set<int>)
    requires a !! b && forall i :: 0 <= i < n <==> i in a || i in b
    ensures |a| + |b| == n
  {
    assert |a + b| == |a| + |b|;
    IntervalSize(a + b, n);
  }

  lemma {:induction false} IntervalSize(s: set<int>, n: nat)
    requires forall i :: 0 <= i < n <==> i in s
    ensures |s| == n
  {
    if n > 0 {
      IntervalSize(s - {n - 1}, n - 1);
    } else if |s| > 0 {
      var i := SomeElement(s);
    }
  }

  /** Each kind of event names every attempt exactly once. */
  lemma KindCount(events: seq<Event>, expected: int, kind: Kind)
    requires Paired(events, expected)
    ensures |Positions(events, kind)| == expected
  {
    var positions := Positions(events, kind);
    var ids := set i | i in positions :: events[i].attemptId;
    AsManyAsIds(events, positions);
    forall id | id in AttemptIds(events) ensures id in ids {
      var k :| 0 <= k < |events| && events[k].attemptId == id;
      var i := PositionOfKind(events, expected, k, kind);
      assert i in positions;
    }
    assert ids == AttemptIds(events);
  }

  /** Each event has one of either kind about its own attempt. */
  lemma PositionOfKind(events: seq<Event>, expected: int, k: int, kind: Kind) returns (i: int)
    requires Paired(events, expected) && 0 <= k < |events|
    ensures 0 <= i < |events| && events[i].kind == kind && events[i].attemptId == events[k].attemptId
  {
    if events[k].kind == kind {
      i := k;
    } else if kind == Attempt {
      assert Preceded(events, k);
      i :| 0 <= i < k && events[i].attemptId == events[k].attemptId && events[i].kind == Attempt;
    } else {
      assert Followed(events, k);
      i :| k < i < |events| && events[i].attemptId == events[k].attemptId && events[i].kind == Outcome;
    }
  }

  lemma HasPartner(events: seq<Event>, expected: int, i: int)
    requires Paired(events, expected) && 0 <= i < |events|
    ensures exists j :: Partners(events, i, j)
  {
    if events[i].kind == Outcome {
      assert Preceded(events, i);
      var j :| 0 <= j < i && events[j].attemptId == events[i].attemptId && events[j].kind == Attempt;
      assert Partners(events, i, j);
    } else {
      assert Followed(events, i);
      var j :| i < j < |events| && events[j].attemptId == events[i].attemptId && events[j].kind == Outcome;
      assert Partners(events, i, j);
    }
  }

  lemma TwoEventsPerAttempt(events: seq<Event>, expected: int)
    requires Paired(events, expected)
    ensures |events| == 2 * expected
  {
    KindCount(events, expected, Attempt);
    KindCount(events, expected, Outcome);
    PositionsCover(|events|, Positions(events, Attempt), Positions(events, Outcome));
  }

  /** An accepted pack has exactly two events per expected attempt, and its events come in
      pairs: `partner` is an involution that joins each attempt to its own later outcome. */
  lemma AcceptedIsBijection(events: seq<Event>, expected: int) returns (partner: seq<int>)
    requires Paired(events, expected)
    ensures |events| == 2 * expected && |partner| == |events|
    ensures forall i :: 0 <= i < |events| ==> Partners(events, i, partner[i]) && partner[partner[i]] == i
  {
    TwoEventsPerAttempt(events, expected);
    partner := [];
    for i := 0 to |events|
      invariant |partner| == i && forall k :: 0 <= k < i ==> Partners(events, k, partner[k])
    {
      HasPartner(events, expected, i);
      var j :| Partners(events, i, j);
      partner := partner + [j];
    }
    forall i | 0 <= i < |events| ensures partner[partner[i]] == i {
      OnePartner(events, i, partner[i], partner[partner[i]]);
    }
  }

  predicate Partners(events: seq<Event>, i: int, j: int) {
    && 0 <= i < |events| && 0 <= j < |events| && events[i].attemptId == events[j].attemptId
    && events[i].kind != events[j].kind
    && (events[i].kind == Attempt ==> i < j)
  }

  lemma OnePartner(events: seq<Event>, i: int, j: int, k: int)
    requires OnceEach(events) && Partners(events, i, j) && Partners(events, j, k)
    ensures k == i
  {
  }

  /** Two different events at one place of both lists have one leaf hash, or a node of one tree
      collides with a node of the other. */
  ghost predicate ListsCollide<D>(h: Hashes<D>, a: seq<Event>, b: seq<Event>) {
    || (exists i :: 0 <= i < |a| && i < |b| && a[i] != b[i] && h.leaf(a[i]) == h.leaf(b[i]))
    || Collide(h.tree, Nodes(h.tree, Leaves(h, a)), Nodes(h.tree, Leaves(h, b)))
  }

  /** What the observer and the anchor signed fixes the events: two accepted packs whose anchor
      receipts name one root and one count hold the same events, or the two lists collide. */
  lemma AnchorFixesEvents<D>(h: Hashes<D>, p: Pack<D>, q: Pack<D>, t: Trust, u: Trust)
    requires Accepted(h, p, t) && Accepted(h, q, u)
    requires p.anchor.root == q.anchor.root && p.anchor.eventCount == q.anchor.eventCount
    ensures p.events == q.events || ListsCollide(h, p.events, q.events)
  {
    SameRootSameEvents(h, p.events, q.events);
  }

  lemma SameRootSameEvents<D>(h: Hashes<D>, a: seq<Event>, b: seq<Event>)
    requires |a| == |b| && Root(h.tree, Leaves(h, a)) == Root(h.tree, Leaves(h, b))
    ensures a == b || ListsCollide(h, a, b)
  {
    RootDeterminesLeaves(h.tree, Leaves(h, a), Leaves(h, b));
    if Leaves(h, a) == Leaves(h, b) && a != b {
      var i :| 0 <= i < |a| && a[i] != b[i];
      assert h.leaf(a[i]) == Leaves(h, a)[i] == Leaves(h, b)[i] == h.leaf(b[i]);
    }
  }

  // ----- the same in plain events and records

  /** j is the one other event about i's attempt: the outcome after the attempt, or the reverse. */
  predicate OnlyPartner(events: seq<Event>, i: int, j: int) {
    Partners(events, i, j) &&
    forall k :: 0 <= k < |events| && events[k].attemptId == events[i].attemptId ==> k == i || k == j
  }

  ghost predicate HasOnlyPartner(events: seq<Event>, i: int) { exists j :: OnlyPartner(events, i, j) }

  ghost predicate AllPartnered(events: seq<Event>) {
    forall i :: 0 <= i < |events| ==> HasOnlyPartner(events, i)
  }

  /** Events pair up exactly when there are two for each expected attempt and every one has just
      one partner. */
  lemma PairedWhen(events: seq<Event>, expected: int)
    ensures Paired(events, expected) <==> |events| == 2 * expected && AllPartnered(events)
  {
    if Paired(events, expected) {
      TwoEventsPerAttempt(events, expected);
      forall i | 0 <= i < |events| ensures HasOnlyPartner(events, i) {
        HasPartner(events, expected, i);
        var j :| Partners(events, i, j);
        assert OnlyPartner(events, i, j);
      }
    }
    if AllPartnered(events) {
      PartnersPair(events);
      TwoEventsPerAttempt(events, |AttemptIds(events)|);
    }
  }

  lemma PartnersPair(events: seq<Event>)
    requires AllPartnered(events)
    ensures Paired(events, |AttemptIds(events)|)
  {
    forall i, j | 0 <= i < j < |events| && events[i].attemptId == events[j].attemptId
      ensures events[i].kind == Attempt && events[j].kind == Outcome
    {
      assert HasOnlyPartner(events, i) && HasOnlyPartner(events, j);
      var k, l :| OnlyPartner(events, i, k) && OnlyPartner(events, j, l);
    }
    forall i | 0 <= i < |events|
      ensures if events[i].kind == Outcome then Preceded(events, i) else Followed(events, i)
    {
      assert HasOnlyPartner(events, i);
      var j :| OnlyPartner(events, i, j);
    }
  }

  /** What a pack says of one of its events. */
  predicate Numbered<D>(p: Pack<D>, t: Trust, i: int)
    requires 0 <= i < |p.events|
  {
    var e := p.events[i];
    && e.authentic && e.keyId == t.producer && e.sequence == i + 1
    && e.chain == p.scope.chain && e.policy == p.scope.policy && p.scope.start <= e.at && e.at <= p.scope.end
  }

  ghost predicate InOrder<D>(p: Pack<D>, t: Trust) {
    && (forall i :: 0 <= i < |p.events| ==> Numbered(p, t, i))
    && (forall i, j :: 0 <= i < j < |p.events| ==>
          p.events[i].id != p.events[j].id && p.events[i].at <= p.events[j].at)
  }

  /** The producer's events are in sequence exactly when each is signed, numbered by its place and
      within the scope, no id comes twice and time never runs back. */
  lemma EventsWhen<D>(p: Pack<D>, t: Trust)
    ensures ByProducer(p.events, t) && Sequenced(p.events, p.scope) <==> InOrder(p, t)
  {
    if InOrder(p, t) {
      forall i | 0 <= i < |p.events| ensures p.events[i].keyId == t.producer && p.events[i].authentic {
        assert Numbered(p, t, i);
      }
      forall i | 0 <= i < |p.events|
        ensures p.events[i].sequence == i + 1 && p.events[i].chain == p.scope.chain
                && p.events[i].policy == p.scope.policy && p.scope.start <= p.events[i].at <= p.scope.end
      {
        assert Numbered(p, t, i);
      }
    }
  }

  /** A pack is endorsed exactly when three different keys signed its root, its count and its
      scope, none before the end of it. */
  lemma EndorsedWhen<D>(h: Hashes<D>, p: Pack<D>, t: Trust)
    ensures ShapeOk(p, t) && Endorsed(h, p, t) <==>
      && t.producer != t.observer && t.producer != t.anchor && t.observer != t.anchor
      && p.scope.start <= p.scope.end && 1 <= p.scope.expectedAttempts <= 64 && 2 <= |p.events| <= 128
      && p.scopeCommitment == t.scopeCommitment && h.scope(p.scope) == t.scopeCommitment
      && p.root == Root(h.tree, Leaves(h, p.events))
      && p.manifest == Record(ProducerManifest, t.producer, p.root, t.scopeCommitment, |p.events|, p.manifest.issuedAt,
                              Some(t.producer))
      && p.observer == Record(ObserverReceipt, t.observer, p.root, t.scopeCommitment, |p.events|, p.observer.issuedAt,
                              Some(t.observer))
      && p.anchor == Record(AnchorReceipt, t.anchor, p.root, t.scopeCommitment, |p.events|, p.anchor.issuedAt,
                            Some(t.anchor))
      && p.scope.end <= p.manifest.issuedAt && p.scope.end <= p.observer.issuedAt && p.scope.end <= p.anchor.issuedAt
  {
  }

  /** An accepted pack is endorsed, and its events are the producer's, in order and in pairs; and
      whatever is all this is accepted. */
  lemma AcceptedWhen<D>(h: Hashes<D>, p: Pack<D>, t: Trust)
    ensures Accepted(h, p, t) <==>
      && ShapeOk(p, t) && Endorsed(h, p, t) && InOrder(p, t) && |p.events| == 2 * p.scope.expectedAttempts
      && AllPartnered(p.events)
  {
    EventsWhen(p, t);
    PairedWhen(p.events, p.scope.expectedAttempts);
  }
}
