/** Every action of the payment protocol keeps the protocol's invariant. */
module PaymentSteps {
  import opened Wrappers
  import opened Admission
  import opened PaymentModel
  import opened PaymentInvariants
  import opened PaymentProtocol

  /** Nothing is ever taken back: rows, proofs and history only grow, and a stored receipt
      stays. */
  ghost predicate Extends(w: World, w': World) {
    && |w.journal.dispatches| <= |w'.journal.dispatches|
    && (forall i :: 0 <= i < |w.journal.dispatches| ==>
          && w'.journal.dispatches[i].request == w.journal.dispatches[i].request
          && (w.journal.dispatches[i].state != Claimed ==> w'.journal.dispatches[i] == w.journal.dispatches[i]))
    && (forall r :: r in w.journal.proofs ==> r in w'.journal.proofs && w'.journal.proofs[r] == w.journal.proofs[r])
    && w.ledger.payments <= w'.ledger.payments
    && w.log <= w'.log
    && NotAfter(w.journal.generation, w'.journal.generation) && NotAfter(w.ledger.generation, w'.ledger.generation)
  }

  lemma ExtendsTransitive(a: World, b: World, d: World)
    requires Extends(a, b) && Extends(b, d)
    ensures Extends(a, d)
  {
    assert a.log == b.log[..|a.log|] == d.log[..|a.log|];
    assert a.ledger.payments == b.ledger.payments[..|a.ledger.payments|] == d.ledger.payments[..|a.ledger.payments|];
  }

  lemma ExtendsKeepsFacts(w: World, w': World)
    requires Extends(w, w')
    ensures forall r :: Claims(w, r) ==> Claims(w', r)
    ensures forall r, receipt :: Issued(w.ledger, r, receipt) ==> Issued(w'.ledger, r, receipt)
    ensures forall e :: e in w.log ==> e in w'.log
  {
    forall r | Claims(w, r) ensures Claims(w', r) {
      var i :| 0 <= i < |w.journal.dispatches| && DispatchRequests(w.journal.dispatches)[i] == r;
      assert DispatchRequests(w'.journal.dispatches)[i] == r;
    }
    forall r, receipt | Issued(w.ledger, r, receipt) ensures Issued(w'.ledger, r, receipt) {
      var payments := w.ledger.payments;
      var i :| 0 <= i < |payments| && payments[i].request == r && payments[i].receipt == receipt;
      assert w'.ledger.payments[i] == w.ledger.payments[i];
    }
  }

  // ----- moving a worker

  lemma GotoKeeps(c: Config, w: World, id: nat, pc: Pc)
    requires Inv(c, w) && PcOk(c, w, pc)
    requires forall other, r :: other in w.workers && other != id && Owns(pc, r) ==> !Owns(w.workers[other].pc, r)
    ensures Inv(c, Goto(w, id, pc))
  {
    var w' := Goto(w, id, pc);
    forall r ensures RequestOk(c, w', r) { assert RequestOk(c, w, r); }
    forall p ensures PackageOk(c, w', p) { assert PackageOk(c, w, p); }
  }

  /** The new program counter owns nothing the old one did not. */
  lemma GotoQuietly(c: Config, w: World, id: nat, pc: Pc)
    requires Inv(c, w) && PcOk(c, w, pc)
    requires forall r :: Owns(pc, r) ==> Owns(PcOf(w, id), r)
    ensures Inv(c, Goto(w, id, pc))
  {
    if id in w.workers { GotoKeeps(c, w, id, pc); }
  }

  lemma WorkerSetKeeps(c: Config, w: World, w': World)
    requires Inv(c, w) && w' == w.(workers := w'.workers)
    requires forall id :: id in w'.workers ==>
      w'.workers[id].pc == Idle || (id in w.workers && w'.workers[id].pc == w.workers[id].pc)
    requires GatesOk(c, w')
    ensures Inv(c, w')
  {
    forall r ensures RequestOk(c, w', r) { assert RequestOk(c, w, r); }
    forall p ensures PackageOk(c, w', p) { assert PackageOk(c, w, p); }
  }

  // ----- generations

  function Refenced(w: World, g: Generation, l: Generation, custodyEpoch: nat, epoch: nat): World {
    w.(journal := w.journal.(generation := g, custodyEpoch := custodyEpoch),
       ledger := w.ledger.(generation := l), collection := w.collection.(epoch := epoch))
  }

  lemma GenerationsKeep(c: Config, w: World, g: Generation, l: Generation, custodyEpoch: nat, epoch: nat)
    requires Inv(c, w)
    requires Reopen(w.journal.generation, g).Some? && Reopen(w.ledger.generation, l).Some?
    ensures Inv(c, Refenced(w, g, l, custodyEpoch, epoch))
  {
    var w' := Refenced(w, g, l, custodyEpoch, epoch);
    FencedReopen(DispatchRequests(w.journal.dispatches), w.journal.generation, g);
    FencedReopen(PaymentRequests(w.ledger.payments), w.ledger.generation, l);
    assert JournalOk(c, w'.journal) by {
      forall i | 0 <= i < |w.journal.dispatches| && c.wrapper != Native
        ensures ProvenClaim(w'.journal, w'.journal.dispatches[i])
      {
        assert ProvenClaim(w.journal, w.journal.dispatches[i]);
      }
    }
    forall r, receipt ensures Issued(w'.ledger, r, receipt) <==> Issued(w.ledger, r, receipt) {}
    forall id | id in w.workers ensures PcOk(c, w', w.workers[id].pc) { assert PcOk(c, w, w.workers[id].pc); }
    forall r ensures RequestOk(c, w', r) { assert RequestOk(c, w, r); assert HasEffect(w', r) <==> HasEffect(w, r); }
    forall p ensures PackageOk(c, w', p) { assert PackageOk(c, w, p); }
  }

  // ----- growing the history by one event

  /** What r's facts say besides the history is the same in both worlds. */
  ghost predicate SameFor(w: World, w': World, r: Request) {
    && (Claims(w', r) <==> Claims(w, r)) && (HasEffect(w', r) <==> HasEffect(w, r))
    && (r in PaymentRequests(w'.ledger.payments) ==> r in PaymentRequests(w.ledger.payments))
    && (r in w'.journal.markers <==> r in w.journal.markers)
    && (r in w.journal.markers ==> w'.journal.markers[r] == w.journal.markers[r] && r in w'.journal.proofs
                                   && (r in w.journal.proofs ==> w'.journal.proofs[r] == w.journal.proofs[r]))
  }

  /** The event is one of those that r's facts speak of. */
  predicate Touches(e: Event, r: Request) {
    e == ClaimCommitted(r) || e == PaymentPosted(r) || e == EffectCommitted(r) || e == MarkerCommitted(r)
  }

  lemma OnceGrows(log: seq<Event>, e: Event, x: Event)
    requires AtMostOnce(log, x) && e != x
    ensures AtMostOnce(log + [e], x)
  {
  }

  lemma RequestGrows(c: Config, w: World, w': World, e: Event, r: Request)
    requires RequestOk(c, w, r) && w'.log == w.log + [e] && !Touches(e, r) && SameFor(w, w', r)
    ensures RequestOk(c, w', r)
  {
    OnceGrows(w.log, e, PaymentPosted(r));
    OnceGrows(w.log, e, EffectCommitted(r));
    PrecedesGrows(w.log, e, ClaimCommitted(r), PaymentPosted(r));
    PrecedesGrows(w.log, e, PaymentPosted(r), EffectCommitted(r));
    if c.wrapper == Collected { PrecedesGrows(w.log, e, MarkerCommitted(r), PaymentPosted(r)); }
    if r in w.journal.markers {
      PrecedesGrows(w.log, e, PackageCollected(w.journal.markers[r].package), MarkerCommitted(r));
    }
  }

  ghost predicate OthersAlike(w: World, w': World, e: Event, r: Request) {
    forall q :: q != r ==> !Touches(e, q) && SameFor(w, w', q)
  }

  /** An event about one request leaves the facts about every other request true. */
  lemma RequestsGrow(c: Config, w: World, w': World, e: Event, r: Request)
    requires RequestsOk(c, w)
    requires w'.log == w.log + [e] && RequestOk(c, w', r)
    requires OthersAlike(w, w', e, r)
    ensures RequestsOk(c, w')
  {
    forall q ensures RequestOk(c, w', q) {
      assert RequestOk(c, w, q);
      if q != r { RequestGrows(c, w, w', e, q); }
    }
  }

  lemma PackageGrows(c: Config, w: World, w': World, e: Event, p: Package)
    requires PackageOk(c, w, p) && w'.log == w.log + [e] && e != PackageSent(p) && e != PackageCollected(p)
    requires w'.collection == w.collection
    requires Claims(w, p.request) ==> Claims(w', p.request)
    ensures PackageOk(c, w', p)
  {
    PrecedesGrows(w.log, e, ClaimCommitted(p.request), PackageCollected(p));
  }

  /** An event about no package leaves the facts about packages true. */
  lemma PackagesGrow(c: Config, w: World, w': World, e: Event)
    requires PackagesOk(c, w)
    requires w'.log == w.log + [e] && !e.PackageSent? && !e.PackageCollected? && w'.collection == w.collection
    requires forall r :: Claims(w, r) ==> Claims(w', r)
    ensures PackagesOk(c, w')
  {
    forall p ensures PackageOk(c, w', p) {
      assert PackageOk(c, w, p);
      PackageGrows(c, w, w', e, p);
    }
  }

  lemma WorkersGrow(c: Config, w: World, w': World)
    requires WorkersOk(c, w) && Extends(w, w') && w'.workers == w.workers
    requires forall id, r :: id in w.workers && Owns(w.workers[id].pc, r) && PaymentPosted(r) in w'.log ==>
      PaymentPosted(r) in w.log
    ensures WorkersOk(c, w')
  {
    ExtendsKeepsFacts(w, w');
    forall id | id in w.workers ensures PcOk(c, w', w'.workers[id].pc) { assert PcOk(c, w, w.workers[id].pc); }
  }

  // ----- claims

  /** The world in which the claim of r has committed. */
  function Claimed'(c: Config, w: World, r: Request, process: Generation, gate: Gate, offer: Offer, now: nat): World {
    w.(journal := Claim(c, w.journal, r, process, gate, offer, now, true).0, log := w.log + [ClaimCommitted(r)])
  }

  lemma ClaimExtends(c: Config, w: World, r: Request, process: Generation, gate: Gate, offer: Offer, now: nat)
    requires Inv(c, w) && Claim(c, w.journal, r, process, gate, offer, now, true).1 == Created
    requires c.wrapper != Native ==> Configured(gate)
    ensures var w' := Claimed'(c, w, r, process, gate, offer, now);
            && Extends(w, w') && JournalOk(c, w'.journal) && Linked(w') && !Claims(w, r) && r !in w.journal.proofs
            && DispatchRequests(w'.journal.dispatches) == DispatchRequests(w.journal.dispatches) + [r]
            && w'.journal.markers == w.journal.markers
  {
    ClaimKeeps(c, w.journal, r, process, gate, offer, now, true);
    ClaimIsNew(c, w.journal, r, process, gate, offer, now);
    ClaimAppends(c, w.journal, r, process, gate, offer, now);
    UnresolvedExtends(w, Claimed'(c, w, r, process, gate, offer, now), r, now);
  }

  lemma ClaimIsNew(c: Config, j: Journal, r: Request, process: Generation, gate: Gate, offer: Offer, now: nat)
    requires JournalOk(c, j) && Claim(c, j, r, process, gate, offer, now, true).1 == Created
    ensures r !in DispatchRequests(j.dispatches) && r !in j.proofs
  {
    FindIsExact(DispatchRequests(j.dispatches), r);
  }

  /** A committed claim appends one unresolved row and, behind the gate, adds one proof. */
  lemma ClaimAppends(c: Config, j: Journal, r: Request, process: Generation, gate: Gate, offer: Offer, now: nat)
    requires Claim(c, j, r, process, gate, offer, now, true).1 == Created
    ensures var j' := Claim(c, j, r, process, gate, offer, now, true).0;
            && j'.dispatches == j.dispatches + [Dispatch(r, Claimed, None, now)] && j'.generation == j.generation
            && DispatchRequests(j'.dispatches) == DispatchRequests(j.dispatches) + [r] && j'.markers == j.markers
            && (forall q :: q in j.proofs && q != r ==> q in j'.proofs && j'.proofs[q] == j.proofs[q])
  {
  }

  lemma UnresolvedExtends(w: World, w': World, r: Request, now: nat)
    requires Linked(w) && w'.ledger == w.ledger && w.log <= w'.log && w'.journal.generation == w.journal.generation
    requires w'.journal.dispatches == w.journal.dispatches + [Dispatch(r, Claimed, None, now)] && r !in w.journal.proofs
    requires forall q :: q in w.journal.proofs && q != r ==>
               q in w'.journal.proofs && w'.journal.proofs[q] == w.journal.proofs[q]
    ensures Extends(w, w') && Linked(w')
  {
    forall i | 0 <= i < |w'.journal.dispatches| && w'.journal.dispatches[i].receipt.Some?
      ensures Issued(w'.ledger, w'.journal.dispatches[i].request, w'.journal.dispatches[i].receipt.value)
    {
      assert w'.journal.dispatches[i] == w.journal.dispatches[i];
    }
  }

  /** An unclaimed request has no history of its own. */
  lemma UnclaimedIsFresh(c: Config, w: World, r: Request)
    requires RequestOk(c, w, r) && !Claims(w, r)
    ensures PaymentPosted(r) !in w.log && EffectCommitted(r) !in w.log
  {
  }

  lemma CauseIsPresent(log: seq<Event>, a: Event, b: Event)
    requires Precedes(log, a, b)
    ensures b in log ==> a in log
  {
  }

  lemma ClaimKeepsRequest(c: Config, w: World, w': World, r: Request)
    requires RequestOk(c, w, r) && !Claims(w, r) && Claims(w', r) && r !in w.journal.proofs
    requires w'.log == w.log + [ClaimCommitted(r)] && w'.ledger == w.ledger && w'.journal.markers == w.journal.markers
    ensures RequestOk(c, w', r)
  {
  }

  lemma ClaimLeavesOthers(c: Config, w: World, w': World, r: Request)
    requires RequestsOk(c, w) && Extends(w, w') && w'.ledger == w.ledger && w'.journal.markers == w.journal.markers
    requires DispatchRequests(w'.journal.dispatches) == DispatchRequests(w.journal.dispatches) + [r]
    ensures OthersAlike(w, w', ClaimCommitted(r), r)
  {
    forall q | q != r ensures SameFor(w, w', q) { assert RequestOk(c, w, q); }
  }

  lemma ClaimKeepsInv(c: Config, w: World, r: Request, process: Generation, gate: Gate, offer: Offer, now: nat)
    requires Inv(c, w) && Claim(c, w.journal, r, process, gate, offer, now, true).1 == Created
    requires c.wrapper != Native ==> Configured(gate)
    ensures Inv(c, Claimed'(c, w, r, process, gate, offer, now))
  {
    var w' := Claimed'(c, w, r, process, gate, offer, now);
    ClaimExtends(c, w, r, process, gate, offer, now);
    ExtendsKeepsFacts(w, w');
    assert RequestOk(c, w, r);
    ClaimKeepsRequest(c, w, w', r);
    ClaimLeavesOthers(c, w, w', r);
    RequestsGrow(c, w, w', ClaimCommitted(r), r);
    PackagesGrow(c, w, w', ClaimCommitted(r));
    WorkersGrow(c, w, w');
  }

  /** Nobody holds a request that is not claimed. */
  lemma UnclaimedIsUnowned(c: Config, w: World, r: Request)
    requires Inv(c, w) && !Claims(w, r)
    ensures PaymentPosted(r) !in w.log && forall id :: id in w.workers ==> !Owns(w.workers[id].pc, r)
  {
    assert RequestOk(c, w, r);
    UnclaimedIsFresh(c, w, r);
    forall id | id in w.workers ensures !Owns(w.workers[id].pc, r) { assert PcOk(c, w, w.workers[id].pc); }
  }

  lemma SubmitKeeps(c: Config, w: World, id: nat, r: Request, offer: Offer, now: nat, commit: bool)
    requires Inv(c, w)
    ensures Inv(c, Step(c, w, Submit(id, r, offer, now, commit)))
  {
    if SubmitStep(c, w, id, r, offer, now, commit) != w {
      var process, gate := w.workers[id].generation, w.workers[id].gate;
      assert commit;
      assert SubmitStep(c, w, id, r, offer, now, commit)
          == Goto(Claimed'(c, w, r, process, gate, offer, now), id, Owner(r));
      ClaimExtends(c, w, r, process, gate, offer, now);
      ClaimKeepsInv(c, w, r, process, gate, offer, now);
      UnclaimedIsUnowned(c, w, r);
      GotoKeeps(c, Claimed'(c, w, r, process, gate, offer, now), id, Owner(r));
    }
  }

  // ----- packages and the collector

  lemma SendKeeps(c: Config, w: World, id: nat, p: Package, stage: Stage)
    requires Inv(c, w) && id in w.workers && Claims(w, p.request)
    requires stage == PreDispatch ==> Owns(w.workers[id].pc, p.request) && PaymentPosted(p.request) !in w.log
                                      && p.request in w.journal.proofs
                                      && p == AdmissionPackage(p.request, w.journal.proofs[p.request])
    ensures Inv(c, SendPackage(w, id, p, stage))
  {
    var sent := w.(log := w.log + [PackageSent(p)]);
    SentKeeps(c, w, p);
    GotoQuietly(c, sent, id, Custody(p.request, p, stage, None, false));
  }

  lemma SentKeeps(c: Config, w: World, p: Package)
    requires Inv(c, w) && Claims(w, p.request)
    ensures Inv(c, w.(log := w.log + [PackageSent(p)]))
  {
    var e, sent := PackageSent(p), w.(log := w.log + [PackageSent(p)]);
    QuietEventKeepsRequests(c, w, sent, e);
    forall q ensures PackageOk(c, sent, q) {
      assert PackageOk(c, w, q);
      PrecedesGrows(w.log, e, ClaimCommitted(q.request), PackageCollected(q));
    }
    HistoryExtends(w, sent);
    WorkersGrow(c, w, sent);
  }

  lemma BeginKeeps(c: Config, w: World, id: nat)
    requires Inv(c, w)
    ensures Inv(c, Step(c, w, BeginDispatch(id)))
  {
    if PcOf(w, id).Owner? {
      var r := PcOf(w, id).request;
      assert PcOk(c, w, w.workers[id].pc);
      if c.wrapper != Collected {
        GotoQuietly(c, w, id, Ready(r));
      } else {
        ClaimsAreExactlyProofs(c, w.journal, r);
        SendKeeps(c, w, id, AdmissionPackage(r, w.journal.proofs[r]), PreDispatch);
      }
    }
  }

  lemma CollectorKeeps(c: Config, w: World, p: Package, epoch: nat, now: nat, commit: bool)
    requires Inv(c, w)
    ensures Inv(c, Step(c, w, CollectorHandles(p, epoch, now, commit)))
  {
    var s := Collect(c, w.collection, p, epoch, now, commit).0;
    if PackageSent(p) in w.log && s != w.collection {
      CollectedKeeps(c, w, p, s);
      assert Step(c, w, CollectorHandles(p, epoch, now, commit))
          == w.(collection := s, log := w.log + [PackageCollected(p)]);
    }
  }

  /** A row for a package that was sent joins the collection. */
  lemma CollectedKeeps(c: Config, w: World, p: Package, s: Collection)
    requires Inv(c, w) && PackageSent(p) in w.log
    requires |s.rows| == |w.collection.rows| + 1 && s.rows[..|w.collection.rows|] == w.collection.rows
    requires s.rows[|w.collection.rows|].package == p
    ensures Inv(c, w.(collection := s, log := w.log + [PackageCollected(p)]))
  {
    var e, w' := PackageCollected(p), w.(collection := s, log := w.log + [PackageCollected(p)]);
    QuietEventKeepsRequests(c, w, w', e);
    CollectedKeepsPackages(c, w, p, w');
    HistoryExtends(w, w');
    WorkersGrow(c, w, w');
  }

  lemma CollectedKeepsPackages(c: Config, w: World, p: Package, w': World)
    requires RequestsOk(c, w) && PackagesOk(c, w) && PackageSent(p) in w.log
    requires var n := |w.collection.rows|;
             && |w'.collection.rows| == n + 1 && w'.collection.rows[..n] == w.collection.rows
             && w'.collection.rows[n].package == p
    requires w'.journal == w.journal && w'.log == w.log + [PackageCollected(p)]
    ensures PackagesOk(c, w')
  {
    assert PackageOk(c, w, p) && RequestOk(c, w, p.request);
    forall q ensures PackageOk(c, w', q) {
      assert PackageOk(c, w, q);
      PrecedesGrows(w.log, PackageCollected(p), ClaimCommitted(q.request), PackageCollected(q));
      CollectedRows(w.collection, w'.collection, p, q);
    }
  }

  lemma CollectedRows(s: Collection, s': Collection, p: Package, q: Package)
    requires |s'.rows| == |s.rows| + 1 && s'.rows[..|s.rows|] == s.rows && s'.rows[|s.rows|].package == p
    ensures (exists i :: 0 <= i < |s'.rows| && s'.rows[i].package == q)
       <==> q == p || (exists i :: 0 <= i < |s.rows| && s.rows[i].package == q)
  {
    assert forall i :: 0 <= i < |s.rows| ==> s'.rows[i] == s.rows[i];
  }

  lemma AckKeeps(c: Config, w: World, id: nat, ack: Ack)
    requires Inv(c, w)
    ensures Inv(c, Step(c, w, AckArrives(id, ack)))
  {
    var pc := PcOf(w, id);
    if pc.Custody? && pc.ack == None {
      assert PcOk(c, w, w.workers[id].pc);
      GotoQuietly(c, w, id, Idle);
      GotoQuietly(c, w, id, if AckVerifies(c, ack, pc.package, w.workers[id].custodyEpoch)
                            then Custody(pc.request, pc.package, pc.stage, Some(ack), false) else Idle);
    }
  }

  lemma ReadbackKeeps(c: Config, w: World, id: nat, b: Readback)
    requires Inv(c, w)
    ensures Inv(c, Step(c, w, ReadbackArrives(id, b)))
  {
    var pc := PcOf(w, id);
    if GenuineReadback(c, w, b) && pc.Custody? && pc.ack.Some? {
      assert PcOk(c, w, w.workers[id].pc) && PackageOk(c, w, pc.package);
      GotoQuietly(c, w, id, if ReadbackVerifies(c, b, pc.package, pc.ack.value, w.workers[id].custodyEpoch)
                            then Custody(pc.request, pc.package, pc.stage, pc.ack, true) else Idle);
    }
  }

  // ----- custody markers

  lemma MarkerKeepsRequest(c: Config, w: World, w': World, r: Request)
    requires RequestOk(c, w, r) && r !in w.journal.markers && r in w'.journal.markers && r in w'.journal.proofs
    requires w'.log == w.log + [MarkerCommitted(r)] && w'.ledger == w.ledger && (Claims(w', r) <==> Claims(w, r))
    requires w'.journal.markers[r].package == AdmissionPackage(r, w'.journal.proofs[r])
    requires PackageCollected(w'.journal.markers[r].package) in w.log
    ensures RequestOk(c, w', r)
  {
    var e := MarkerCommitted(r);
    OnceGrows(w.log, e, PaymentPosted(r));
    OnceGrows(w.log, e, EffectCommitted(r));
    PrecedesGrows(w.log, e, ClaimCommitted(r), PaymentPosted(r));
    PrecedesGrows(w.log, e, PaymentPosted(r), EffectCommitted(r));
    if c.wrapper == Collected { PrecedesGrows(w.log, e, MarkerCommitted(r), PaymentPosted(r)); }
    PrecedesGrows(w.log, e, PackageCollected(w'.journal.markers[r].package), e);
  }

  /** An observation without a marker leaves no trace in the history. */
  lemma ObservedKeepsInv(c: Config, w: World, j: Journal)
    requires Inv(c, w) && j == w.journal.(observations := j.observations)
    ensures Inv(c, w.(journal := j))
  {
    var w' := w.(journal := j);
    ObservationKeepsJournal(c, w.journal, j);
    HistoryExtends(w, w');
    forall q ensures RequestOk(c, w', q) {
      assert RequestOk(c, w, q);
      assert HasEffect(w', q) <==> HasEffect(w, q);
    }
    forall q ensures PackageOk(c, w', q) { assert PackageOk(c, w, q); }
    WorkersGrow(c, w, w');
  }

  lemma MarkerLeavesOthers(c: Config, w: World, w': World, r: Request)
    requires RequestsOk(c, w) && w'.ledger == w.ledger && r in w'.journal.markers
    requires w'.journal == w.journal.(observations := w'.journal.observations, markers := w'.journal.markers)
    requires w'.journal.markers == w.journal.markers[r := w'.journal.markers[r]]
    ensures OthersAlike(w, w', MarkerCommitted(r), r)
  {
    forall q | q != r ensures SameFor(w, w', q) { assert RequestOk(c, w, q); }
  }

  lemma MarkedKeepsInv(c: Config, w: World, j: Journal, r: Request)
    requires Inv(c, w) && j == w.journal.(observations := j.observations, markers := j.markers)
    requires r !in w.journal.markers && r in j.markers && j.markers == w.journal.markers[r := j.markers[r]]
    requires r in w.journal.proofs && j.markers[r].package == AdmissionPackage(r, w.journal.proofs[r])
    requires PackageCollected(j.markers[r].package) in w.log
    ensures Inv(c, w.(journal := j, log := w.log + [MarkerCommitted(r)]))
  {
    var w' := w.(journal := j, log := w.log + [MarkerCommitted(r)]);
    ObservationKeepsJournal(c, w.journal, j);
    HistoryExtends(w, w');
    assert RequestOk(c, w, r);
    MarkerKeepsRequest(c, w, w', r);
    MarkerLeavesOthers(c, w, w', r);
    RequestsGrow(c, w, w', MarkerCommitted(r), r);
    PackagesGrow(c, w, w', MarkerCommitted(r));
    WorkersGrow(c, w, w');
  }

  /** The call that owns the request commits its marker and may post. */
  lemma MarkedGoesReady(c: Config, w: World, id: nat, r: Request, o: Observation, j: Journal)
    requires Inv(c, w) && id in w.workers && w.workers[id].pc == Custody(r, o.package, PreDispatch, Some(o.ack), true)
    requires r !in w.journal.markers && o.package.request == r
    requires j == w.journal.(observations := j.observations, markers := w.journal.markers[r := o])
    ensures Inv(c, Goto(w.(journal := j, log := w.log + [MarkerCommitted(r)]), id, Ready(r)))
  {
    assert PcOk(c, w, w.workers[id].pc);
    MarkedKeepsInv(c, w, j, r);
    GotoQuietly(c, w.(journal := j, log := w.log + [MarkerCommitted(r)]), id, Ready(r));
  }

  lemma ObservedGoesIdle(c: Config, w: World, id: nat, j: Journal)
    requires Inv(c, w) && j == w.journal.(observations := j.observations)
    ensures Inv(c, Goto(w.(journal := j), id, Idle))
  {
    ObservedKeepsInv(c, w, j);
    GotoQuietly(c, w.(journal := j), id, Idle);
  }

  lemma PersistKeeps(c: Config, w: World, id: nat, commit: bool)
    requires Inv(c, w)
    ensures Inv(c, Step(c, w, PersistObservation(id, commit)))
  {
    var pc := PcOf(w, id);
    if pc.Custody? && pc.ack.Some? && pc.observed {
      var o := Observation(pc.package, pc.ack.value, pc.stage);
      var (j, ok) := Persist(c, w.journal, o, w.workers[id].custodyEpoch, commit);
      PersistWrites(c, w.journal, o, w.workers[id].custodyEpoch, commit);
      CustodyIsOfItsRequest(c, w, id);
      var w' := PersistStep(c, w, id, commit);
      if ok && pc.stage == PreDispatch {
        MarkedGoesReady(c, w, id, pc.request, o, j);
        assert w' == Goto(w.(journal := j, log := w.log + [MarkerCommitted(pc.request)]), id, Ready(pc.request));
      } else {
        ObservedGoesIdle(c, w, id, j);
        assert w' == Goto(w.(journal := j), id, Idle);
      }
    }
  }

  lemma CustodyIsOfItsRequest(c: Config, w: World, id: nat)
    requires Inv(c, w)
    ensures PcOf(w, id).Custody? ==> PcOf(w, id).package.request == PcOf(w, id).request
  {
    if id in w.workers { assert PcOk(c, w, w.workers[id].pc); }
  }

  /** What a persisted observation writes. */
  lemma PersistWrites(c: Config, j: Journal, o: Observation, epoch: nat, commit: bool)
    ensures var (j', ok) := Persist(c, j, o, epoch, commit);
            var r := o.package.request;
            if ok && o.stage == PreDispatch
            then r !in j.markers && j' == j.(observations := j'.observations, markers := j.markers[r := o])
            else j' == j.(observations := j'.observations)
  {
  }

  lemma ObservationKeepsJournal(c: Config, j: Journal, j': Journal)
    requires JournalOk(c, j) && j' == j.(observations := j'.observations, markers := j'.markers)
    ensures JournalOk(c, j')
  {
  }

  // ----- the POST and the provider

  lemma PostKeeps(c: Config, w: World, id: nat)
    requires Inv(c, w)
    ensures Inv(c, Step(c, w, Post(id)))
  {
    if PcOf(w, id).Ready? {
      var r := PcOf(w, id).request;
      var waiting := Goto(w, id, Waiting(r));
      PostingGivesUp(c, w, id, r);
      PostedKeepsInv(c, waiting, r);
      assert Step(c, w, Post(id)) == waiting.(log := waiting.log + [PaymentPosted(r)]);
    }
  }

  /** The call that posts gives the request up, and nobody else had it. */
  lemma PostingGivesUp(c: Config, w: World, id: nat, r: Request)
    requires Inv(c, w) && id in w.workers && w.workers[id].pc == Ready(r)
    ensures var waiting := Goto(w, id, Waiting(r));
            && Inv(c, waiting) && Claims(waiting, r) && PaymentPosted(r) !in waiting.log
            && (c.wrapper == Collected ==> MarkerCommitted(r) in waiting.log)
            && forall x :: x in waiting.workers ==> !Owns(waiting.workers[x].pc, r)
  {
    assert PcOk(c, w, w.workers[id].pc) && Owns(w.workers[id].pc, r);
    GotoQuietly(c, w, id, Waiting(r));
  }

  /** The one POST of a claimed request, once its owner has given the request up. */
  lemma PostedKeepsInv(c: Config, w: World, r: Request)
    requires Inv(c, w) && Claims(w, r) && PaymentPosted(r) !in w.log
    requires c.wrapper == Collected ==> MarkerCommitted(r) in w.log
    requires forall id :: id in w.workers ==> !Owns(w.workers[id].pc, r)
    ensures Inv(c, w.(log := w.log + [PaymentPosted(r)]))
  {
    var e, w' := PaymentPosted(r), w.(log := w.log + [PaymentPosted(r)]);
    HistoryExtends(w, w');
    PostedKeepsRequests(c, w, w', r);
    PackagesGrow(c, w, w', e);
    WorkersGrow(c, w, w');
  }

  lemma PostedKeepsRequests(c: Config, w: World, w': World, r: Request)
    requires RequestsOk(c, w) && Claims(w, r) && PaymentPosted(r) !in w.log
    requires c.wrapper == Collected ==> MarkerCommitted(r) in w.log
    requires w'.journal == w.journal && w'.ledger == w.ledger && w'.log == w.log + [PaymentPosted(r)]
    ensures RequestsOk(c, w')
  {
    assert RequestOk(c, w, r);
    PostedRequest(c, w, w', r);
    RequestsAlike(c, w, w');
    RequestsGrow(c, w, w', PaymentPosted(r), r);
  }

  /** Worlds that differ in their histories only are alike for every request. */
  lemma RequestsAlike(c: Config, w: World, w': World)
    requires RequestsOk(c, w)
    requires w'.journal == w.journal && w'.ledger == w.ledger
    ensures forall r :: SameFor(w, w', r)
  {
    forall r ensures SameFor(w, w', r) { assert RequestOk(c, w, r); }
  }

  /** An event that touches no request leaves all of their facts true. */
  lemma QuietEventKeepsRequests(c: Config, w: World, w': World, e: Event)
    requires RequestsOk(c, w) && w'.journal == w.journal && w'.ledger == w.ledger && w'.log == w.log + [e]
    requires e.PackageSent? || e.PackageCollected?
    ensures RequestsOk(c, w')
  {
    RequestsAlike(c, w, w');
    forall r ensures RequestOk(c, w', r) {
      assert RequestOk(c, w, r);
      RequestGrows(c, w, w', e, r);
    }
  }

  lemma PostedRequest(c: Config, w: World, w': World, r: Request)
    requires RequestOk(c, w, r) && Claims(w, r) && PaymentPosted(r) !in w.log
    requires c.wrapper == Collected ==> MarkerCommitted(r) in w.log
    requires w'.journal == w.journal && w'.ledger == w.ledger && w'.log == w.log + [PaymentPosted(r)]
    ensures RequestOk(c, w', r)
  {
    var e := PaymentPosted(r);
    PrecedesGrows(w.log, e, ClaimCommitted(r), e);
    CauseIsPresent(w.log, e, EffectCommitted(r));
    PrecedesGrows(w.log, e, e, EffectCommitted(r));
    if c.wrapper == Collected { PrecedesGrows(w.log, e, MarkerCommitted(r), e); }
    if r in w.journal.markers {
      PrecedesGrows(w.log, e, PackageCollected(w.journal.markers[r].package), MarkerCommitted(r));
    }
  }

  /** A payment row was added for r, or nothing changed. */
  lemma ProviderAdds(c: Config, l: Ledger, r: Request, process: Generation, now: nat, commit: bool)
    requires LedgerOk(c, l)
    ensures var l' := PostPayment(c, l, r, process, now, commit).0;
            l' == l || (
            && |l'.payments| == |l.payments| + 1 && l'.payments[..|l.payments|] == l.payments
            && l'.payments[|l.payments|].request == r && l'.generation == l.generation
            && (l'.payments[|l.payments|].settled <==> l'.effects != l.effects)
            && r !in PaymentRequests(l.payments)
            && PaymentRequests(l'.payments) == PaymentRequests(l.payments) + [r])
  {
  }

  lemma PaymentAdded(w: World, w': World, r: Request, q: Request)
    requires |w'.ledger.payments| == |w.ledger.payments| + 1
    requires w'.ledger.payments[..|w.ledger.payments|] == w.ledger.payments
    requires w'.ledger.payments[|w.ledger.payments|].request == r
    ensures HasEffect(w', q) <==> HasEffect(w, q) || (q == r && w'.ledger.payments[|w.ledger.payments|].settled)
  {
  }

  lemma PaidRequest(c: Config, w: World, w': World, r: Request, settled: bool)
    requires RequestOk(c, w, r) && PaymentPosted(r) in w.log && !HasEffect(w, r)
    requires w'.journal == w.journal && (HasEffect(w', r) <==> settled)
    requires w'.log == w.log + (if settled then [EffectCommitted(r)] else [])
    ensures RequestOk(c, w', r)
  {
    var e := EffectCommitted(r);
    if settled {
      PrecedesGrows(w.log, e, ClaimCommitted(r), PaymentPosted(r));
      PrecedesGrows(w.log, e, PaymentPosted(r), e);
      if c.wrapper == Collected { PrecedesGrows(w.log, e, MarkerCommitted(r), PaymentPosted(r)); }
      if r in w.journal.markers {
        PrecedesGrows(w.log, e, PackageCollected(w.journal.markers[r].package), MarkerCommitted(r));
      }
    } else {
      assert w'.log == w.log;
    }
  }

  lemma EffectHasRow(w: World, r: Request)
    ensures HasEffect(w, r) ==> r in PaymentRequests(w.ledger.payments)
  {
    if i :| 0 <= i < |w.ledger.payments| && w.ledger.payments[i].request == r && w.ledger.payments[i].settled {
      assert PaymentRequests(w.ledger.payments)[i] == r;
    }
  }

  lemma ProviderKeeps(c: Config, w: World, r: Request, process: Generation, now: nat, commit: bool)
    requires Inv(c, w)
    ensures Inv(c, Step(c, w, ProviderHandles(r, process, now, commit)))
  {
    var l := PostPayment(c, w.ledger, r, process, now, commit).0;
    ProviderAdds(c, w.ledger, r, process, now, commit);
    PostPaymentKeeps(c, w.ledger, r, process, now, commit);
    if PaymentPosted(r) in w.log && l != w.ledger {
      if l.effects == w.ledger.effects { FailedKeepsInv(c, w, r, l); } else { SettledKeepsInv(c, w, r, l); }
    }
  }

  /** The ledger l has one more payment, of r. */
  ghost predicate Adds(w: World, l: Ledger, r: Request) {
    var n := |w.ledger.payments|;
    && |l.payments| == n + 1 && l.payments[..n] == w.ledger.payments && l.payments[n].request == r
    && l.generation == w.ledger.generation && r !in PaymentRequests(w.ledger.payments)
    && PaymentRequests(l.payments) == PaymentRequests(w.ledger.payments) + [r]
  }

  lemma PaymentKeepsOthers(c: Config, w: World, w': World, r: Request)
    requires RequestsOk(c, w) && Adds(w, w'.ledger, r) && w'.journal == w.journal
    ensures OthersAlike(w, w', EffectCommitted(r), r)
    ensures HasEffect(w', r) <==> w'.ledger.payments[|w.ledger.payments|].settled
    ensures !HasEffect(w, r)
  {
    EffectHasRow(w, r);
    PaymentAdded(w, w', r, r);
    forall q | q != r ensures SameFor(w, w', q) {
      assert RequestOk(c, w, q);
      PaymentAdded(w, w', r, q);
    }
  }

  lemma PaymentExtends(w: World, w': World, r: Request)
    requires Adds(w, w'.ledger, r) && w'.journal == w.journal && w.log <= w'.log
    ensures Extends(w, w')
  {
    assert w.ledger.payments <= w'.ledger.payments;
  }

  lemma FailedKeepsInv(c: Config, w: World, r: Request, l: Ledger)
    requires Inv(c, w) && PaymentPosted(r) in w.log && LedgerOk(c, l) && Adds(w, l, r)
    requires !l.payments[|w.ledger.payments|].settled
    ensures Inv(c, w.(ledger := l))
  {
    var w' := w.(ledger := l);
    PaymentExtends(w, w', r);
    IssuedStaysLinked(w, w');
    PaymentKeepsOthers(c, w, w', r);
    forall q ensures RequestOk(c, w', q) {
      assert RequestOk(c, w, q);
      if q == r { PaidRequest(c, w, w', r, false); }
    }
    forall p ensures PackageOk(c, w', p) { assert PackageOk(c, w, p); }
    WorkersGrow(c, w, w');
  }

  lemma SettledKeepsInv(c: Config, w: World, r: Request, l: Ledger)
    requires Inv(c, w) && PaymentPosted(r) in w.log && LedgerOk(c, l) && Adds(w, l, r)
    requires l.payments[|w.ledger.payments|].settled
    ensures Inv(c, w.(ledger := l, log := w.log + [EffectCommitted(r)]))
  {
    var w' := w.(ledger := l, log := w.log + [EffectCommitted(r)]);
    PaymentExtends(w, w', r);
    SettledKeepsRequests(c, w, r, w');
    PackagesGrow(c, w, w', EffectCommitted(r));
    IssuedStaysLinked(w, w');
    WorkersGrow(c, w, w');
  }

  lemma SettledKeepsRequests(c: Config, w: World, r: Request, w': World)
    requires RequestsOk(c, w) && PaymentPosted(r) in w.log && Adds(w, w'.ledger, r) && w'.journal == w.journal
    requires w'.ledger.payments[|w.ledger.payments|].settled && w'.log == w.log + [EffectCommitted(r)]
    ensures RequestsOk(c, w')
  {
    PaymentKeepsOthers(c, w, w', r);
    assert RequestOk(c, w, r);
    PaidRequest(c, w, w', r, true);
    RequestsGrow(c, w, w', EffectCommitted(r), r);
  }

  lemma IssuedStaysLinked(w: World, w': World)
    requires Linked(w) && Extends(w, w') && w'.journal == w.journal
    ensures Linked(w')
  {
    ExtendsKeepsFacts(w, w');
  }

  // ----- receipts

  lemma ReplyKeeps(c: Config, w: World, id: nat, reply: Reply)
    requires Inv(c, w)
    ensures Inv(c, Step(c, w, ReplyArrives(id, reply)))
  {
    var pc := PcOf(w, id);
    if GenuineReply(c, w, reply) && pc.Waiting? {
      assert PcOk(c, w, w.workers[id].pc);
      GotoQuietly(c, w, id, if reply.Replied? && reply.status == 200 && reply.receipt.Some?
                               && ReceiptVerifies(c, reply.receipt.value, pc.request)
                            then Holding(pc.request, reply.receipt.value) else Idle);
    }
  }

  lemma StoredStaysLinked(c: Config, w: World, r: Request, receipt: Receipt, commit: bool)
    requires Linked(w) && Issued(w.ledger, r, receipt)
    ensures Linked(w.(journal := StoreReceipt(c, w.journal, r, receipt, commit).0))
  {
  }

  /** Storing a receipt touches the state and receipt of one unresolved row. */
  lemma StoreReceiptExtends(c: Config, w: World, r: Request, receipt: Receipt, commit: bool)
    ensures var w' := w.(journal := StoreReceipt(c, w.journal, r, receipt, commit).0);
            Extends(w, w') && DispatchRequests(w'.journal.dispatches) == DispatchRequests(w.journal.dispatches)
            && w'.journal == w.journal.(dispatches := w'.journal.dispatches)
  {
    var i := StoreReceiptEnds(c, w.journal, r, receipt, commit);
    var w' := w.(journal := StoreReceipt(c, w.journal, r, receipt, commit).0);
    assert DispatchRequests(w'.journal.dispatches) == DispatchRequests(w.journal.dispatches);
  }

  lemma StoreReceiptKeepsInv(c: Config, w: World, r: Request, receipt: Receipt, commit: bool)
    requires Inv(c, w) && Issued(w.ledger, r, receipt)
    ensures var w' := w.(journal := StoreReceipt(c, w.journal, r, receipt, commit).0);
            Inv(c, w') && DispatchRequests(w'.journal.dispatches) == DispatchRequests(w.journal.dispatches)
  {
    var w' := w.(journal := StoreReceipt(c, w.journal, r, receipt, commit).0);
    StoreReceiptKeeps(c, w.journal, r, receipt, commit);
    StoreReceiptExtends(c, w, r, receipt, commit);
    StoredStaysLinked(c, w, r, receipt, commit);
    SameRequestsKeep(c, w, w');
  }

  lemma SameRequestsKeep(c: Config, w: World, w': World)
    requires Inv(c, w) && Extends(w, w') && JournalOk(c, w'.journal) && Linked(w')
    requires w' == w.(journal := w.journal.(dispatches := w'.journal.dispatches))
    requires DispatchRequests(w'.journal.dispatches) == DispatchRequests(w.journal.dispatches)
    ensures Inv(c, w')
  {
    forall q ensures RequestOk(c, w', q) {
      assert RequestOk(c, w, q);
      assert HasEffect(w', q) <==> HasEffect(w, q);
    }
    forall p ensures PackageOk(c, w', p) { assert PackageOk(c, w, p); }
    WorkersGrow(c, w, w');
  }

  lemma StoreKeeps(c: Config, w: World, id: nat, commit: bool, collect: bool)
    requires Inv(c, w)
    ensures Inv(c, Step(c, w, Action.Store(id, commit, collect)))
  {
    var pc := PcOf(w, id);
    if pc.Holding? {
      assert PcOk(c, w, w.workers[id].pc);
      var (j, ok) := StoreReceipt(c, w.journal, pc.request, pc.receipt, commit);
      StoreReceiptKeepsInv(c, w, pc.request, pc.receipt, commit);
      HoldingEnds(c, w.(journal := j), id, ReceiptPackage(pc.request, pc.receipt));
    }
  }

  /** After the receipt is stored the call ends, or takes it to the collector. */
  lemma HoldingEnds(c: Config, w: World, id: nat, p: Package)
    requires Inv(c, w) && id in w.workers && Claims(w, p.request)
    ensures Inv(c, SendPackage(w, id, p, PostEffect)) && Inv(c, Goto(w, id, Idle))
  {
    SendKeeps(c, w, id, p, PostEffect);
    GotoQuietly(c, w, id, Idle);
  }

  lemma FoundIsClaimed(w: World, r: Request)
    ensures FindDispatch(w.journal, r).Row? ==> Claims(w, r)
  {
    var found := FindDispatch(w.journal, r);
    if found.Row? { assert DispatchRequests(w.journal.dispatches)[found.index] == r; }
  }

  lemma ReconcileKeeps(c: Config, w: World, id: nat, r: Request)
    requires Inv(c, w)
    ensures Inv(c, Step(c, w, Reconcile(id, r)))
  {
    FoundIsClaimed(w, r);
    if FindDispatch(w.journal, r).Row? { GotoQuietly(c, w, id, Waiting(r)); }
  }

  /** Only a claimed request has original evidence. */
  lemma OriginalIsClaimed(c: Config, w: World, r: Request, admission: bool)
    ensures Original(c, w.journal, r, admission).Some? ==> Claims(w, r)
  {
    FoundIsClaimed(w, r);
  }

  lemma RecoverKeeps(c: Config, w: World, id: nat, r: Request, admission: bool)
    requires Inv(c, w)
    ensures Inv(c, Step(c, w, Recover(id, r, admission)))
  {
    var original := Original(c, w.journal, r, admission);
    OriginalIsClaimed(c, w, r, admission);
    if id in w.workers && PcOf(w, id) == Idle && original.Some? { SendKeeps(c, w, id, original.value, Recovery); }
  }

  // ----- every step, every run

  predicate Opening(a: Action) {
    a.OpenAdapter? || a.OpenCustody? || a.OpenProvider? || a.OpenCollector?
  }

  /** Reopening a store only moves its generation and gives its process a fresh start. */
  lemma MovedKeeps(c: Config, w: World, w': World)
    requires Inv(c, w)
    requires w' == Refenced(w, w'.journal.generation, w'.ledger.generation, w'.journal.custodyEpoch,
                            w'.collection.epoch).(workers := w'.workers)
    requires Reopen(w.journal.generation, w'.journal.generation).Some?
    requires Reopen(w.ledger.generation, w'.ledger.generation).Some?
    requires forall id :: id in w'.workers ==>
               w'.workers[id].pc == Idle || (id in w.workers && w'.workers[id].pc == w.workers[id].pc)
    requires GatesOk(c, w')
    ensures Inv(c, w') && Extends(w, w')
  {
    var moved := Refenced(w, w'.journal.generation, w'.ledger.generation, w'.journal.custodyEpoch, w'.collection.epoch);
    GenerationsKeep(c, w, w'.journal.generation, w'.ledger.generation, w'.journal.custodyEpoch, w'.collection.epoch);
    WorkerSetKeeps(c, moved, w');
  }

  lemma OpenAdapterKeeps(c: Config, w: World, id: nat, g: Generation, gate: Gate)
    requires Inv(c, w)
    ensures var w' := Step(c, w, OpenAdapter(id, g, gate)); Inv(c, w') && Extends(w, w')
  {
    MovedKeeps(c, w, Step(c, w, OpenAdapter(id, g, gate)));
  }

  lemma OpenOtherKeeps(c: Config, w: World, a: Action)
    requires Inv(c, w) && (a.OpenCustody? || a.OpenProvider? || a.OpenCollector?)
    ensures Inv(c, Step(c, w, a)) && Extends(w, Step(c, w, a))
  {
    MovedKeeps(c, w, Step(c, w, a));
  }

  lemma OpenKeeps(c: Config, w: World, a: Action)
    requires Inv(c, w) && Opening(a)
    ensures Inv(c, Step(c, w, a)) && Extends(w, Step(c, w, a))
  {
    if a.OpenAdapter? { OpenAdapterKeeps(c, w, a.id, a.generation, a.gate); } else { OpenOtherKeeps(c, w, a); }
  }

  lemma StopKeeps(c: Config, w: World, a: Action)
    requires Inv(c, w) && (a.Crash? || a.GiveUp?)
    ensures Inv(c, Step(c, w, a))
  {
    WorkerSetKeeps(c, w, Step(c, w, a));
  }

  lemma StepKeepsInv(c: Config, w: World, a: Action)
    requires Inv(c, w)
    ensures Inv(c, Step(c, w, a))
  {
    match a
    case Submit(id, r, offer, now, commit) => SubmitKeeps(c, w, id, r, offer, now, commit);
    case BeginDispatch(id) => BeginKeeps(c, w, id);
    case CollectorHandles(p, epoch, now, commit) => CollectorKeeps(c, w, p, epoch, now, commit);
    case AckArrives(id, ack) => AckKeeps(c, w, id, ack);
    case ReadbackArrives(id, b) => ReadbackKeeps(c, w, id, b);
    case PersistObservation(id, commit) => PersistKeeps(c, w, id, commit);
    case Post(id) => PostKeeps(c, w, id);
    case ProviderHandles(r, process, now, commit) => ProviderKeeps(c, w, r, process, now, commit);
    case ReplyArrives(id, reply) => ReplyKeeps(c, w, id, reply);
    case Store(id, commit, collect) => StoreKeeps(c, w, id, commit, collect);
    case Reconcile(id, r) => ReconcileKeeps(c, w, id, r);
    case Recover(id, r, admission) => RecoverKeeps(c, w, id, r, admission);
    case _ => if Opening(a) { OpenKeeps(c, w, a); } else { StopKeeps(c, w, a); }
  }

  lemma HistoryExtends(w: World, w': World)
    requires w.log <= w'.log && w'.ledger == w.ledger && w'.journal.generation == w.journal.generation
    requires w'.journal.dispatches == w.journal.dispatches && w'.journal.proofs == w.journal.proofs
    ensures Extends(w, w')
  {
  }

  lemma SubmitExtends(c: Config, w: World, id: nat, r: Request, offer: Offer, now: nat, commit: bool)
    requires Inv(c, w)
    ensures Extends(w, Step(c, w, Submit(id, r, offer, now, commit)))
  {
    if SubmitStep(c, w, id, r, offer, now, commit) != w {
      ClaimExtends(c, w, r, w.workers[id].generation, w.workers[id].gate, offer, now);
    }
  }

  lemma StoreExtends(c: Config, w: World, id: nat, commit: bool, collect: bool)
    ensures Extends(w, Step(c, w, Action.Store(id, commit, collect)))
  {
    var pc := PcOf(w, id);
    if pc.Holding? {
      StoreReceiptExtends(c, w, pc.request, pc.receipt, commit);
      var stored := w.(journal := StoreReceipt(c, w.journal, pc.request, pc.receipt, commit).0);
      HistoryExtends(stored, StoreStep(c, w, id, commit, collect));
      ExtendsTransitive(w, stored, StoreStep(c, w, id, commit, collect));
    }
  }

  lemma PersistExtends(c: Config, w: World, id: nat, commit: bool)
    ensures Extends(w, Step(c, w, PersistObservation(id, commit)))
  {
    HistoryExtends(w, PersistStep(c, w, id, commit));
  }

  lemma ProviderExtends(c: Config, w: World, r: Request, process: Generation, now: nat, commit: bool)
    requires LedgerOk(c, w.ledger)
    ensures Extends(w, Step(c, w, ProviderHandles(r, process, now, commit)))
  {
    ProviderAdds(c, w.ledger, r, process, now, commit);
    assert w.ledger.payments <= ProviderStep(c, w, r, process, now, commit).ledger.payments;
  }

  /** Steps of one call that write neither store. */
  lemma CallExtends(c: Config, w: World, a: Action)
    requires a.Crash? || a.GiveUp? || a.BeginDispatch? || a.Post? || a.Reconcile? || a.Recover?
    ensures Extends(w, Step(c, w, a))
  {
    HistoryExtends(w, Step(c, w, a));
  }

  /** Messages whose arrival writes neither store. */
  lemma MessageExtends(c: Config, w: World, a: Action)
    requires a.AckArrives? || a.ReadbackArrives? || a.CollectorHandles? || a.ReplyArrives?
    ensures Extends(w, Step(c, w, a))
  {
    HistoryExtends(w, Step(c, w, a));
  }

  lemma StepExtends(c: Config, w: World, a: Action)
    requires Inv(c, w)
    ensures Extends(w, Step(c, w, a))
  {
    match a
    case ProviderHandles(r, process, now, commit) => ProviderExtends(c, w, r, process, now, commit);
    case Submit(id, r, offer, now, commit) => SubmitExtends(c, w, id, r, offer, now, commit);
    case Store(id, commit, collect) => StoreExtends(c, w, id, commit, collect);
    case PersistObservation(id, commit) => PersistExtends(c, w, id, commit);
    case _ =>
      if Opening(a) { OpenKeeps(c, w, a); }
      else if a.AckArrives? || a.ReadbackArrives? || a.CollectorHandles? || a.ReplyArrives? { MessageExtends(c, w, a); }
      else { CallExtends(c, w, a); }
  }

  lemma InitialInv(c: Config, w: World)
    requires Initial(c, w)
    ensures Inv(c, w)
  {
  }
}
