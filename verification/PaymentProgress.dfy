/** What an undisturbed call achieves: the protocol not only never pays twice, it pays. */
module PaymentProgress {
  import opened Wrappers
  import opened Admission
  import opened PaymentModel
  import opened PaymentInvariants
  import opened PaymentProtocol
  import opened PaymentSteps
  import opened PaymentSafety
  import opened PaymentAnswers

  lemma DistinctMeansOnceEach(rows: seq<Request>)
    ensures Distinct(rows) <==> OnceEach(rows)
  {
    if OnceEach(rows) {
      forall i, j | 0 <= i < j < |rows| ensures !SharesIdentity(rows[i], rows[j]) { }
    }
    if Distinct(rows) {
      forall i, j | 0 <= i < j < |rows|
        ensures rows[i].operationId != rows[j].operationId && rows[i].key != rows[j].key
      {
        assert !SharesIdentity(rows[i], rows[j]);
      }
    }
  }

  /** The stores agree on the request's generation, nobody has used its identity, and it is a
      request that this installation serves. */
  ghost predicate Fresh(c: Config, w: World, r: Request) {
    && SoundRequest(r) && r.context == c.context
    && r.generation == w.journal.generation && r.generation == w.ledger.generation
    && !Used(DispatchRequests(w.journal.dispatches), r) && !Used(PaymentRequests(w.ledger.payments), r)
  }

  /** The ledger can pay: both accounts are there, the payer has the amount, and the beneficiary's
      balance stays within 78 digits. */
  ghost predicate Solvent(l: Ledger, r: Request) {
    && r.source in l.balances && r.beneficiary in l.balances && r.amount <= l.balances[r.source]
    && Digits(l.balances[r.beneficiary] + r.amount) <= 78
  }

  ghost predicate IdleIn(w: World, id: nat, r: Request) {
    id in w.workers && w.workers[id].pc == Idle && w.workers[id].generation == r.generation
  }

  // ----- the claim

  /** The world after a submission has committed its claim. */
  ghost predicate ClaimIsIn(c: Config, w: World, w': World, id: nat, r: Request, now: nat) {
    && w'.ledger == w.ledger && w'.collection == w.collection && w'.log == w.log + [ClaimCommitted(r)]
    && w'.journal.dispatches == w.journal.dispatches + [Dispatch(r, PaymentModel.Claimed, None, now)]
    && w'.journal.custodyEpoch == w.journal.custodyEpoch && w'.journal.markers == w.journal.markers
    && w'.journal.generation == w.journal.generation
    && id in w.workers && id in w'.workers && w'.workers[id] == w.workers[id].(pc := Owner(r))
  }

  lemma SubmissionClaims(c: Config, w: World, id: nat, r: Request, offer: Offer, now: nat)
    requires Inv(c, w) && Fresh(c, w, r) && IdleIn(w, id, r)
    requires c.wrapper != Native ==> Admitted(r, offer, w.workers[id].gate, now)
    ensures ClaimIsIn(c, w, Step(c, w, Submit(id, r, offer, now, true)), id, r, now)
  {
    var requests := DispatchRequests(w.journal.dispatches);
    DistinctMeansOnceEach(requests);
    SoundIsWellFormed(r);
    assert r !in requests;
    ClaimIsMadeExactly(c, w.journal, r, r.generation, w.workers[id].gate, offer, now, true);
  }

  // ----- custody

  /** The collector and the custody side of the call work in one epoch. */
  ghost predicate CustodyOpen(w: World, id: nat) {
    && id in w.workers && w.workers[id].custodyEpoch == w.journal.custodyEpoch
    && w.workers[id].custodyEpoch == w.collection.epoch
  }

  /** Nobody has collected anything for a request that nobody has claimed. */
  lemma UnclaimedUncollected(c: Config, w: World, r: Request)
    requires Inv(c, w) && r !in DispatchRequests(w.journal.dispatches)
    ensures forall k :: 0 <= k < |w.collection.rows| ==> w.collection.rows[k].package.request != r
    ensures r !in w.journal.markers
  {
    assert RequestOk(c, w, r) && !Claims(w, r);
    forall k | 0 <= k < |w.collection.rows| ensures w.collection.rows[k].package.request != r {
      var p := w.collection.rows[k].package;
      assert PackageOk(c, w, p) && PackageCollected(p) in w.log;
      if p.request == r { CauseIsPresent(w.log, ClaimCommitted(r), PackageCollected(p)); }
    }
  }

  /** The world after custody: the proof is collected, read back and marked, and the call is
      ready to post. */
  ghost predicate Marked(w: World, w': World, id: nat, r: Request) {
    && w'.ledger == w.ledger && w'.journal.dispatches == w.journal.dispatches
    && w'.journal.generation == w.journal.generation
    && r in w.journal.proofs && id in w'.workers && w'.workers[id].pc == Ready(r)
    && var p := AdmissionPackage(r, w.journal.proofs[r]);
       w'.log == w.log + [PackageSent(p), PackageCollected(p), MarkerCommitted(r)]
  }

  /** A reader finds the request's own proof. */
  ghost predicate ProofReads(j: Journal, r: Request) {
    r in j.proofs && j.proofs[r].request == r && ReadAuthorization(j, r) == Some(j.proofs[r])
  }

  lemma ProofIsRead(c: Config, j: Journal, r: Request)
    requires JournalOk(c, j) && c.wrapper != Native && r in DispatchRequests(j.dispatches)
    ensures ProofReads(j, r)
  {
    ClaimsAreExactlyProofs(c, j, r);
  }

  lemma ProofIsSent(c: Config, w: World, id: nat, r: Request)
    requires c.wrapper == Collected && PcOf(w, id) == Owner(r) && ProofReads(w.journal, r)
    ensures Step(c, w, BeginDispatch(id)) == SendPackage(w, id, AdmissionPackage(r, w.journal.proofs[r]), PreDispatch)
  {
  }

  lemma PackageIsCollected(c: Config, w: World, p: Package, now: nat)
    requires Coherent(p) && p.request.context == c.context && PackageSent(p) in w.log
    requires forall k :: 0 <= k < |w.collection.rows| ==> w.collection.rows[k].package.request != p.request
    ensures var ack := Ack(c.collectorKey, p, w.collection.epoch, now);
            var s := w.collection.(rows := w.collection.rows + [CollectionRow(p, ack)]);
            && Step(c, w, CollectorHandles(p, w.collection.epoch, now, true)) ==
               w.(collection := s, log := w.log + [PackageCollected(p)])
            && Collects(s, p, ack)
  {
    var ack := Ack(c.collectorKey, p, w.collection.epoch, now);
    var s := w.collection.(rows := w.collection.rows + [CollectionRow(p, ack)]);
    assert s.rows[|w.collection.rows|] == CollectionRow(p, ack);
    assert |s.rows| != |w.collection.rows|;
  }

  lemma AckIsTaken(c: Config, w: World, id: nat, p: Package, ack: Ack)
    requires PcOf(w, id) == Custody(p.request, p, PreDispatch, None, false)
    requires Collects(w.collection, p, ack) && ack.package == p && ack.signer == c.collectorKey
    requires ack.epoch == w.workers[id].custodyEpoch
    ensures Step(c, w, AckArrives(id, ack)) == Goto(w, id, Custody(p.request, p, PreDispatch, Some(ack), false))
  {
  }

  lemma ReadbackIsTaken(c: Config, w: World, id: nat, p: Package, ack: Ack)
    requires PcOf(w, id) == Custody(p.request, p, PreDispatch, Some(ack), false) && Collects(w.collection, p, ack)
    ensures Step(c, w, ReadbackArrives(id, Readback(c.collectorKey, w.workers[id].custodyEpoch, p, Some(ack)))) ==
            Goto(w, id, Custody(p.request, p, PreDispatch, Some(ack), true))
  {
  }

  lemma MarkerIsSet(c: Config, w: World, id: nat, p: Package, ack: Ack, i: nat)
    requires PcOf(w, id) == Custody(p.request, p, PreDispatch, Some(ack), true)
    requires OnceEach(DispatchRequests(w.journal.dispatches)) && Coherent(p) && p.AdmissionPackage?
    requires i < |w.journal.dispatches| && w.journal.dispatches[i].request == p.request
    requires w.journal.dispatches[i].state == PaymentModel.Claimed
    requires p.request !in w.journal.markers && w.workers[id].custodyEpoch == w.journal.custodyEpoch
    ensures var w' := Step(c, w, PersistObservation(id, true));
            && w' == w.(journal := w'.journal, log := w.log + [MarkerCommitted(p.request)], workers := w'.workers)
            && w'.journal.dispatches == w.journal.dispatches && w'.journal.generation == w.journal.generation
            && PcOf(w', id) == Ready(p.request)
  {
    ObservationIsKeptExactly(c, w.journal, i, Observation(p, ack, PreDispatch), w.journal.custodyEpoch, true);
  }

  lemma RunOne(c: Config, w: World, a: Action, rest: seq<Action>)
    ensures Run(c, w, [a] + rest) == Run(c, Step(c, w, a), rest)
  {
    assert ([a] + rest)[1..] == rest;
  }

  /** The five steps from a claim to its marker. */
  function CustodySchedule(c: Config, id: nat, p: Package, epoch: nat, now: nat): seq<Action> {
    var ack := Ack(c.collectorKey, p, epoch, now);
    [BeginDispatch(id)] + ([CollectorHandles(p, epoch, now, true)] + ([AckArrives(id, ack)] +
    ([ReadbackArrives(id, Readback(c.collectorKey, epoch, p, Some(ack)))] + ([PersistObservation(id, true)] + []))))
  }

  /** From a claim to the marker: send the proof, collect it, acknowledge it, read it back, and
      persist the observation. */
  lemma CustodyCompletes(c: Config, w: World, id: nat, i: nat, now: nat)
    requires OnceEach(DispatchRequests(w.journal.dispatches)) && c.wrapper == Collected && CustodyOpen(w, id)
    requires i < |w.journal.dispatches| && w.journal.dispatches[i].state == PaymentModel.Claimed
    requires PcOf(w, id) == Owner(w.journal.dispatches[i].request)
    requires w.journal.dispatches[i].request.context == c.context
    requires w.journal.dispatches[i].request !in w.journal.markers
    requires ProofReads(w.journal, w.journal.dispatches[i].request)
    requires forall k :: 0 <= k < |w.collection.rows| ==>
               w.collection.rows[k].package.request != w.journal.dispatches[i].request
    ensures var r := w.journal.dispatches[i].request;
            Marked(w, Run(c, w, CustodySchedule(c, id, AdmissionPackage(r, w.journal.proofs[r]), w.collection.epoch,
                                                now)), id, r)
  {
    var r := w.journal.dispatches[i].request;
    ProofIsSent(c, w, id, r);
    var p, epoch := AdmissionPackage(r, w.journal.proofs[r]), w.collection.epoch;
    var ack := Ack(c.collectorKey, p, epoch, now);
    var sent := SendPackage(w, id, p, PreDispatch);
    assert sent.log[|w.log|] == PackageSent(p);
    PackageIsCollected(c, sent, p, now);
    var collected := Step(c, sent, CollectorHandles(p, epoch, now, true));
    AckIsTaken(c, collected, id, p, ack);
    var acknowledged := Goto(collected, id, Custody(r, p, PreDispatch, Some(ack), false));
    ReadbackIsTaken(c, acknowledged, id, p, ack);
    var read := Goto(acknowledged, id, Custody(r, p, PreDispatch, Some(ack), true));
    MarkerIsSet(c, read, id, p, ack, i);
    CustodyRuns(c, w, id, p, epoch, now, sent, collected, acknowledged, read);
  }

  lemma CustodyRuns(c: Config, w: World, id: nat, p: Package, epoch: nat, now: nat,
                    sent: World, collected: World, acknowledged: World, read: World)
    requires sent == Step(c, w, BeginDispatch(id)) && collected == Step(c, sent, CollectorHandles(p, epoch, now, true))
    requires acknowledged == Step(c, collected, AckArrives(id, Ack(c.collectorKey, p, epoch, now)))
    requires read == Step(c, acknowledged, ReadbackArrives(id, Readback(c.collectorKey, epoch, p,
                                                                        Some(Ack(c.collectorKey, p, epoch, now)))))
    ensures Run(c, w, CustodySchedule(c, id, p, epoch, now)) == Step(c, read, PersistObservation(id, true))
  {
    var ack := Ack(c.collectorKey, p, epoch, now);
    var last := [PersistObservation(id, true)] + [];
    var fourth := [ReadbackArrives(id, Readback(c.collectorKey, epoch, p, Some(ack)))] + last;
    var third := [AckArrives(id, ack)] + fourth;
    RunOne(c, w, BeginDispatch(id), [CollectorHandles(p, epoch, now, true)] + third);
    RunOne(c, sent, CollectorHandles(p, epoch, now, true), third);
    RunOne(c, collected, AckArrives(id, ack), fourth);
    RunOne(c, acknowledged, ReadbackArrives(id, Readback(c.collectorKey, epoch, p, Some(ack))), last);
    RunOne(c, read, PersistObservation(id, true), []);
  }

  // ----- the payment

  /** The world after an undisturbed POST: the provider has decided on the request by its own
      balances, and the journal holds the receipt that says so. */
  ghost predicate Paid(c: Config, w: World, w': World, i: nat, now: nat)
    requires i < |w.journal.dispatches|
  {
    var r, k, settled := w.journal.dispatches[i].request, |w.ledger.payments|,
                         Solvent(w.ledger, w.journal.dispatches[i].request);
    && |w'.ledger.payments| == k + 1 && w'.ledger.payments[k].request == r
    && w'.ledger.payments[k].settled == settled && w'.ledger.payments[k].receipt.recordedAt == now
    && w'.ledger.effects == w.ledger.effects + (if settled then [Effect(r, r.source, r.beneficiary, r.amount)] else [])
    && w'.journal == w.journal.(dispatches := w'.journal.dispatches)
    && w'.journal.dispatches ==
       w.journal.dispatches[i := Dispatch(r, if settled then Settled else Failed, Some(w'.ledger.payments[k].receipt),
                                          w.journal.dispatches[i].claimedAt)]
    && w'.log == w.log + [PaymentPosted(r)] + (if settled then [EffectCommitted(r)] else [])
  }

  /** The receipt of a fresh request, with what it says and does. */
  lemma ProviderDecides(c: Config, l: Ledger, r: Request, now: nat) returns (receipt: PaymentModel.Receipt)
    requires OnceEach(PaymentRequests(l.payments))
    requires SoundRequest(r) && r.context == c.context && r.generation == l.generation
    requires !Used(PaymentRequests(l.payments), r)
    ensures var (l', reply) := PostPayment(c, l, r, l.generation, now, true);
            var settled := Solvent(l, r);
            && reply == Replied(200, Some(receipt))
            && l'.payments == l.payments + [Payment(r, settled, receipt)] && receipt.recordedAt == now
            && (receipt.status == ReportsSettled <==> settled)
            && l'.effects == l.effects + (if settled then [Effect(r, r.source, r.beneficiary, r.amount)] else [])
            && ReceiptVerifies(c, receipt, r)
  {
    PostSettlesExactly(c, l, r, now);
    PostMovesExactly(c, l, r, now);
    receipt := PostPayment(c, l, r, l.generation, now, true).1.receipt.value;
  }

  lemma ProviderPays(c: Config, w: World, r: Request, now: nat) returns (receipt: PaymentModel.Receipt)
    requires OnceEach(PaymentRequests(w.ledger.payments)) && PaymentPosted(r) in w.log
    requires SoundRequest(r) && r.context == c.context && r.generation == w.ledger.generation
    requires !Used(PaymentRequests(w.ledger.payments), r)
    ensures var w' := Step(c, w, ProviderHandles(r, r.generation, now, true));
            var settled := Solvent(w.ledger, r);
            && w' == w.(ledger := w'.ledger, log := w.log + (if settled then [EffectCommitted(r)] else []))
            && w'.ledger.payments == w.ledger.payments + [Payment(r, settled, receipt)]
            && receipt.recordedAt == now && (receipt.status == ReportsSettled <==> settled)
            && ReceiptVerifies(c, receipt, r)
            && w'.ledger.effects ==
               w.ledger.effects + (if settled then [Effect(r, r.source, r.beneficiary, r.amount)] else [])
  {
    receipt := ProviderDecides(c, w.ledger, r, now);
    var effects := PostPayment(c, w.ledger, r, r.generation, now, true).0.effects;
    assert |effects| == |w.ledger.effects| + (if Solvent(w.ledger, r) then 1 else 0);
    assert w.log + [] == w.log;
  }

  lemma ReceiptIsHeld(c: Config, w: World, id: nat, r: Request, k: nat)
    requires PcOf(w, id) == Waiting(r) && k < |w.ledger.payments| && w.ledger.payments[k].request == r
    requires ReceiptVerifies(c, w.ledger.payments[k].receipt, r)
    ensures var receipt := w.ledger.payments[k].receipt;
            Step(c, w, ReplyArrives(id, Replied(200, Some(receipt)))) == Goto(w, id, Holding(r, receipt))
  {
    assert Issued(w.ledger, r, w.ledger.payments[k].receipt);
  }

  lemma RowIsEnded(c: Config, w: World, id: nat, i: nat, receipt: PaymentModel.Receipt)
    requires OnceEach(DispatchRequests(w.journal.dispatches)) && i < |w.journal.dispatches|
    requires w.journal.dispatches[i].state == PaymentModel.Claimed
    requires PcOf(w, id) == Holding(w.journal.dispatches[i].request, receipt)
    requires ReceiptVerifies(c, receipt, w.journal.dispatches[i].request)
    ensures var w', row := Step(c, w, Action.Store(id, true, false)), w.journal.dispatches[i];
            && w'.ledger == w.ledger && w'.log == w.log
            && w'.journal == w.journal.(dispatches :=
                 w.journal.dispatches[i := Dispatch(row.request,
                                                    if receipt.status == ReportsSettled then Settled else Failed,
                                                    Some(receipt), row.claimedAt)])
  {
    ReceiptIsStoredExactly(c, w.journal, i, receipt, true);
  }

  function PaymentSchedule(id: nat, r: Request, receipt: PaymentModel.Receipt, now: nat): seq<Action> {
    [Post(id)] + ([ProviderHandles(r, r.generation, now, true)] +
    ([ReplyArrives(id, Replied(200, Some(receipt)))] + ([Action.Store(id, true, false)] + [])))
  }

  lemma ReadyIsPaid(c: Config, w: World, id: nat, i: nat, now: nat) returns (receipt: PaymentModel.Receipt)
    requires OnceEach(DispatchRequests(w.journal.dispatches)) && OnceEach(PaymentRequests(w.ledger.payments))
    requires i < |w.journal.dispatches| && w.journal.dispatches[i].state == PaymentModel.Claimed
    requires PcOf(w, id) == Ready(w.journal.dispatches[i].request)
    requires var r := w.journal.dispatches[i].request;
             && SoundRequest(r) && r.context == c.context && r.generation == w.ledger.generation
             && !Used(PaymentRequests(w.ledger.payments), r)
    ensures Paid(c, w, Run(c, w, PaymentSchedule(id, w.journal.dispatches[i].request, receipt, now)), i, now)
  {
    var r := w.journal.dispatches[i].request;
    var posted := Goto(w, id, Waiting(r)).(log := w.log + [PaymentPosted(r)]);
    assert posted.log[|w.log|] == PaymentPosted(r);
    receipt := ProviderPays(c, posted, r, now);
    var paid := Step(c, posted, ProviderHandles(r, r.generation, now, true));
    ReceiptIsHeld(c, paid, id, r, |w.ledger.payments|);
    var held := Goto(paid, id, Holding(r, receipt));
    RowIsEnded(c, held, id, i, receipt);
    PaymentRuns(c, w, id, r, receipt, now, posted, paid, held);
  }

  lemma PaymentRuns(c: Config, w: World, id: nat, r: Request, receipt: PaymentModel.Receipt, now: nat,
                    posted: World, paid: World, held: World)
    requires posted == Step(c, w, Post(id)) && paid == Step(c, posted, ProviderHandles(r, r.generation, now, true))
    requires held == Step(c, paid, ReplyArrives(id, Replied(200, Some(receipt))))
    ensures Run(c, w, PaymentSchedule(id, r, receipt, now)) == Step(c, held, Action.Store(id, true, false))
  {
    var last := [Action.Store(id, true, false)] + [];
    var third := [ReplyArrives(id, Replied(200, Some(receipt)))] + last;
    RunOne(c, w, Post(id), [ProviderHandles(r, r.generation, now, true)] + third);
    RunOne(c, posted, ProviderHandles(r, r.generation, now, true), third);
    RunOne(c, paid, ReplyArrives(id, Replied(200, Some(receipt))), last);
    RunOne(c, held, Action.Store(id, true, false), []);
  }

  // ----- a whole call

  lemma {:induction false} RunAppends(c: Config, w: World, a: seq<Action>, b: seq<Action>)
    ensures Run(c, w, a + b) == Run(c, Run(c, w, a), b)
    decreases |a|
  {
    if a == [] {
      assert a + b == b;
    } else {
      assert (a + b)[1..] == a[1..] + b;
      RunAppends(c, Step(c, w, a[0]), a[1..], b);
    }
  }

  /** What nobody has claimed, nobody has posted, collected or marked. */
  ghost predicate Untouched(w: World, r: Request) {
    && PaymentPosted(r) !in w.log && EffectCommitted(r) !in w.log && r !in w.journal.markers
    && forall k :: 0 <= k < |w.collection.rows| ==> w.collection.rows[k].package.request != r
  }

  lemma FreshIsUntouched(c: Config, w: World, r: Request)
    requires Inv(c, w) && r !in DispatchRequests(w.journal.dispatches)
    ensures Untouched(w, r)
  {
    UnclaimedUncollected(c, w, r);
    assert RequestOk(c, w, r) && !Claims(w, r);
    if PaymentPosted(r) in w.log { CauseIsPresent(w.log, ClaimCommitted(r), PaymentPosted(r)); }
    if EffectCommitted(r) in w.log { CauseIsPresent(w.log, PaymentPosted(r), EffectCommitted(r)); }
  }

  /** No operation id and no key ever gets a second row, in the journal or in the ledger. */
  lemma IdentitiesAreUsedOnce(c: Config, w: World)
    requires Reachable(c, w)
    ensures OnceEach(DispatchRequests(w.journal.dispatches)) && OnceEach(PaymentRequests(w.ledger.payments))
  {
    ReachableInv(c, w);
    InvGives(c, w);
  }

  lemma InvGives(c: Config, w: World)
    requires Inv(c, w)
    ensures JournalOk(c, w.journal)
    ensures OnceEach(DispatchRequests(w.journal.dispatches)) && OnceEach(PaymentRequests(w.ledger.payments))
  {
    DistinctMeansOnceEach(DispatchRequests(w.journal.dispatches));
    DistinctMeansOnceEach(PaymentRequests(w.ledger.payments));
  }

  /** From the claim of a fresh request to the moment before its POST. */
  lemma ReachesReady(c: Config, w: World, claimed: World, id: nat, r: Request, now: nat, later: nat)
    returns (custody: seq<Action>)
    requires Untouched(w, r) && r.context == c.context && ClaimIsIn(c, w, claimed, id, r, now)
    requires OnceEach(DispatchRequests(claimed.journal.dispatches))
    requires c.wrapper == Collected ==> CustodyOpen(w, id) && ProofReads(claimed.journal, r)
    ensures var ready := Run(c, claimed, custody);
            && ready.ledger == w.ledger && ready.journal.dispatches == claimed.journal.dispatches
            && PcOf(ready, id) == Ready(r)
            && PaymentPosted(r) !in ready.log && EffectCommitted(r) !in ready.log
  {
    if c.wrapper == Collected {
      var n := |w.journal.dispatches|;
      CustodyCompletes(c, claimed, id, n, later);
      var p := AdmissionPackage(r, claimed.journal.proofs[r]);
      custody := CustodySchedule(c, id, p, claimed.collection.epoch, later);
    } else {
      custody := [BeginDispatch(id)] + [];
      RunOne(c, claimed, BeginDispatch(id), []);
    }
  }

  /** A call can be carried through: from any reachable world in which its request is fresh and,
      behind a gate, admitted, there is a schedule that claims it, takes it into custody where
      custody is due, posts it, and ends its row as settled if the ledger can pay and as failed
      if not, with the effect or without. */
  lemma SubmissionIsCarriedOut(c: Config, w: World, id: nat, r: Request, offer: Offer, now: nat, later: nat)
    returns (actions: seq<Action>)
    requires Reachable(c, w) && Fresh(c, w, r) && IdleIn(w, id, r)
    requires c.wrapper != Native ==> Admitted(r, offer, w.workers[id].gate, now)
    requires c.wrapper == Collected ==> CustodyOpen(w, id)
    ensures var w', n, settled := Run(c, w, actions), |w.journal.dispatches|, Solvent(w.ledger, r);
            && |w'.journal.dispatches| == n + 1
            && w'.journal.dispatches[n].request == r && w'.journal.dispatches[n].receipt.Some?
            && w'.journal.dispatches[n].state == (if settled then Settled else Failed)
            && |w'.ledger.payments| == |w.ledger.payments| + 1
            && w'.ledger.effects ==
               w.ledger.effects + (if settled then [Effect(r, r.source, r.beneficiary, r.amount)] else [])
            && PaymentPosted(r) !in w.log && PaymentPosted(r) in w'.log
            && (EffectCommitted(r) in w'.log <==> settled)
  {
    ReachableInv(c, w);
    var submit := Submit(id, r, offer, now, true);
    var claimed := Step(c, w, submit);
    SubmissionClaims(c, w, id, r, offer, now);
    StepKeepsInv(c, w, submit);
    UnusedIsUnclaimed(w, r);
    FreshIsUntouched(c, w, r);
    InvGives(c, claimed);
    InvGives(c, w);
    assert DispatchRequests(claimed.journal.dispatches)[|w.journal.dispatches|] == r;
    if c.wrapper == Collected { ProofIsRead(c, claimed.journal, r); }
    actions := CarriedOut(c, w, claimed, id, r, now, later);
    RunOne(c, w, submit, actions);
    actions := [submit] + actions;
  }

  lemma CarriedOut(c: Config, w: World, claimed: World, id: nat, r: Request, now: nat, later: nat)
    returns (actions: seq<Action>)
    requires Fresh(c, w, r) && Untouched(w, r) && ClaimIsIn(c, w, claimed, id, r, now)
    requires OnceEach(DispatchRequests(claimed.journal.dispatches)) && OnceEach(PaymentRequests(w.ledger.payments))
    requires c.wrapper == Collected ==> CustodyOpen(w, id) && ProofReads(claimed.journal, r)
    ensures var w', n, settled := Run(c, claimed, actions), |w.journal.dispatches|, Solvent(w.ledger, r);
            && |w'.journal.dispatches| == n + 1
            && w'.journal.dispatches[n].request == r && w'.journal.dispatches[n].receipt.Some?
            && w'.journal.dispatches[n].state == (if settled then Settled else Failed)
            && |w'.ledger.payments| == |w.ledger.payments| + 1
            && w'.ledger.effects ==
               w.ledger.effects + (if settled then [Effect(r, r.source, r.beneficiary, r.amount)] else [])
            && PaymentPosted(r) in w'.log && (EffectCommitted(r) in w'.log <==> settled)
  {
    var custody := ReachesReady(c, w, claimed, id, r, now, later);
    var ready := Run(c, claimed, custody);
    var receipt := ReadyIsPaid(c, ready, id, |w.journal.dispatches|, later);
    var payment := PaymentSchedule(id, r, receipt, later);
    actions := custody + payment;
    RunAppends(c, claimed, custody, payment);
    var w' := Run(c, claimed, actions);
    assert w'.log[|ready.log|] == PaymentPosted(r);
    if Solvent(w.ledger, r) { assert w'.log[|ready.log| + 1] == EffectCommitted(r); }
  }

  lemma UnusedIsUnclaimed(w: World, r: Request)
    requires !Used(DispatchRequests(w.journal.dispatches), r)
    ensures r !in DispatchRequests(w.journal.dispatches)
  {
  }

  // ----- the order of a call

  /** The request is claimed, and its row holds no result that a reader may report. */
  ghost predicate Unresolved(c: Config, j: Journal, r: Request) {
    exists i :: 0 <= i < |j.dispatches| && j.dispatches[i].request == r && FromRow(c, j.dispatches[i]).None?
  }

  /** How one action can move a call on, other than by ending it. */
  ghost predicate Follows(c: Config, w: World, a: Action, id: nat, pc: Pc, pc': Pc) {
    match pc
    case Idle =>
      || (&& pc'.Owner? && a.Submit? && a.id == id && a.request == pc'.request && a.commit
          && SoundRequest(a.request) && a.request.context == c.context)
      || (pc'.Waiting? && a == Reconcile(id, pc'.request) && Unresolved(c, w.journal, pc'.request))
      || (pc'.Custody? && a.Recover? && a.id == id && a.request == pc'.request
          && pc' == Custody(pc'.request, pc'.package, Recovery, None, false))
    case Owner(r) =>
      a == BeginDispatch(id) &&
      if c.wrapper == Collected then pc'.Custody? && pc' == Custody(r, pc'.package, PreDispatch, None, false)
      else pc' == Ready(r)
    case Custody(r, p, stage, None, observed) =>
      && a.AckArrives? && a.id == id && pc' == Custody(r, p, stage, Some(a.ack), false)
      && a.ack.signer == c.collectorKey && a.ack.package == p && Collects(w.collection, p, a.ack)
    case Custody(r, p, stage, Some(ack), observed) =>
      || (&& a.ReadbackArrives? && a.id == id && pc' == Custody(r, p, stage, Some(ack), true)
          && a.readback.signer == c.collectorKey && a.readback.package == p && a.readback.ack == Some(ack)
          && Collects(w.collection, p, ack))
      || (observed && stage == PreDispatch && a == PersistObservation(id, true) && pc' == Ready(r))
    case Ready(r) => a == Post(id) && pc' == Waiting(r)
    case Waiting(r) =>
      && pc'.Holding? && pc'.request == r && a == ReplyArrives(id, Replied(200, Some(pc'.receipt)))
      && pc'.receipt.signer == c.providerKey && pc'.receipt.request == r && Issued(w.ledger, r, pc'.receipt)
    case Holding(r, receipt) =>
      && a.Store? && a.id == id && a.collect && c.wrapper == Collected
      && pc' == Custody(r, ReceiptPackage(r, receipt), PostEffect, None, false)
  }

  /** A process runs one call at a time, in this order: claim, custody, POST, reply, storage; or
      lookup, reply, storage; or recovery.  Every other action leaves the call where it is or
      ends it. */
  lemma CallsProceedInOrder(c: Config, w: World, a: Action, id: nat)
    requires id in w.workers && id in Step(c, w, a).workers
    ensures var pc, pc' := w.workers[id].pc, Step(c, w, a).workers[id].pc;
            pc' == pc || pc' == Idle || Follows(c, w, a, id, pc, pc')
  {
    if a.Submit? { SoundIsWellFormed(a.request); }
  }

  /** Opening a store or a custody side takes effect exactly if its epoch is not behind, and then
      starts idle; a gated adapter needs a gate that limits the age of a status besides. */
  lemma OpeningsWhen(c: Config, w: World, id: nat, g: Generation, gate: Gate, epoch: nat)
    ensures var w' := Step(c, w, OpenAdapter(id, g, gate));
            if g.epoch > w.journal.generation.epoch || g == w.journal.generation
            then && w' == w.(journal := w.journal.(generation := g), workers := w'.workers)
                 && w'.workers == if c.wrapper == Native || gate.maxStatusAge > 0
                                  then w.workers[id := Worker(g, gate, w.journal.custodyEpoch, Idle)] else w.workers
            else w' == w
    ensures Step(c, w, OpenProvider(g)) ==
            if g.epoch > w.ledger.generation.epoch || g == w.ledger.generation
            then w.(ledger := w.ledger.(generation := g)) else w
    ensures var w' := Step(c, w, OpenCustody(id, epoch));
            if id in w.workers && w.journal.custodyEpoch <= epoch
            then && w' == w.(journal := w.journal.(custodyEpoch := epoch), workers := w'.workers)
                 && w'.workers == w.workers[id := Worker(w.workers[id].generation, w.workers[id].gate, epoch, Idle)]
            else w' == w
    ensures Step(c, w, OpenCollector(epoch)) ==
            if w.collection.epoch <= epoch then w.(collection := w.collection.(epoch := epoch)) else w
  {
  }

  /** What is not signed by the right store arrives too, and only ends the call's wait for it. */
  lemma ForgeriesEndTheCall(c: Config, w: World, id: nat, reply: Reply, ack: Ack, readback: Readback)
    ensures PcOf(w, id).Waiting? && reply.Replied? && reply.receipt.Some?
            && reply.receipt.value.signer != c.providerKey ==>
              Step(c, w, ReplyArrives(id, reply)) == Goto(w, id, Idle)
    ensures PcOf(w, id).Custody? && PcOf(w, id).ack.None? && ack.signer != c.collectorKey ==>
              Step(c, w, AckArrives(id, ack)) == Goto(w, id, Idle)
    ensures PcOf(w, id).Custody? && PcOf(w, id).ack.Some? && readback.signer != c.collectorKey ==>
              Step(c, w, ReadbackArrives(id, readback)) == Goto(w, id, Idle)
  {
  }

  /** Every claimed request is one that this installation serves. */
  ghost predicate AllSound(c: Config, w: World) {
    forall i :: 0 <= i < |w.journal.dispatches| ==>
      SoundRequest(w.journal.dispatches[i].request) && w.journal.dispatches[i].request.context == c.context
  }

  lemma SubmitKeepsSound(c: Config, w: World, id: nat, r: Request, offer: Offer, now: nat, commit: bool)
    requires AllSound(c, w)
    ensures AllSound(c, SubmitStep(c, w, id, r, offer, now, commit))
  {
    SoundIsWellFormed(r);
  }

  lemma StoreKeepsSound(c: Config, w: World, id: nat, commit: bool, collect: bool)
    requires AllSound(c, w)
    ensures AllSound(c, StoreStep(c, w, id, commit, collect))
  {
  }

  lemma StepKeepsSound(c: Config, w: World, a: Action)
    requires AllSound(c, w)
    ensures AllSound(c, Step(c, w, a))
  {
    if a.Submit? {
      SubmitKeepsSound(c, w, a.id, a.request, a.offer, a.now, a.commit);
    } else if a.Store? {
      StoreKeepsSound(c, w, a.id, a.commit, a.collect);
    } else {
      assert Step(c, w, a).journal.dispatches == w.journal.dispatches;
    }
  }

  lemma {:induction false} RunKeepsSound(c: Config, w: World, actions: seq<Action>)
    requires AllSound(c, w)
    ensures AllSound(c, Run(c, w, actions))
    decreases |actions|
  {
    if actions != [] {
      StepKeepsSound(c, w, actions[0]);
      RunKeepsSound(c, Step(c, w, actions[0]), actions[1..]);
    }
  }

  /** After every schedule, only well-formed requests of this installation's own context have been
      claimed. */
  lemma ClaimsAreSound(c: Config, w: World)
    requires Reachable(c, w)
    ensures AllSound(c, w)
  {
    var start, actions :| Initial(c, start) && w == Run(c, start, actions);
    RunKeepsSound(c, start, actions);
  }
}
