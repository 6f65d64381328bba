/** What each transaction of the payment stores answers and writes, told from the rows, dates
    and amounts alone. */
module PaymentAnswers {
  import opened Wrappers
  import opened Admission
  import opened PaymentModel

  // ----- the balance limit

  function Digits(n: nat): nat { if n < 10 then 1 else 1 + Digits(n / 10) }

  function Power10(k: nat): nat { if k == 0 then 1 else 10 * Power10(k - 1) }

  lemma {:induction false} DigitsBelowPower(n: nat, k: nat)
    requires k > 0
    ensures Power10(k) >= 10 && (Digits(n) <= k <==> n < Power10(k))
  {
    if k == 1 {
      assert Power10(1) == 10 * Power10(0);
    } else {
      DigitsBelowPower(n / 10, k - 1);
      assert Power10(k) == 10 * Power10(k - 1);
    }
  }

  lemma {:induction false} Power10Adds(a: nat, b: nat)
    ensures Power10(a + b) == Power10(a) * Power10(b)
  {
    if a > 0 {
      Power10Adds(a - 1, b);
      assert 10 * (Power10(a - 1) * Power10(b)) == (10 * Power10(a - 1)) * Power10(b);
    }
  }

  lemma PowerOf39()
    ensures Power10(39) == TEN_TO_39
  {
    assert Power10(3) == 1000 by { assert Power10(1) == 10 && Power10(2) == 100; }
    Power10Adds(3, 3);
    Power10Adds(6, 6);
    Power10Adds(12, 12);
    Power10Adds(24, 12);
    Power10Adds(36, 3);
  }

  /** A balance is within the limit exactly when it is written with at most 78 decimal digits. */
  lemma LimitIs78Digits(n: nat)
    ensures n < BALANCE_LIMIT <==> Digits(n) <= 78
  {
    PowerOf39();
    Power10Adds(39, 39);
    DigitsBelowPower(n, 78);
  }

  // ----- the provider

  /** The operation id or the idempotency key is in use. */
  ghost predicate Used(rows: seq<Request>, r: Request) {
    exists i :: 0 <= i < |rows| && (rows[i].operationId == r.operationId || rows[i].key == r.key)
  }

  /** No two rows share an operation id or a key. */
  ghost predicate OnceEach(rows: seq<Request>) {
    forall i, j :: 0 <= i < j < |rows| ==> rows[i].operationId != rows[j].operationId && rows[i].key != rows[j].key
  }

  lemma FindTells(rows: seq<Request>, r: Request)
    requires OnceEach(rows)
    ensures match Find(rows, r)
            case Missing => !Used(rows, r)
            case Conflict => Used(rows, r) && r !in rows
            case Row(i) => i < |rows| && rows[i] == r && Used(rows, r)
  {
    FindIsExact(rows, r);
    if i :| 0 <= i < |rows| && (rows[i].operationId == r.operationId || rows[i].key == r.key) {
      assert SharesIdentity(rows[i], r);
    }
  }

  ghost predicate SoundRequest(r: Request) {
    r.source != r.beneficiary && 0 < r.amount && Digits(r.amount) <= 78
  }

  lemma SoundIsWellFormed(r: Request)
    ensures SoundRequest(r) <==> WellFormed(r)
  {
    LimitIs78Digits(r.amount);
  }

  /** A new payment settles exactly when both accounts exist, the payer has the amount and the
      beneficiary's new balance has at most 78 digits; otherwise the receipt says why not. */
  lemma PostSettlesExactly(c: Config, l: Ledger, r: Request, now: nat)
    requires SoundRequest(r) && r.context == c.context && r.generation == l.generation
    requires OnceEach(PaymentRequests(l.payments)) && !Used(PaymentRequests(l.payments), r)
    ensures var (l', reply) := PostPayment(c, l, r, l.generation, now, true);
            && reply.Replied? && reply.status == 200 && reply.receipt.Some?
            && var receipt := reply.receipt.value;
               var known := r.source in l.balances && r.beneficiary in l.balances;
               && receipt.signer == c.providerKey && receipt.providerId == c.providerId && receipt.recordedAt == now
               && receipt.request == r && receipt.requestDigest == r
               && (receipt.status == ReportsSettled <==>
                     && known && r.amount <= l.balances[r.source]
                     && Digits(l.balances[r.beneficiary] + r.amount) <= 78)
               && (receipt.status != ReportsSettled ==> receipt.status == ReportsFailed && receipt.effect == None)
               && (receipt.status == ReportsSettled ==> receipt.effect == Some(r) && receipt.failure == None)
               && (!known ==> receipt.failure == Some(UnknownAccount))
               && (known && l.balances[r.source] < r.amount ==> receipt.failure == Some(InsufficientFunds))
               && (known && r.amount <= l.balances[r.source] && Digits(l.balances[r.beneficiary] + r.amount) > 78 ==>
                     receipt.failure == Some(Reason.BalanceLimit))
               && l'.generation == l.generation
               && l'.payments == l.payments + [Payment(r, receipt.status == ReportsSettled, receipt)]
  {
    SoundIsWellFormed(r);
    FindTells(PaymentRequests(l.payments), r);
    if r.beneficiary in l.balances { LimitIs78Digits(l.balances[r.beneficiary] + r.amount); }
  }

  /** A settled payment moves exactly its amount and leaves one effect; a failed one moves
      nothing and leaves none. */
  lemma PostMovesExactly(c: Config, l: Ledger, r: Request, now: nat)
    requires SoundRequest(r) && r.context == c.context && r.generation == l.generation
    requires OnceEach(PaymentRequests(l.payments)) && !Used(PaymentRequests(l.payments), r)
    ensures var (l', reply) := PostPayment(c, l, r, l.generation, now, true);
            reply.Replied? && reply.receipt.Some? &&
            if reply.receipt.value.status == ReportsSettled
            then && l'.balances.Keys == l.balances.Keys && r.source in l.balances && r.beneficiary in l.balances
                 && l'.balances[r.source] == l.balances[r.source] - r.amount
                 && l'.balances[r.beneficiary] == l.balances[r.beneficiary] + r.amount
                 && (forall a :: a in l.balances && a != r.source && a != r.beneficiary ==>
                       l'.balances[a] == l.balances[a])
                 && l'.effects == l.effects + [Effect(r, r.source, r.beneficiary, r.amount)]
            else l'.balances == l.balances && l'.effects == l.effects
  {
    PostSettlesExactly(c, l, r, now);
    SoundIsWellFormed(r);
    FindTells(PaymentRequests(l.payments), r);
  }

  /** Every other POST leaves the ledger alone: a stored request gets its receipt again, a used
      identity is a conflict, and what is malformed, foreign or stale is rejected. */
  lemma PostOtherwise(c: Config, l: Ledger, r: Request, process: Generation, now: nat, commit: bool)
    requires OnceEach(PaymentRequests(l.payments))
    ensures var (l', reply) := PostPayment(c, l, r, process, now, commit);
            var requests := PaymentRequests(l.payments);
            var readable := SoundRequest(r) && r.context.scope == c.context.scope;
            var current := process == l.generation && r.generation == process && r.context == c.context;
            && (!readable ==> l' == l && reply == Replied(400, None))
            && (readable ==> forall i :: 0 <= i < |l.payments| && l.payments[i].request == r ==>
                  l' == l && reply == Replied(200, Some(l.payments[i].receipt)))
            && (readable && Used(requests, r) && r !in requests ==> l' == l && reply == Replied(409, None))
            && (readable && !Used(requests, r) && !current ==> l' == l && reply == Replied(400, None))
            && (readable && !Used(requests, r) && current && !commit ==> l' == l && reply == Dropped)
  {
    SoundIsWellFormed(r);
    StoredAreFound(c, l, r);
    FindTells(PaymentRequests(l.payments), r);
  }

  lemma StoredAreFound(c: Config, l: Ledger, r: Request)
    requires OnceEach(PaymentRequests(l.payments))
    ensures forall i :: 0 <= i < |l.payments| && l.payments[i].request == r ==>
              Find(PaymentRequests(l.payments), r) == Row(i)
  {
    FindIsExact(PaymentRequests(l.payments), r);
    assert forall i :: 0 <= i < |l.payments| ==> PaymentRequests(l.payments)[i] == l.payments[i].request;
  }

  /** What the read-only lookup answers. */
  lemma LookupAnswers(c: Config, l: Ledger, r: Request)
    requires OnceEach(PaymentRequests(l.payments))
    ensures var requests := PaymentRequests(l.payments);
            && (!Used(requests, r) ==> LookupPayment(l, r) == Replied(404, None))
            && (Used(requests, r) && r !in requests ==> LookupPayment(l, r) == Replied(409, None))
            && (forall i :: 0 <= i < |l.payments| && l.payments[i].request == r ==>
                  LookupPayment(l, r) == Replied(200, Some(l.payments[i].receipt)))
  {
    StoredAreFound(c, l, r);
    FindTells(PaymentRequests(l.payments), r);
  }

  /** Which openings a store accepts, and what it then stores. */
  lemma OpeningIsAccepted(stored: Generation, opening: Generation)
    ensures Reopen(stored, opening).Some? <==>
              || opening.epoch > stored.epoch
              || (opening.epoch == stored.epoch && opening.configuration == stored.configuration)
    ensures Reopen(stored, opening).Some? ==> Reopen(stored, opening).value == opening
  {
  }

  // ----- receipts

  /** A receipt is good for a request exactly when this provider signed it about this request,
      and it is either a settlement naming its effect or a failure with a listed reason. */
  lemma ReceiptIsGoodExactly(c: Config, receipt: Receipt, r: Request)
    ensures ReceiptVerifies(c, receipt, r) <==>
              && receipt.signer == c.providerKey && receipt.providerId == c.providerId
              && receipt.request == r && receipt.requestDigest == r
              && (|| (receipt.status == ReportsSettled && receipt.effect == Some(r) && receipt.failure == None)
                  || (&& receipt.status == ReportsFailed && receipt.effect == None
                      && (|| receipt.failure == Some(InsufficientFunds) || receipt.failure == Some(UnknownAccount)
                          || receipt.failure == Some(Reason.BalanceLimit))))
  {
    if receipt.failure.Some? { ListedReasons(receipt.failure.value); }
  }

  lemma ListedReasons(reason: Reason)
    ensures reason == InsufficientFunds || reason == UnknownAccount || reason == Reason.BalanceLimit
            || reason == Unlisted
  {
  }

  // ----- the dispatch journal

  /** A new claim is made exactly in the current generation and context and, behind the gate,
      with usable evidence that supports it; it adds one row and, behind the gate, its proof. */
  lemma ClaimIsMadeExactly(c: Config, j: Journal, r: Request, process: Generation, gate: Gate, offer: Offer, now: nat,
                           commit: bool)
    requires OnceEach(DispatchRequests(j.dispatches)) && !Used(DispatchRequests(j.dispatches), r)
    ensures var (j', result) := Claim(c, j, r, process, gate, offer, now, commit);
            && (result == Created <==>
                  && commit && j.generation == process && r.generation == process && r.context == c.context
                  && (c.wrapper != Native ==>
                        offer.problems == [] && Supported(r, offer.evidence, gate, now) && r !in j.proofs))
            && (result != Created ==> result == ClaimRefused && j' == j)
            && (result == Created ==>
                  && j'.dispatches == j.dispatches + [Dispatch(r, Claimed, None, now)]
                  && (c.wrapper == Native ==> j' == j.(dispatches := j'.dispatches))
                  && (c.wrapper != Native ==>
                        && j' == j.(dispatches := j'.dispatches, proofs := j.proofs[r := j'.proofs[r]])
                        && j'.proofs[r].request == r && j'.proofs[r].gate == gate
                        && j'.proofs[r].evidence == offer.evidence && j'.proofs[r].decision.verdict == Authorized
                        && j'.proofs[r].decision.admittedAt == Some(now)))
  {
    FindTells(DispatchRequests(j.dispatches), r);
  }

  /** A used identity never gets a second claim, and nothing is written for it. */
  lemma UsedIsNotClaimed(c: Config, j: Journal, r: Request, process: Generation, gate: Gate, offer: Offer, now: nat,
                         commit: bool)
    requires OnceEach(DispatchRequests(j.dispatches)) && Used(DispatchRequests(j.dispatches), r)
    ensures var (j', result) := Claim(c, j, r, process, gate, offer, now, commit);
            && j' == j
            && (if r in DispatchRequests(j.dispatches)
                then result.Existing? && result.index < |j.dispatches| && j.dispatches[result.index].request == r
                else result == ClaimConflict)
  {
    FindIsExact(DispatchRequests(j.dispatches), r);
    FindTells(DispatchRequests(j.dispatches), r);
  }

  /** A good receipt for an unresolved claim ends it as the receipt says; for a resolved one it
      has to be the very same receipt; without a claim or without a good receipt it is refused. */
  lemma ReceiptIsStoredExactly(c: Config, j: Journal, i: nat, receipt: Receipt, commit: bool)
    requires OnceEach(DispatchRequests(j.dispatches)) && i < |j.dispatches|
    ensures var row := j.dispatches[i];
            var (j', stored) := StoreReceipt(c, j, row.request, receipt, commit);
            var state := if receipt.status == ReportsSettled then Settled else Failed;
            if !ReceiptVerifies(c, receipt, row.request) then j' == j && !stored
            else if row.state != Claimed then j' == j && (stored <==> row.receipt == Some(receipt))
            else if !commit then j' == j && !stored
            else && stored
                 && j' == j.(dispatches := j.dispatches[i := Dispatch(row.request, state, Some(receipt),
                                                                      row.claimedAt)])
  {
    var requests := DispatchRequests(j.dispatches);
    assert requests[i] == j.dispatches[i].request;
    FindIsExact(requests, j.dispatches[i].request);
  }

  lemma UnclaimedStoresNothing(c: Config, j: Journal, r: Request, receipt: Receipt, commit: bool)
    requires OnceEach(DispatchRequests(j.dispatches)) && r !in DispatchRequests(j.dispatches)
    ensures StoreReceipt(c, j, r, receipt, commit) == (j, false)
  {
    FindIsExact(DispatchRequests(j.dispatches), r);
  }

  /** What a reader reports of a row. */
  lemma RowIsReported(c: Config, row: Dispatch)
    ensures FromRow(c, row) == Some(Settled) <==>
              && row.state == Settled && row.receipt.Some? && row.receipt.value.status == ReportsSettled
              && ReceiptVerifies(c, row.receipt.value, row.request)
    ensures FromRow(c, row) == Some(Failed) <==>
              && row.state == Failed && row.receipt.Some? && row.receipt.value.status == ReportsFailed
              && ReceiptVerifies(c, row.receipt.value, row.request)
    ensures FromRow(c, row) != Some(Claimed)
  {
  }

  /** A reader finds an admission exactly when the claim has a proof of its own request and time
      that rechecks. */
  lemma AdmissionIsRead(j: Journal, i: nat)
    requires OnceEach(DispatchRequests(j.dispatches)) && i < |j.dispatches|
    ensures var row := j.dispatches[i];
            ReadAuthorization(j, row.request) ==
            if && row.request in j.proofs && j.proofs[row.request].request == row.request
               && j.proofs[row.request].decision.admittedAt == Some(row.claimedAt) && Rechecks(j.proofs[row.request])
            then Some(j.proofs[row.request]) else None
  {
    var requests := DispatchRequests(j.dispatches);
    assert requests[i] == j.dispatches[i].request;
    FindIsExact(requests, j.dispatches[i].request);
  }

  // ----- custody

  /** The evidence in the package is about the package's request. */
  ghost predicate AboutItself(p: Package) {
    if p.AdmissionPackage? then p.record.request == p.request
    else p.receipt.request == p.request && p.receipt.requestDigest == p.request
  }

  ghost predicate Kept(rows: seq<CollectionRow>, p: Package) {
    exists i :: 0 <= i < |rows| && rows[i].package.request == p.request
                && (rows[i].package.AdmissionPackage? <==> p.AdmissionPackage?)
  }

  /** A first package of its kind about its own request is kept and acknowledged by the
      collector's key in the current epoch; nothing else is added. */
  lemma CollectorKeepsExactly(c: Config, s: Collection, p: Package, epoch: nat, now: nat, commit: bool)
    ensures var (s', ack) := Collect(c, s, p, epoch, now, commit);
            && (s' != s <==>
                  AboutItself(p) && p.request.context == c.context && !Kept(s.rows, p) && s.epoch == epoch && commit)
            && (s' != s ==> ack == Some(Ack(c.collectorKey, p, epoch, now))
                            && s' == s.(rows := s.rows + [CollectionRow(p, ack.value)]))
  {
    if i :| 0 <= i < |s.rows| && s.rows[i].package.request == p.request
            && (s.rows[i].package.AdmissionPackage? <==> p.AdmissionPackage?) {
      assert SameKind(s.rows[i].package, p);
    }
    var found := KindRow(s.rows, p);
    if found.Some? { assert SameKind(s.rows[found.value].package, p); }
    var s' := Collect(c, s, p, epoch, now, commit).0;
    assert s' != s ==> |s'.rows| == |s.rows| + 1;
  }

  /** With one row per request and kind, a kept package gets its own acknowledgement again and
      another package in its place gets none. */
  lemma CollectorRepeatsExactly(c: Config, s: Collection, p: Package, i: nat, epoch: nat, now: nat, commit: bool)
    requires AboutItself(p) && p.request.context == c.context && i < |s.rows| && SameKind(s.rows[i].package, p)
    requires forall k :: 0 <= k < |s.rows| && SameKind(s.rows[k].package, p) ==> k == i
    ensures Collect(c, s, p, epoch, now, commit) == (s, if s.rows[i].package == p then Some(s.rows[i].ack) else None)
  {
  }

  lemma AcknowledgementIsGoodExactly(c: Config, ack: Ack, p: Package, b: Readback, epoch: nat)
    ensures AckVerifies(c, ack, p, epoch) <==> ack.signer == c.collectorKey && ack.package == p && ack.epoch <= epoch
    ensures ReadbackVerifies(c, b, p, ack, epoch) <==>
              b.signer == c.collectorKey && b.package == p && b.ack == Some(ack) && b.epoch == epoch
  {
  }

  /** An observation is kept exactly in the current custody epoch for a claimed request; before
      the dispatch only once, for an unresolved claim, and with the admission record. */
  lemma ObservationIsKeptExactly(c: Config, j: Journal, i: nat, o: Observation, epoch: nat, commit: bool)
    requires OnceEach(DispatchRequests(j.dispatches)) && i < |j.dispatches|
    requires j.dispatches[i].request == o.package.request
    ensures var (j', kept) := Persist(c, j, o, epoch, commit);
            var r := o.package.request;
            && (kept <==>
                  && AboutItself(o.package) && j.custodyEpoch == epoch && commit
                  && (o.stage == PreDispatch ==>
                        j.dispatches[i].state == Claimed && o.package.AdmissionPackage? && r !in j.markers))
            && (!kept ==> j' == j)
            && (kept ==> j' == j.(observations := j.observations + [o],
                                  markers := if o.stage == PreDispatch then j.markers[r := o] else j.markers))
  {
    var requests := DispatchRequests(j.dispatches);
    assert requests[i] == j.dispatches[i].request;
    FindIsExact(requests, j.dispatches[i].request);
  }

  lemma UnclaimedKeepsNoObservation(c: Config, j: Journal, o: Observation, epoch: nat, commit: bool)
    requires OnceEach(DispatchRequests(j.dispatches)) && o.package.request !in DispatchRequests(j.dispatches)
    ensures Persist(c, j, o, epoch, commit) == (j, false)
  {
    FindIsExact(DispatchRequests(j.dispatches), o.package.request);
  }
}
