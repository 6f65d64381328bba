/** The durable stores of the payment pilot as values: the provider's ledger, the adapter's
    dispatch journal (with admission proofs and custody markers) and the evidence
    collector.  Every operation is one transaction and one function on store values; the
    flag `commit` is false when the transaction rolls back. */
module PaymentModel {
  import opened Wrappers
  import opened Admission

  /** Whether claims carry an admission proof, and whether the first POST waits for custody. */
  datatype Wrapper = Native | Gated | Collected

  datatype Config = Config(wrapper: Wrapper, context: Context, providerId: string, providerKey: string,
                           collectorKey: string, initialBalances: map<string, nat>)

  /** The first amount with more than 78 decimal digits. */
  const TEN_TO_39: nat := 1_000_000_000_000_000_000_000_000_000_000_000_000_000
  const BALANCE_LIMIT: nat := TEN_TO_39 * TEN_TO_39

  predicate WellFormed(r: Request) {
    r.source != r.beneficiary && 0 < r.amount < BALANCE_LIMIT
  }

  // ----- immutable request identity

  predicate SharesIdentity(a: Request, b: Request) {
    a.operationId == b.operationId || a.key == b.key
  }

  /** Positions of the rows holding the request's operation id or its idempotency key. */
  function Matches(rows: seq<Request>, r: Request): (m: seq<nat>)
    ensures forall k :: 0 <= k < |m| ==> m[k] < |rows| && SharesIdentity(rows[m[k]], r)
    ensures forall i :: 0 <= i < |rows| && SharesIdentity(rows[i], r) ==> i in m
  {
    if rows == [] then []
    else
      var n := |rows| - 1;
      Matches(rows[..n], r) + (if SharesIdentity(rows[n], r) then [n] else [])
  }

  datatype Found = Missing | Conflict | Row(index: nat)

  function Find(rows: seq<Request>, r: Request): (f: Found)
    ensures f.Row? ==> f.index < |rows| && rows[f.index] == r
  {
    var m := Matches(rows, r);
    if m == [] then Missing
    else if |m| != 1 || rows[m[0]] != r then Conflict
    else Row(m[0])
  }

  /** Operation ids and idempotency keys are each used by at most one row. */
  ghost predicate Distinct(rows: seq<Request>) {
    forall i, j :: 0 <= i < j < |rows| ==> !SharesIdentity(rows[i], rows[j])
  }

  lemma {:induction false} MatchesOnlyOwnRow(rows: seq<Request>, i: nat)
    requires Distinct(rows) && i < |rows|
    ensures Matches(rows, rows[i]) == [i]
  {
    var n := |rows| - 1;
    if i < n {
      assert rows[..n][i] == rows[i];
      MatchesOnlyOwnRow(rows[..n], i);
    } else {
      NoMatches(rows[..n], rows[i]);
    }
  }

  lemma {:induction false} NoMatches(rows: seq<Request>, r: Request)
    requires forall i :: 0 <= i < |rows| ==> !SharesIdentity(rows[i], r)
    ensures Matches(rows, r) == []
  {
    if rows != [] { NoMatches(rows[..|rows| - 1], r); }
  }

  /** With distinct identities the lookup is exact: a stored request finds itself, a request
      with an unused identity finds nothing, and anything else conflicts. */
  lemma FindIsExact(rows: seq<Request>, r: Request)
    requires Distinct(rows)
    ensures Find(rows, r).Row? <==> r in rows
    ensures Find(rows, r).Missing? <==> forall i :: 0 <= i < |rows| ==> !SharesIdentity(rows[i], r)
    ensures forall i :: 0 <= i < |rows| && rows[i] == r ==> Find(rows, r) == Row(i)
  {
    forall i | 0 <= i < |rows| && rows[i] == r ensures Find(rows, r) == Row(i) {
      MatchesOnlyOwnRow(rows, i);
    }
    if forall i :: 0 <= i < |rows| ==> !SharesIdentity(rows[i], r) { NoMatches(rows, r); }
  }

  // ----- generation fencing

  /** A later epoch replaces the stored generation; the same epoch must name the same
      configuration; an earlier one is refused. */
  function Reopen(stored: Generation, opening: Generation): Option<Generation> {
    if opening.epoch < stored.epoch || (opening.epoch == stored.epoch && opening != stored) then None
    else Some(opening)
  }

  /** Rows were added in epoch order, one configuration per epoch, none ahead of the store. */
  ghost predicate Fenced(rows: seq<Request>, stored: Generation) {
    && (forall i :: 0 <= i < |rows| ==> NotAfter(rows[i].generation, stored))
    && (forall i, j :: 0 <= i < j < |rows| ==> NotAfter(rows[i].generation, rows[j].generation))
  }

  /** Fencing in terms of epochs: rows never come in an earlier epoch than the ones before them,
      nor ahead of the store, and within one epoch there is one configuration. */
  lemma FencedWhen(rows: seq<Request>, stored: Generation)
    requires Fenced(rows, stored)
    ensures forall i :: 0 <= i < |rows| ==>
              && rows[i].generation.epoch <= stored.epoch
              && (rows[i].generation.epoch == stored.epoch ==> rows[i].generation == stored)
    ensures forall i, j :: 0 <= i < j < |rows| ==>
              && rows[i].generation.epoch <= rows[j].generation.epoch
              && (rows[i].generation.epoch == rows[j].generation.epoch ==> rows[i].generation == rows[j].generation)
  {
  }

  predicate NotAfter(a: Generation, b: Generation) {
    a.epoch < b.epoch || a == b
  }

  // ----- receipts

  datatype Reason = InsufficientFunds | UnknownAccount | BalanceLimit | Unlisted
  datatype ReportedStatus = ReportsSettled | ReportsFailed | ReportsOther

  datatype Receipt = Receipt(signer: string, providerId: string, requestDigest: Request, request: Request,
                             status: ReportedStatus, failure: Option<Reason>, effect: Option<Request>, recordedAt: nat)

  predicate ReceiptVerifies(c: Config, receipt: Receipt, r: Request) {
    && receipt.signer == c.providerKey && receipt.providerId == c.providerId
    && receipt.requestDigest == r && receipt.request == r
    && match receipt.status
       case ReportsSettled => receipt.effect == Some(receipt.requestDigest) && receipt.failure == None
       case ReportsFailed => receipt.effect == None && receipt.failure.Some? && receipt.failure != Some(Unlisted)
       case ReportsOther => false
  }

  function SignedReceipt(c: Config, r: Request, failure: Option<Reason>, now: nat): Receipt {
    Receipt(c.providerKey, c.providerId, r, r, if failure == None then ReportsSettled else ReportsFailed,
            failure, if failure == None then Some(r) else None, now)
  }

  // ----- the provider's ledger

  datatype Payment = Payment(request: Request, settled: bool, receipt: Receipt)
  datatype Effect = Effect(request: Request, source: string, beneficiary: string, amount: nat)
  datatype Ledger = Ledger(generation: Generation, balances: map<string, nat>, payments: seq<Payment>,
                           effects: seq<Effect>)

  function PaymentRequests(ps: seq<Payment>): seq<Request> {
    seq(|ps|, i requires 0 <= i < |ps| => ps[i].request)
  }

  function Decide(balances: map<string, nat>, r: Request): Option<Reason> {
    if !(r.source in balances && r.beneficiary in balances) then Some(UnknownAccount)
    else if balances[r.source] < r.amount then Some(InsufficientFunds)
    else if balances[r.beneficiary] + r.amount >= BALANCE_LIMIT then Some(BalanceLimit)
    else None
  }

  function Transfer(balances: map<string, nat>, r: Request): map<string, nat>
    requires Decide(balances, r) == None && WellFormed(r)
  {
    balances[r.source := balances[r.source] - r.amount][r.beneficiary := balances[r.beneficiary] + r.amount]
  }

  /** What an HTTP exchange with the provider can answer; Dropped stands for no answer. */
  datatype Reply = Dropped | Replied(status: int, receipt: Option<Receipt>)

  /** The payment row, its receipt and, if it settles, its effect: all in one transaction. */
  function Pay(c: Config, l: Ledger, r: Request, now: nat): (Ledger, Receipt)
    requires WellFormed(r)
  {
    var failure := Decide(l.balances, r);
    var receipt := SignedReceipt(c, r, failure, now);
    var paid := l.(payments := l.payments + [Payment(r, failure == None, receipt)]);
    (if failure == None
     then paid.(balances := Transfer(l.balances, r),
                effects := l.effects + [Effect(r, r.source, r.beneficiary, r.amount)])
     else paid,
     receipt)
  }

  function PostPayment(c: Config, l: Ledger, r: Request, process: Generation, now: nat, commit: bool): (Ledger, Reply) {
    if !WellFormed(r) || r.context.scope != c.context.scope then (l, Replied(400, None))
    else match Find(PaymentRequests(l.payments), r)
      case Row(i) => (l, Replied(200, Some(l.payments[i].receipt)))
      case Conflict => (l, Replied(409, None))
      case Missing =>
        if l.generation != process || r.context != c.context || r.generation != process then (l, Replied(400, None))
        else if !commit then (l, Dropped)
        else
          var (l', receipt) := Pay(c, l, r, now);
          (l', Replied(200, Some(receipt)))
  }

  function LookupPayment(l: Ledger, r: Request): Reply {
    match Find(PaymentRequests(l.payments), r)
    case Missing => Replied(404, None)
    case Conflict => Replied(409, None)
    case Row(i) => Replied(200, Some(l.payments[i].receipt))
  }

  // ----- custody packages, acknowledgements and the collector

  datatype Package =
    | AdmissionPackage(request: Request, record: ProofRecord)
    | ReceiptPackage(request: Request, receipt: Receipt)

  predicate SameKind(a: Package, b: Package) {
    a.request == b.request && a.AdmissionPackage? == b.AdmissionPackage?
  }

  /** A package whose evidence is about its own request. */
  predicate Coherent(p: Package) {
    match p
    case AdmissionPackage(r, record) => record.request == r
    case ReceiptPackage(r, receipt) => receipt.requestDigest == r && receipt.request == r
  }

  datatype Ack = Ack(signer: string, package: Package, epoch: nat, recordedAt: nat)
  datatype Readback = Readback(signer: string, epoch: nat, package: Package, ack: Option<Ack>)
  datatype CollectionRow = CollectionRow(package: Package, ack: Ack)
  datatype Collection = Collection(epoch: nat, rows: seq<CollectionRow>)

  /** The first row for the package's request and kind. */
  function KindRow(rows: seq<CollectionRow>, p: Package): (i: Option<nat>)
    ensures i.Some? ==> i.value < |rows| && SameKind(rows[i.value].package, p)
    ensures i.None? ==> forall j :: 0 <= j < |rows| ==> !SameKind(rows[j].package, p)
  {
    if rows == [] then None
    else
      var n := |rows| - 1;
      var earlier := KindRow(rows[..n], p);
      if earlier.Some? then earlier else if SameKind(rows[n].package, p) then Some(n) else None
  }

  function Collect(c: Config, s: Collection, p: Package, epoch: nat, now: nat, commit: bool)
    : (Collection, Option<Ack>)
  {
    if !Coherent(p) || p.request.context != c.context then (s, None)
    else match KindRow(s.rows, p)
      case Some(i) => (s, if s.rows[i].package == p then Some(s.rows[i].ack) else None)
      case None =>
        if s.epoch != epoch || !commit then (s, None)
        else
          var ack := Ack(c.collectorKey, p, epoch, now);
          (s.(rows := s.rows + [CollectionRow(p, ack)]), Some(ack))
  }

  predicate AckVerifies(c: Config, ack: Ack, p: Package, epoch: nat) {
    ack.signer == c.collectorKey && ack.package == p && ack.epoch <= epoch
  }

  predicate ReadbackVerifies(c: Config, b: Readback, p: Package, ack: Ack, epoch: nat) {
    b.signer == c.collectorKey && b.epoch == epoch && b.package == p && b.ack == Some(ack)
  }

  // ----- the dispatch journal

  datatype DispatchState = Claimed | Settled | Failed
  datatype Dispatch = Dispatch(request: Request, state: DispatchState, receipt: Option<Receipt>, claimedAt: nat)
  datatype Stage = PreDispatch | PostEffect | Recovery
  datatype Observation = Observation(package: Package, ack: Ack, stage: Stage)

  datatype Journal = Journal(generation: Generation, dispatches: seq<Dispatch>, proofs: map<Request, ProofRecord>,
                             custodyEpoch: nat, observations: seq<Observation>, markers: map<Request, Observation>)

  function DispatchRequests(ds: seq<Dispatch>): seq<Request> {
    seq(|ds|, i requires 0 <= i < |ds| => ds[i].request)
  }

  function FindDispatch(j: Journal, r: Request): (f: Found)
    ensures f.Row? ==> f.index < |j.dispatches| && j.dispatches[f.index].request == r
  {
    Find(DispatchRequests(j.dispatches), r)
  }

  datatype ClaimResult = ClaimConflict | ClaimRefused | Existing(index: nat) | Created

  /** An existing claim resolves before any admission check; a new one needs the current
      generation and, behind the gate of the claiming process, an admission whose proof commits
      with the claim. */
  function Claim(c: Config, j: Journal, r: Request, process: Generation, gate: Gate, offer: Offer, now: nat,
                 commit: bool)
    : (Journal, ClaimResult)
  {
    match FindDispatch(j, r)
    case Row(i) => (j, Existing(i))
    case Conflict => (j, ClaimConflict)
    case Missing =>
      if j.generation != process || r.context != c.context || r.generation != process then (j, ClaimRefused)
      else if c.wrapper != Native && (!Admitted(r, offer, gate, now) || r in j.proofs) then (j, ClaimRefused)
      else if !commit then (j, ClaimRefused)
      else
        var proofs := if c.wrapper == Native then j.proofs else j.proofs[r := ProofOf(r, gate, offer, now)];
        (j.(dispatches := j.dispatches + [Dispatch(r, Claimed, None, now)], proofs := proofs), Created)
  }

  predicate Admitted(r: Request, offer: Offer, gate: Gate, at: nat) {
    offer.problems == [] && Supported(r, offer.evidence, gate, at)
  }

  /** The record that an admission leaves; it embeds the configuration it was made under. */
  function ProofOf(r: Request, gate: Gate, offer: Offer, at: nat): ProofRecord {
    ProofRecord(r, gate, offer.evidence, Admitting(r, offer.evidence, gate, at))
  }

  function TerminalState(receipt: Receipt): DispatchState {
    if receipt.status == ReportsSettled then Settled else Failed
  }

  function Ended(row: Dispatch, receipt: Receipt): Dispatch {
    row.(state := TerminalState(receipt), receipt := Some(receipt))
  }

  /** True: the row is, or already was, terminal with exactly this receipt. */
  function StoreReceipt(c: Config, j: Journal, r: Request, receipt: Receipt, commit: bool): (Journal, bool) {
    if !ReceiptVerifies(c, receipt, r) then (j, false)
    else match FindDispatch(j, r)
      case Missing => (j, false)
      case Conflict => (j, false)
      case Row(i) =>
        var row := j.dispatches[i];
        if row.state != Claimed then (j, row.receipt == Some(receipt))
        else if !commit then (j, false)
        else (j.(dispatches := j.dispatches[i := Ended(row, receipt)]), true)
  }

  function Persist(c: Config, j: Journal, o: Observation, epoch: nat, commit: bool): (Journal, bool) {
    var r := o.package.request;
    if !Coherent(o.package) || j.custodyEpoch != epoch || !FindDispatch(j, r).Row? then (j, false)
    else if o.stage == PreDispatch && (|| j.dispatches[FindDispatch(j, r).index].state != Claimed
                                       || !o.package.AdmissionPackage? || r in j.markers)
         then (j, false)
    else if !commit then (j, false)
    else
      var markers := if o.stage == PreDispatch then j.markers[r := o] else j.markers;
      (j.(observations := j.observations + [o], markers := markers), true)
  }

  /** The state a reader reports for a row: a terminal one only with a receipt that verifies. */
  function FromRow(c: Config, row: Dispatch): Option<DispatchState> {
    if row.state != Claimed && row.receipt.Some? && ReceiptVerifies(c, row.receipt.value, row.request)
       && TerminalState(row.receipt.value) == row.state
    then Some(row.state) else None
  }

  /** The admission proof of a claim, or None when a reader must not rely on one. */
  function ReadAuthorization(j: Journal, r: Request): Option<ProofRecord> {
    if FindDispatch(j, r).Row? && r in j.proofs && Rechecks(j.proofs[r]) && j.proofs[r].request == r
       && j.proofs[r].decision.admittedAt == Some(j.dispatches[FindDispatch(j, r).index].claimedAt)
    then Some(j.proofs[r]) else None
  }
}
