/** The payment dispatch protocol as a state machine.  Any number of adapter processes share
    one journal; a provider and a collector process each own a store.  Messages can be lost,
    delayed and repeated, replies can be forged except for signatures, every process can
    stop at any point, and every store can be reopened under a later generation.
    A schedule is any sequence of actions; an action that is not enabled changes nothing. */
module PaymentProtocol {
  import opened Wrappers
  import opened Admission
  import opened PaymentModel
  import opened PaymentInvariants

  /** Where one adapter call is.  Owner, Custody in the PreDispatch stage and Ready belong to
      the call that created the claim, before its one POST. */
  datatype Pc =
    | Idle
    | Owner(request: Request)
    | Custody(request: Request, package: Package, stage: Stage, ack: Option<Ack>, observed: bool)
    | Ready(request: Request)
    | Waiting(request: Request)
    | Holding(request: Request, receipt: Receipt)

  datatype Worker = Worker(generation: Generation, gate: Gate, custodyEpoch: nat, pc: Pc)

  /** The history of externally visible events, oldest first. */
  datatype Event =
    | ClaimCommitted(request: Request)
    | PackageSent(package: Package)
    | PackageCollected(package: Package)
    | MarkerCommitted(request: Request)
    | PaymentPosted(request: Request)
    | EffectCommitted(request: Request)

  datatype World = World(ledger: Ledger, journal: Journal, collection: Collection, workers: map<nat, Worker>,
                         log: seq<Event>)

  datatype Action =
    | OpenAdapter(id: nat, generation: Generation, gate: Gate)
    | OpenCustody(id: nat, epoch: nat)
    | OpenProvider(generation: Generation)
    | OpenCollector(epoch: nat)
    | Crash(id: nat)
    | GiveUp(id: nat)
    | Submit(id: nat, request: Request, offer: Offer, now: nat, commit: bool)
    | BeginDispatch(id: nat)
    | CollectorHandles(package: Package, epoch: nat, now: nat, commit: bool)
    | AckArrives(id: nat, ack: Ack)
    | ReadbackArrives(id: nat, readback: Readback)
    | PersistObservation(id: nat, commit: bool)
    | Post(id: nat)
    | ProviderHandles(request: Request, process: Generation, now: nat, commit: bool)
    | ReplyArrives(id: nat, reply: Reply)
    | Store(id: nat, commit: bool, collect: bool)
    | Reconcile(id: nat, request: Request)
    | Recover(id: nat, request: Request, admission: bool)

  // ----- what the network can deliver

  /** Some payment row holds exactly this receipt for this request. */
  ghost predicate Issued(l: Ledger, r: Request, receipt: Receipt) {
    exists i :: 0 <= i < |l.payments| && l.payments[i].request == r && l.payments[i].receipt == receipt
  }

  ghost predicate Collects(s: Collection, p: Package, ack: Ack) {
    exists i :: 0 <= i < |s.rows| && s.rows[i].package == p && s.rows[i].ack == ack
  }

  /** Signatures are unforgeable: what carries a store's key was signed by that store. */
  ghost predicate GenuineReply(c: Config, w: World, reply: Reply) {
    reply.Replied? && reply.receipt.Some? && reply.receipt.value.signer == c.providerKey
    ==> Issued(w.ledger, reply.receipt.value.request, reply.receipt.value)
  }

  ghost predicate GenuineAck(c: Config, w: World, ack: Ack) {
    ack.signer == c.collectorKey ==> Collects(w.collection, ack.package, ack)
  }

  ghost predicate GenuineReadback(c: Config, w: World, b: Readback) {
    b.signer == c.collectorKey && b.ack.Some? ==> Collects(w.collection, b.package, b.ack.value)
  }

  // ----- steps

  function PcOf(w: World, id: nat): Pc {
    if id in w.workers then w.workers[id].pc else Idle
  }

  function Goto(w: World, id: nat, pc: Pc): World {
    if id in w.workers then w.(workers := w.workers[id := w.workers[id].(pc := pc)]) else w
  }

  /** The original evidence a recovery may package: a proof or a stored receipt. */
  function Original(c: Config, j: Journal, r: Request, admission: bool): (p: Option<Package>)
    ensures p.Some? ==> p.value.request == r
  {
    if admission then
      var proof := ReadAuthorization(j, r);
      if proof.Some? then Some(AdmissionPackage(r, proof.value)) else None
    else
      var row := FindDispatch(j, r);
      if row.Row? && FromRow(c, j.dispatches[row.index]).Some?
      then Some(ReceiptPackage(r, j.dispatches[row.index].receipt.value)) else None
  }

  function SendPackage(w: World, id: nat, p: Package, stage: Stage): World {
    Goto(w.(log := w.log + [PackageSent(p)]), id, Custody(p.request, p, stage, None, false))
  }

  function SubmitStep(c: Config, w: World, id: nat, r: Request, offer: Offer, now: nat, commit: bool): World {
    if id !in w.workers || PcOf(w, id) != Idle || !WellFormed(r) || r.context.scope != c.context.scope then w
    else
      var (j, result) := Claim(c, w.journal, r, w.workers[id].generation, w.workers[id].gate, offer, now, commit);
      if result == Created then Goto(w.(journal := j, log := w.log + [ClaimCommitted(r)]), id, Owner(r)) else w
  }

  function BeginStep(c: Config, w: World, id: nat): World {
    match PcOf(w, id)
    case Owner(r) =>
      if c.wrapper != Collected then Goto(w, id, Ready(r))
      else
        var original := Original(c, w.journal, r, true);
        if original.Some? then SendPackage(w, id, original.value, PreDispatch) else Goto(w, id, Idle)
    case _ => w
  }

  function CollectorStep(c: Config, w: World, p: Package, epoch: nat, now: nat, commit: bool): World {
    if PackageSent(p) !in w.log then w
    else
      var s := Collect(c, w.collection, p, epoch, now, commit).0;
      w.(collection := s, log := if s == w.collection then w.log else w.log + [PackageCollected(p)])
  }

  function AckStep(c: Config, w: World, id: nat, ack: Ack): World {
    match PcOf(w, id)
    case Custody(r, p, stage, None, _) =>
      Goto(w, id, if AckVerifies(c, ack, p, w.workers[id].custodyEpoch)
                  then Custody(r, p, stage, Some(ack), false) else Idle)
    case _ => w
  }

  function ReadbackStep(c: Config, w: World, id: nat, b: Readback): World {
    match PcOf(w, id)
    case Custody(r, p, stage, Some(ack), _) =>
      Goto(w, id, if ReadbackVerifies(c, b, p, ack, w.workers[id].custodyEpoch)
                  then Custody(r, p, stage, Some(ack), true) else Idle)
    case _ => w
  }

  function PersistStep(c: Config, w: World, id: nat, commit: bool): World {
    match PcOf(w, id)
    case Custody(r, p, stage, Some(ack), true) =>
      var (j, ok) := Persist(c, w.journal, Observation(p, ack, stage), w.workers[id].custodyEpoch, commit);
      if ok && stage == PreDispatch then Goto(w.(journal := j, log := w.log + [MarkerCommitted(r)]), id, Ready(r))
      else Goto(w.(journal := j), id, Idle)
    case _ => w
  }

  function PostStep(w: World, id: nat): World {
    match PcOf(w, id)
    case Ready(r) => Goto(w, id, Waiting(r)).(log := w.log + [PaymentPosted(r)])
    case _ => w
  }

  function ProviderStep(c: Config, w: World, r: Request, process: Generation, now: nat, commit: bool): World {
    if PaymentPosted(r) !in w.log then w
    else
      var l := PostPayment(c, w.ledger, r, process, now, commit).0;
      w.(ledger := l, log := if l.effects == w.ledger.effects then w.log else w.log + [EffectCommitted(r)])
  }

  function ReplyStep(c: Config, w: World, id: nat, reply: Reply): World {
    match PcOf(w, id)
    case Waiting(r) =>
      Goto(w, id, if && reply.Replied? && reply.status == 200 && reply.receipt.Some?
                     && ReceiptVerifies(c, reply.receipt.value, r)
                  then Holding(r, reply.receipt.value) else Idle)
    case _ => w
  }

  /** `collect`: this call also carries the receipt to the collector. */
  function StoreStep(c: Config, w: World, id: nat, commit: bool, collect: bool): World {
    match PcOf(w, id)
    case Holding(r, receipt) =>
      var (j, ok) := StoreReceipt(c, w.journal, r, receipt, commit);
      var w' := w.(journal := j);
      if ok && collect && c.wrapper == Collected then SendPackage(w', id, ReceiptPackage(r, receipt), PostEffect)
      else Goto(w', id, Idle)
    case _ => w
  }

  /** Reconciliation only ever waits for a lookup of an existing, unresolved claim. */
  function ReconcileStep(c: Config, w: World, id: nat, r: Request): World {
    var row := FindDispatch(w.journal, r);
    if PcOf(w, id) == Idle && row.Row? && FromRow(c, w.journal.dispatches[row.index]).None?
    then Goto(w, id, Waiting(r)) else w
  }

  function RecoverStep(c: Config, w: World, id: nat, r: Request, admission: bool): World {
    var original := Original(c, w.journal, r, admission);
    if id in w.workers && PcOf(w, id) == Idle && original.Some? then SendPackage(w, id, original.value, Recovery) else w
  }

  ghost function Step(c: Config, w: World, a: Action): World {
    match a
    case OpenAdapter(id, g, gate) =>
      if Reopen(w.journal.generation, g).None? then w
      else
        var reopened := w.(journal := w.journal.(generation := g));
        if c.wrapper != Native && !Configured(gate) then reopened
        else reopened.(workers := w.workers[id := Worker(g, gate, w.journal.custodyEpoch, Idle)])
    case OpenCustody(id, epoch) =>
      if id !in w.workers || epoch < w.journal.custodyEpoch then w
      else
        var worker := w.workers[id].(custodyEpoch := epoch, pc := Idle);
        w.(journal := w.journal.(custodyEpoch := epoch), workers := w.workers[id := worker])
    case OpenProvider(g) => if Reopen(w.ledger.generation, g).None? then w else w.(ledger := w.ledger.(generation := g))
    case OpenCollector(epoch) =>
      if epoch < w.collection.epoch then w else w.(collection := w.collection.(epoch := epoch))
    case Crash(id) => w.(workers := w.workers - {id})
    case GiveUp(id) => Goto(w, id, Idle)
    case Submit(id, r, offer, now, commit) => SubmitStep(c, w, id, r, offer, now, commit)
    case BeginDispatch(id) => BeginStep(c, w, id)
    case CollectorHandles(p, epoch, now, commit) => CollectorStep(c, w, p, epoch, now, commit)
    case AckArrives(id, ack) => if GenuineAck(c, w, ack) then AckStep(c, w, id, ack) else w
    case ReadbackArrives(id, b) => if GenuineReadback(c, w, b) then ReadbackStep(c, w, id, b) else w
    case PersistObservation(id, commit) => PersistStep(c, w, id, commit)
    case Post(id) => PostStep(w, id)
    case ProviderHandles(r, process, now, commit) => ProviderStep(c, w, r, process, now, commit)
    case ReplyArrives(id, reply) => if GenuineReply(c, w, reply) then ReplyStep(c, w, id, reply) else w
    case Store(id, commit, collect) => StoreStep(c, w, id, commit, collect)
    case Reconcile(id, r) => ReconcileStep(c, w, id, r)
    case Recover(id, r, admission) => RecoverStep(c, w, id, r, admission)
  }

  ghost function Run(c: Config, w: World, actions: seq<Action>): World
    decreases |actions|
  {
    if actions == [] then w else Run(c, Step(c, w, actions[0]), actions[1..])
  }

  ghost predicate Initial(c: Config, w: World) {
    && (exists g :: w.ledger == Ledger(g, c.initialBalances, [], []))
    && (exists g, e :: w.journal == Journal(g, [], map[], e, [], map[]))
    && w.collection.rows == [] && w.workers == map[] && w.log == []
    && forall a :: a in c.initialBalances ==> c.initialBalances[a] < BALANCE_LIMIT
  }

  // ----- histories

  ghost predicate Precedes(log: seq<Event>, a: Event, b: Event) {
    forall j :: 0 <= j < |log| && log[j] == b ==> a in log[..j]
  }

  ghost predicate AtMostOnce(log: seq<Event>, e: Event) {
    forall i, j :: 0 <= i < j < |log| ==> !(log[i] == e && log[j] == e)
  }

  lemma PrecedesGrows(log: seq<Event>, e: Event, a: Event, b: Event)
    requires Precedes(log, a, b) && (e == b ==> a in log)
    ensures Precedes(log + [e], a, b)
  {
    forall j | 0 <= j < |log| + 1 && (log + [e])[j] == b ensures a in (log + [e])[..j] {
      assert (log + [e])[..j] == log[..j];
    }
  }

  lemma PrecedesTrans(log: seq<Event>, a: Event, b: Event, e: Event)
    requires Precedes(log, a, b) && Precedes(log, b, e)
    ensures Precedes(log, a, e)
  {
  }

  // ----- the invariant

  ghost predicate Claims(w: World, r: Request) { r in DispatchRequests(w.journal.dispatches) }

  ghost predicate HasEffect(w: World, r: Request) {
    exists i :: 0 <= i < |w.ledger.payments| && w.ledger.payments[i].request == r && w.ledger.payments[i].settled
  }

  /** This call created the claim and has not yet POSTed. */
  predicate Owns(pc: Pc, r: Request) {
    match pc
    case Owner(q) => q == r
    case Custody(q, _, stage, _, _) => q == r && stage == PreDispatch
    case Ready(q) => q == r
    case _ => false
  }

  ghost predicate PcOk(c: Config, w: World, pc: Pc) {
    match pc
    case Idle => true
    case Owner(r) => Claims(w, r) && PaymentPosted(r) !in w.log
    case Custody(r, p, stage, ack, observed) =>
      && p.request == r && Claims(w, r)
      && (ack.Some? ==> ack.value.package == p)
      && (observed ==> ack.Some? && PackageCollected(p) in w.log)
      && (stage == PreDispatch ==> PaymentPosted(r) !in w.log && r in w.journal.proofs
                                   && p == AdmissionPackage(r, w.journal.proofs[r]))
    case Ready(r) =>
      && Claims(w, r) && PaymentPosted(r) !in w.log
      && (c.wrapper == Collected ==> MarkerCommitted(r) in w.log)
    case Waiting(r) => Claims(w, r)
    case Holding(r, receipt) => Claims(w, r) && Issued(w.ledger, r, receipt)
  }

  /** Every gated process was opened with a configuration that the gate accepts, its own. */
  ghost predicate GatesOk(c: Config, w: World) {
    c.wrapper != Native ==> forall id :: id in w.workers ==> Configured(w.workers[id].gate)
  }

  ghost predicate WorkersOk(c: Config, w: World) {
    && GatesOk(c, w)
    && (forall id :: id in w.workers ==> PcOk(c, w, w.workers[id].pc))
    && (forall a, b, r :: a in w.workers && b in w.workers && a != b
          ==> !(Owns(w.workers[a].pc, r) && Owns(w.workers[b].pc, r)))
  }

  /** Stored terminal results are receipts the provider really issued. */
  ghost predicate Linked(w: World) {
    forall i :: 0 <= i < |w.journal.dispatches| && w.journal.dispatches[i].receipt.Some?
      ==> Issued(w.ledger, w.journal.dispatches[i].request, w.journal.dispatches[i].receipt.value)
  }

  ghost predicate RequestOk(c: Config, w: World, r: Request) {
    && (ClaimCommitted(r) in w.log <==> Claims(w, r))
    && Precedes(w.log, ClaimCommitted(r), PaymentPosted(r))
    && (c.wrapper == Collected ==> Precedes(w.log, MarkerCommitted(r), PaymentPosted(r)))
    && AtMostOnce(w.log, PaymentPosted(r)) && AtMostOnce(w.log, EffectCommitted(r))
    && Precedes(w.log, PaymentPosted(r), EffectCommitted(r))
    && (EffectCommitted(r) in w.log <==> HasEffect(w, r))
    && (r in PaymentRequests(w.ledger.payments) ==> PaymentPosted(r) in w.log)
    && (MarkerCommitted(r) in w.log <==> r in w.journal.markers)
    && (r in w.journal.markers ==>
          r in w.journal.proofs && w.journal.markers[r].package == AdmissionPackage(r, w.journal.proofs[r])
          && Precedes(w.log, PackageCollected(w.journal.markers[r].package), MarkerCommitted(r)))
  }

  ghost predicate PackageOk(c: Config, w: World, p: Package) {
    && (PackageSent(p) in w.log ==> Claims(w, p.request))
    && (PackageCollected(p) in w.log <==> exists i :: 0 <= i < |w.collection.rows| && w.collection.rows[i].package == p)
    && Precedes(w.log, ClaimCommitted(p.request), PackageCollected(p))
  }

  ghost predicate RequestsOk(c: Config, w: World) { forall r :: RequestOk(c, w, r) }

  ghost predicate PackagesOk(c: Config, w: World) { forall p :: PackageOk(c, w, p) }

  ghost predicate Inv(c: Config, w: World) {
    && JournalOk(c, w.journal) && LedgerOk(c, w.ledger)
    && Linked(w) && WorkersOk(c, w) && RequestsOk(c, w) && PackagesOk(c, w)
  }
}
