/** The stores as objects whose tables the transactions update step by step, undoing every
    step on a rollback.  Each method is proved to be the transaction of PaymentModel. */
module PaymentStores {
  import opened Wrappers
  import opened Admission
  import opened PaymentModel

  class ProviderStore {
    const c: Config
    var generation: Generation
    var balances: map<string, nat>
    var payments: seq<Payment>
    var effects: seq<Effect>

    constructor (c: Config, generation: Generation)
      ensures this.c == c && State() == Ledger(generation, c.initialBalances, [], [])
    {
      this.c, this.generation, balances, payments, effects := c, generation, c.initialBalances, [], [];
    }

    ghost function State(): Ledger
      reads this
    {
      Ledger(generation, balances, payments, effects)
    }

    /** Reopening never reseeds balances. */
    method Open(opening: Generation) returns (ok: bool)
      modifies this`generation
      ensures ok == Reopen(old(generation), opening).Some?
      ensures generation == (if ok then opening else old(generation))
    {
      if opening.epoch < generation.epoch
         || (opening.epoch == generation.epoch && opening.configuration != generation.configuration) {
        return false;
      }
      if opening.epoch > generation.epoch { generation := opening; }
      return true;
    }

    method ApplyPayment(r: Request, process: Generation, now: nat, commit: bool) returns (reply: Reply)
      modifies this
      ensures (State(), reply) == PostPayment(c, old(State()), r, process, now, commit)
    {
      if !WellFormed(r) || r.context.scope != c.context.scope { return Replied(400, None); }
      var existing := Find(PaymentRequests(payments), r);
      if existing.Conflict? { return Replied(409, None); }
      if existing.Row? { return Replied(200, Some(payments[existing.index].receipt)); }
      if generation != process { return Replied(400, None); }
      if r.context != c.context || r.generation != process { return Replied(400, None); }
      var savedBalances, savedEffects, savedPayments := balances, effects, payments;
      var failure: Option<Reason> := None;
      if !(r.source in balances && r.beneficiary in balances) {
        failure := Some(UnknownAccount);
      } else if balances[r.source] < r.amount {
        failure := Some(InsufficientFunds);
      } else if balances[r.beneficiary] + r.amount >= BALANCE_LIMIT {
        failure := Some(BalanceLimit);
      }
      if failure == None {
        var debited, credited := balances[r.source] - r.amount, balances[r.beneficiary] + r.amount;
        balances := balances[r.source := debited];
        balances := balances[r.beneficiary := credited];
        effects := effects + [Effect(r, r.source, r.beneficiary, r.amount)];
      }
      var receipt := SignedReceipt(c, r, failure, now);
      payments := payments + [Payment(r, failure == None, receipt)];
      if !commit {
        balances, effects, payments := savedBalances, savedEffects, savedPayments;
        return Dropped;
      }
      return Replied(200, Some(receipt));
    }
  }

  class CollectorStore {
    const c: Config
    var epoch: nat
    var rows: seq<CollectionRow>

    constructor (c: Config, epoch: nat)
      ensures this.c == c && State() == Collection(epoch, [])
    {
      this.c, this.epoch, rows := c, epoch, [];
    }

    ghost function State(): Collection
      reads this
    {
      Collection(epoch, rows)
    }

    method Collect(p: Package, process: nat, now: nat, commit: bool) returns (ack: Option<Ack>)
      modifies this`rows
      ensures (State(), ack) == PaymentModel.Collect(c, old(State()), p, process, now, commit)
    {
      if !Coherent(p) || p.request.context != c.context { return None; }
      var existing := KindRow(rows, p);
      if existing.Some? {
        if rows[existing.value].package != p { return None; }
        return Some(rows[existing.value].ack);
      }
      if epoch != process { return None; }
      var saved := rows;
      var signed := Ack(c.collectorKey, p, process, now);
      rows := rows + [CollectionRow(p, signed)];
      if !commit {
        rows := saved;
        return None;
      }
      return Some(signed);
    }
  }

  class DispatchJournal {
    const c: Config
    var generation: Generation
    var dispatches: seq<Dispatch>
    var proofs: map<Request, ProofRecord>
    var custodyEpoch: nat
    var observations: seq<Observation>
    var markers: map<Request, Observation>

    constructor (c: Config, generation: Generation, custodyEpoch: nat)
      ensures this.c == c && State() == Journal(generation, [], map[], custodyEpoch, [], map[])
    {
      this.c, this.generation, this.custodyEpoch := c, generation, custodyEpoch;
      dispatches, proofs, observations, markers := [], map[], [], map[];
    }

    ghost function State(): Journal
      reads this
    {
      Journal(generation, dispatches, proofs, custodyEpoch, observations, markers)
    }

    /** The admission callback runs inside the claim's transaction: a refusal or a fault rolls
        proof and claim back together. */
    method Claim(r: Request, process: Generation, gate: Gate, offer: Offer, now: nat, commit: bool)
      returns (result: ClaimResult)
      modifies this`dispatches, this`proofs
      ensures (State(), result) == PaymentModel.Claim(c, old(State()), r, process, gate, offer, now, commit)
    {
      var existing := Find(DispatchRequests(dispatches), r);
      if existing.Row? { return Existing(existing.index); }
      if existing.Conflict? { return ClaimConflict; }
      if generation != process { return ClaimRefused; }
      if r.context != c.context || r.generation != process { return ClaimRefused; }
      var savedProofs, savedDispatches := proofs, dispatches;
      if c.wrapper != Native {
        var decision := Assess(r, offer.evidence, offer.problems, gate, now);
        if decision.verdict != Authorized || r in proofs { return ClaimRefused; }
        proofs := proofs[r := ProofRecord(r, gate, offer.evidence, decision)];
      }
      dispatches := dispatches + [Dispatch(r, Claimed, None, now)];
      if !commit {
        proofs, dispatches := savedProofs, savedDispatches;
        return ClaimRefused;
      }
      return Created;
    }

    method StoreReceipt(r: Request, receipt: Receipt, commit: bool) returns (stored: bool)
      modifies this`dispatches
      ensures (State(), stored) == PaymentModel.StoreReceipt(c, old(State()), r, receipt, commit)
    {
      if !ReceiptVerifies(c, receipt, r) { return false; }
      var existing := Find(DispatchRequests(dispatches), r);
      if !existing.Row? { return false; }
      var row := dispatches[existing.index];
      if row.state == Settled || row.state == Failed { return row.receipt == Some(receipt); }
      if !commit { return false; }
      dispatches := dispatches[existing.index := row.(state := TerminalState(receipt), receipt := Some(receipt))];
      return true;
    }

    method Persist(o: Observation, epoch: nat, commit: bool) returns (ok: bool)
      modifies this`observations, this`markers
      ensures (State(), ok) == PaymentModel.Persist(c, old(State()), o, epoch, commit)
    {
      if !Coherent(o.package) || custodyEpoch != epoch { return false; }
      var claim := Find(DispatchRequests(dispatches), o.package.request);
      if !claim.Row? || (o.stage == PreDispatch && dispatches[claim.index].state != Claimed) { return false; }
      var saved := observations;
      observations := observations + [o];
      if o.stage == PreDispatch {
        if !o.package.AdmissionPackage? || o.package.request in markers || !commit {
          observations := saved;
          return false;
        }
        markers := markers[o.package.request := o];
      } else if !commit {
        observations := saved;
        return false;
      }
      return true;
    }
  }
}
