/** What holds of the payment protocol over every schedule. */
module PaymentSafety {
  import opened Wrappers
  import opened Admission
  import opened PaymentModel
  import opened PaymentInvariants
  import opened PaymentProtocol
  import opened PaymentSteps

  ghost predicate Reachable(c: Config, w: World) {
    exists start, actions :: Initial(c, start) && w == Run(c, start, actions)
  }

  lemma {:induction false} RunKeepsInv(c: Config, w: World, actions: seq<Action>)
    requires Inv(c, w)
    ensures Inv(c, Run(c, w, actions)) && Extends(w, Run(c, w, actions))
    decreases |actions|
  {
    if actions != [] {
      var next := Step(c, w, actions[0]);
      StepKeepsInv(c, w, actions[0]);
      StepExtends(c, w, actions[0]);
      RunKeepsInv(c, next, actions[1..]);
      ExtendsTransitive(w, next, Run(c, next, actions[1..]));
    }
  }

  lemma ReachableInv(c: Config, w: World)
    requires Reachable(c, w)
    ensures Inv(c, w)
  {
    var start, actions :| Initial(c, start) && w == Run(c, start, actions);
    InitialInv(c, start);
    RunKeepsInv(c, start, actions);
  }

  // ----- one POST, one effect

  /** Whatever happens, a request is POSTed at most once and takes effect at most once; the
      effect follows the POST, and the POST follows the committed claim. */
  lemma OnePostOneEffect(c: Config, w: World, r: Request)
    requires Reachable(c, w)
    ensures AtMostOnce(w.log, PaymentPosted(r)) && AtMostOnce(w.log, EffectCommitted(r))
    ensures Precedes(w.log, ClaimCommitted(r), PaymentPosted(r))
    ensures Precedes(w.log, PaymentPosted(r), EffectCommitted(r))
  {
    ReachableInv(c, w);
    assert RequestOk(c, w, r);
  }

  ghost predicate NobodyOwns(w: World, r: Request) {
    forall id :: id in w.workers ==> !Owns(w.workers[id].pc, r)
  }

  /** Nobody comes to own r, and r gets no POST and no marker. */
  ghost predicate StaysUnowned(w: World, w': World, r: Request) {
    && NobodyOwns(w', r)
    && (PaymentPosted(r) in w'.log ==> PaymentPosted(r) in w.log)
    && (MarkerCommitted(r) in w'.log ==> MarkerCommitted(r) in w.log)
  }

  lemma SubmitStaysUnowned(c: Config, w: World, id: nat, q: Request, offer: Offer, now: nat, commit: bool,
                           r: Request)
    requires Inv(c, w) && Claims(w, r) && NobodyOwns(w, r)
    ensures StaysUnowned(w, SubmitStep(c, w, id, q, offer, now, commit), r)
  {
  }

  lemma BeginStaysUnowned(c: Config, w: World, id: nat, r: Request)
    requires NobodyOwns(w, r)
    ensures StaysUnowned(w, BeginStep(c, w, id), r)
  {
    if PcOf(w, id).Owner? && c.wrapper == Collected {
      var original := Original(c, w.journal, PcOf(w, id).request, true);
      assert BeginStep(c, w, id)
          == if original.Some? then SendPackage(w, id, original.value, PreDispatch) else Goto(w, id, Idle);
    }
  }

  lemma ArrivalStaysUnowned(c: Config, w: World, a: Action, r: Request)
    requires NobodyOwns(w, r)
    requires a.AckArrives? || a.ReadbackArrives? || a.ReplyArrives?
    ensures StaysUnowned(w, Step(c, w, a), r)
  {
  }

  lemma PersistStaysUnowned(c: Config, w: World, id: nat, commit: bool, r: Request)
    requires Inv(c, w) && NobodyOwns(w, r)
    ensures StaysUnowned(w, PersistStep(c, w, id, commit), r)
  {
    assert id in w.workers ==> PcOk(c, w, w.workers[id].pc);
  }

  lemma PostStaysUnowned(w: World, id: nat, r: Request)
    requires NobodyOwns(w, r)
    ensures StaysUnowned(w, PostStep(w, id), r)
  {
  }

  lemma StoreStaysUnowned(c: Config, w: World, id: nat, commit: bool, collect: bool, r: Request)
    requires NobodyOwns(w, r)
    ensures StaysUnowned(w, StoreStep(c, w, id, commit, collect), r)
  {
  }

  lemma StoppingStaysUnowned(c: Config, w: World, a: Action, r: Request)
    requires NobodyOwns(w, r) && (Opening(a) || a.Crash? || a.GiveUp?)
    ensures StaysUnowned(w, Step(c, w, a), r)
  {
  }

  lemma OtherStaysUnowned(c: Config, w: World, a: Action, r: Request)
    requires NobodyOwns(w, r) && (a.CollectorHandles? || a.ProviderHandles? || a.Reconcile? || a.Recover?)
    ensures StaysUnowned(w, Step(c, w, a), r)
  {
  }

  lemma UnownedStep(c: Config, w: World, a: Action, r: Request)
    requires Inv(c, w) && Claims(w, r) && NobodyOwns(w, r)
    ensures StaysUnowned(w, Step(c, w, a), r)
  {
    match a
    case Submit(id, q, offer, now, commit) => SubmitStaysUnowned(c, w, id, q, offer, now, commit, r);
    case BeginDispatch(id) => BeginStaysUnowned(c, w, id, r);
    case PersistObservation(id, commit) => PersistStaysUnowned(c, w, id, commit, r);
    case Post(id) => PostStaysUnowned(w, id, r);
    case Store(id, commit, collect) => StoreStaysUnowned(c, w, id, commit, collect, r);
    case _ =>
      if Opening(a) || a.Crash? || a.GiveUp? { StoppingStaysUnowned(c, w, a, r); }
      else if a.AckArrives? || a.ReadbackArrives? || a.ReplyArrives? { ArrivalStaysUnowned(c, w, a, r); }
      else { OtherStaysUnowned(c, w, a, r); }
  }

  /** Once the call that made a claim is gone, nothing re-arms it: no schedule of restarts,
      resubmissions, reconciliations or evidence recoveries produces a POST or a custody
      marker that was not already there. */
  lemma {:induction false} NothingRearms(c: Config, w: World, actions: seq<Action>, r: Request)
    requires Inv(c, w) && Claims(w, r) && NobodyOwns(w, r)
    ensures var w' := Run(c, w, actions);
            && (PaymentPosted(r) in w'.log <==> PaymentPosted(r) in w.log)
            && (MarkerCommitted(r) in w'.log <==> MarkerCommitted(r) in w.log)
    decreases |actions|
  {
    if actions != [] {
      var next := Step(c, w, actions[0]);
      UnownedStep(c, w, actions[0], r);
      StepKeepsInv(c, w, actions[0]);
      StepExtends(c, w, actions[0]);
      ExtendsKeepsFacts(w, next);
      NothingRearms(c, next, actions[1..], r);
    }
  }

  // ----- what a stored result means

  lemma TerminalRowIsIssued(c: Config, w: World, i: nat)
    requires Inv(c, w) && i < |w.journal.dispatches| && w.journal.dispatches[i].state != PaymentModel.Claimed
    ensures w.journal.dispatches[i].receipt.Some?
    ensures Issued(w.ledger, w.journal.dispatches[i].request, w.journal.dispatches[i].receipt.value)
    ensures w.journal.dispatches[i].state == TerminalState(w.journal.dispatches[i].receipt.value)
  {
  }

  /** SETTLED in the journal: the provider holds the identical receipt and the effect has
      happened, with the requested accounts and amount. */
  lemma SettledMeansEffect(c: Config, w: World, i: nat)
    requires Reachable(c, w) && i < |w.journal.dispatches| && w.journal.dispatches[i].state == Settled
    ensures var r := w.journal.dispatches[i].request;
            && w.journal.dispatches[i].receipt.Some? && Issued(w.ledger, r, w.journal.dispatches[i].receipt.value)
            && Effect(r, r.source, r.beneficiary, r.amount) in w.ledger.effects
            && EffectCommitted(r) in w.log
  {
    ReachableInv(c, w);
    TerminalRowIsIssued(c, w, i);
    var r, receipt := w.journal.dispatches[i].request, w.journal.dispatches[i].receipt.value;
    var payments := w.ledger.payments;
    var k :| 0 <= k < |payments| && payments[k].request == r && payments[k].receipt == receipt;
    assert PaymentOk(c, w.ledger.payments[k]);
    assert HasEffect(w, r) && RequestOk(c, w, r);
    SettledEffectsHold(w.ledger.payments, k);
  }

  lemma {:induction false} SettledEffectsHold(payments: seq<Payment>, k: nat)
    requires k < |payments| && payments[k].settled
    ensures var r := payments[k].request; Effect(r, r.source, r.beneficiary, r.amount) in SettledEffects(payments)
  {
    if k < |payments| - 1 { SettledEffectsHold(payments[..|payments| - 1], k); }
  }

  /** FAILED in the journal: the effect has not happened and never will. */
  lemma FailedMeansNever(c: Config, w: World, i: nat, actions: seq<Action>)
    requires Reachable(c, w) && i < |w.journal.dispatches| && w.journal.dispatches[i].state == Failed
    ensures var r, w' := w.journal.dispatches[i].request, Run(c, w, actions);
            EffectCommitted(r) !in w'.log && forall e :: e in w'.ledger.effects ==> e.request != r
  {
    ReachableInv(c, w);
    TerminalRowIsIssued(c, w, i);
    RunKeepsInv(c, w, actions);
    var w' := Run(c, w, actions);
    var r, receipt := w.journal.dispatches[i].request, w.journal.dispatches[i].receipt.value;
    var payments := w.ledger.payments;
    var k :| 0 <= k < |payments| && payments[k].request == r && payments[k].receipt == receipt;
    assert w'.ledger.payments[k] == w.ledger.payments[k] && PaymentOk(c, w'.ledger.payments[k]);
    OneRowPerRequest(w', k);
    assert RequestOk(c, w', r);
    EffectsAreSettledPayments(w'.ledger.payments, r);
  }

  lemma OneRowPerRequest(w: World, k: nat)
    requires Distinct(PaymentRequests(w.ledger.payments)) && k < |w.ledger.payments| && !w.ledger.payments[k].settled
    ensures !HasEffect(w, w.ledger.payments[k].request)
  {
    var requests := PaymentRequests(w.ledger.payments);
    forall j | 0 <= j < |requests| && j != k ensures w.ledger.payments[j].request != w.ledger.payments[k].request {
      assert if j < k then !SharesIdentity(requests[j], requests[k]) else !SharesIdentity(requests[k], requests[j]);
    }
  }

  /** A stored terminal result, receipt included, is never changed by any schedule. */
  lemma TerminalNeverChanges(c: Config, w: World, i: nat, actions: seq<Action>)
    requires Reachable(c, w) && i < |w.journal.dispatches| && w.journal.dispatches[i].state != PaymentModel.Claimed
    ensures i < |Run(c, w, actions).journal.dispatches|
    ensures Run(c, w, actions).journal.dispatches[i] == w.journal.dispatches[i]
    ensures FromRow(c, w.journal.dispatches[i]) == Some(w.journal.dispatches[i].state)
  {
    ReachableInv(c, w);
    RunKeepsInv(c, w, actions);
    assert RowOk(c, w.journal.dispatches[i]);
  }

  ghost predicate RowIs(w: World, i: nat, row: Dispatch) {
    i < |w.journal.dispatches| && w.journal.dispatches[i] == row
  }

  /** An undisturbed lookup brings the provider's receipt to the waiting call. */
  lemma LookupArrives(c: Config, w: World, id: nat, r: Request, k: nat)
    requires LedgerOk(c, w.ledger) && PcOf(w, id) == Waiting(r)
    requires k < |w.ledger.payments| && w.ledger.payments[k].request == r
    ensures Step(c, w, ReplyArrives(id, LookupPayment(w.ledger, r)))
         == Goto(w, id, Holding(r, w.ledger.payments[k].receipt))
  {
    LookupIsExact(c, w.ledger, r);
    assert Issued(w.ledger, r, w.ledger.payments[k].receipt);
  }

  lemma StoringResolves(c: Config, w: World, id: nat, i: nat, receipt: Receipt)
    requires JournalOk(c, w.journal) && i < |w.journal.dispatches|
    requires w.journal.dispatches[i].state == PaymentModel.Claimed
    requires PcOf(w, id) == Holding(w.journal.dispatches[i].request, receipt)
    requires ReceiptVerifies(c, receipt, w.journal.dispatches[i].request)
    ensures var row := w.journal.dispatches[i].(state := TerminalState(receipt), receipt := Some(receipt));
            var w' := Step(c, w, Action.Store(id, true, false));
            RowIs(w', i, row) && w'.log == w.log
  {
    var r := w.journal.dispatches[i].request;
    assert DispatchRequests(w.journal.dispatches)[i] == r;
    FindIsExact(DispatchRequests(w.journal.dispatches), r);
  }

  lemma ReconcileWaits(c: Config, w: World, id: nat, i: nat)
    requires JournalOk(c, w.journal) && id in w.workers && w.workers[id].pc == Idle
    requires i < |w.journal.dispatches| && w.journal.dispatches[i].state == PaymentModel.Claimed
    ensures var r := w.journal.dispatches[i].request; Step(c, w, Reconcile(id, r)) == Goto(w, id, Waiting(r))
  {
    var r := w.journal.dispatches[i].request;
    assert DispatchRequests(w.journal.dispatches)[i] == r;
    FindIsExact(DispatchRequests(w.journal.dispatches), r);
  }

  /** Recovery completes: when the provider has the payment of an unresolved claim, one
      reconciliation with an undisturbed lookup stores exactly the provider's receipt, and
      nothing is posted. */
  lemma ReconciliationResolves(c: Config, w: World, id: nat, i: nat, k: nat)
    requires Inv(c, w) && id in w.workers && w.workers[id].pc == Idle
    requires i < |w.journal.dispatches| && w.journal.dispatches[i].state == PaymentModel.Claimed
    requires k < |w.ledger.payments| && w.ledger.payments[k].request == w.journal.dispatches[i].request
    ensures var r := w.journal.dispatches[i].request;
            var asked := Step(c, w, Reconcile(id, r));
            var answered := Step(c, asked, ReplyArrives(id, LookupPayment(w.ledger, r)));
            var stored := Step(c, answered, Action.Store(id, true, false));
            var payment := w.ledger.payments[k];
            var state := if payment.settled then Settled else Failed;
            && RowIs(stored, i, w.journal.dispatches[i].(state := state, receipt := Some(payment.receipt)))
            && stored.log == w.log
  {
    var r, payment := w.journal.dispatches[i].request, w.ledger.payments[k];
    ReconcileWaits(c, w, id, i);
    var asked := Goto(w, id, Waiting(r));
    LookupArrives(c, asked, id, r, k);
    assert PaymentOk(c, payment);
    StoringResolves(c, Goto(asked, id, Holding(r, payment.receipt)), id, i, payment.receipt);
  }

  // ----- generation fencing

  /** Rows added after w carry a generation that w's store does not postdate. */
  ghost predicate AddsOnlyCurrent(w: World, w': World) {
    && (forall i :: |w.journal.dispatches| <= i < |w'.journal.dispatches|
          ==> NotAfter(w.journal.generation, w'.journal.dispatches[i].request.generation))
    && (forall i :: |w.ledger.payments| <= i < |w'.ledger.payments|
          ==> NotAfter(w.ledger.generation, w'.ledger.payments[i].request.generation))
  }

  /** Only a submission adds a claim, and only the provider's POST handler touches the ledger's
      rows and balances. */
  lemma OnlySubmitAndPost(c: Config, w: World, a: Action)
    ensures !a.Submit? ==> |Step(c, w, a).journal.dispatches| == |w.journal.dispatches|
    ensures !a.ProviderHandles? ==> Step(c, w, a).ledger == w.ledger.(generation := Step(c, w, a).ledger.generation)
  {
  }

  lemma StepAddsOnlyCurrent(c: Config, w: World, a: Action)
    ensures AddsOnlyCurrent(w, Step(c, w, a))
  {
  }

  lemma {:induction false} RunAddsOnlyCurrent(c: Config, w: World, actions: seq<Action>)
    requires Inv(c, w)
    ensures AddsOnlyCurrent(w, Run(c, w, actions))
    decreases |actions|
  {
    if actions != [] {
      var next, last := Step(c, w, actions[0]), Run(c, w, actions);
      StepKeepsInv(c, w, actions[0]);
      StepExtends(c, w, actions[0]);
      StepAddsOnlyCurrent(c, w, actions[0]);
      RunAddsOnlyCurrent(c, next, actions[1..]);
      RunKeepsInv(c, next, actions[1..]);
      forall i | |w.journal.dispatches| <= i < |last.journal.dispatches|
        ensures NotAfter(w.journal.generation, last.journal.dispatches[i].request.generation)
      {
        if i < |next.journal.dispatches| {
          assert last.journal.dispatches[i].request == next.journal.dispatches[i].request;
        }
      }
      forall i | |w.ledger.payments| <= i < |last.ledger.payments|
        ensures NotAfter(w.ledger.generation, last.ledger.payments[i].request.generation)
      {
        if i < |next.ledger.payments| { assert last.ledger.payments[i] == next.ledger.payments[i]; }
      }
    }
  }

  /** In both stores: the stored generation never goes back, one epoch has one configuration,
      rows appear in epoch order, and once a generation is stored no process of an earlier
      one adds a row again. */
  lemma GenerationFencing(c: Config, w: World, actions: seq<Action>)
    requires Reachable(c, w)
    ensures var w' := Run(c, w, actions);
            && NotAfter(w.journal.generation, w'.journal.generation)
            && NotAfter(w.ledger.generation, w'.ledger.generation)
            && AddsOnlyCurrent(w, w')
            && Fenced(DispatchRequests(w'.journal.dispatches), w'.journal.generation)
            && Fenced(PaymentRequests(w'.ledger.payments), w'.ledger.generation)
  {
    ReachableInv(c, w);
    RunKeepsInv(c, w, actions);
    RunAddsOnlyCurrent(c, w, actions);
  }

  // ----- the ledger

  /** Only the provider's POST handler changes balances, and only as its transaction does. */
  lemma StepBalances(c: Config, w: World, a: Action)
    ensures var balances := Step(c, w, a).ledger.balances;
            || balances == w.ledger.balances
            || (&& a.ProviderHandles?
                && balances == PostPayment(c, w.ledger, a.request, a.process, a.now, a.commit).0.balances)
  {
    OnlySubmitAndPost(c, w, a);
  }

  lemma StepKeepsTotal(c: Config, w: World, a: Action, accounts: seq<string>)
    requires LedgerOk(c, w.ledger)
    requires forall i, j :: 0 <= i < j < |accounts| ==> accounts[i] != accounts[j]
    requires forall x :: x in c.initialBalances ==> x in accounts
    ensures Total(accounts, Step(c, w, a).ledger.balances) == Total(accounts, w.ledger.balances)
  {
    var balances := Step(c, w, a).ledger.balances;
    StepBalances(c, w, a);
    if balances != w.ledger.balances {
      PaymentConservesTotal(c, w.ledger, a.request, a.process, a.now, a.commit, accounts);
      assert Total(accounts, balances) == Total(accounts, w.ledger.balances);
    }
  }

  lemma {:induction false} TotalIsConstant(c: Config, w: World, actions: seq<Action>, accounts: seq<string>)
    requires Inv(c, w)
    requires forall i, j :: 0 <= i < j < |accounts| ==> accounts[i] != accounts[j]
    requires forall a :: a in c.initialBalances ==> a in accounts
    ensures Total(accounts, Run(c, w, actions).ledger.balances) == Total(accounts, w.ledger.balances)
    decreases |actions|
  {
    if actions != [] {
      StepKeepsInv(c, w, actions[0]);
      StepKeepsTotal(c, w, actions[0], accounts);
      TotalIsConstant(c, Step(c, w, actions[0]), actions[1..], accounts);
    }
  }

  /** Every balance is its initial value plus what came in minus what went out, within the
      78-digit bound; the effects are exactly those of the settled payments; and operation
      ids and idempotency keys are used once. */
  lemma LedgerIsAccounted(c: Config, w: World)
    requires Reachable(c, w)
    ensures BalancesAccounted(c, w.ledger)
    ensures w.ledger.effects == SettledEffects(w.ledger.payments)
    ensures Distinct(PaymentRequests(w.ledger.payments)) && Distinct(DispatchRequests(w.journal.dispatches))
    ensures forall r :: r in PaymentRequests(w.ledger.payments) ==> Claims(w, r)
  {
    ReachableInv(c, w);
    forall r | r in PaymentRequests(w.ledger.payments) ensures Claims(w, r) {
      assert RequestOk(c, w, r);
      CauseIsPresent(w.log, ClaimCommitted(r), PaymentPosted(r));
    }
  }

  // ----- admission and custody

  /** Behind the gate, claims and proofs correspond one to one after any mix of denials,
      faults and crashes, and a reader finds a rechecking proof for every claim. */
  lemma EveryClaimIsProven(c: Config, w: World, r: Request)
    requires Reachable(c, w) && c.wrapper != Native
    ensures Claims(w, r) <==> r in w.journal.proofs
    ensures Claims(w, r) ==>
      && ReadAuthorization(w.journal, r) == Some(w.journal.proofs[r])
      && var record := w.journal.proofs[r];
         && record.request == r && Configured(record.gate) && record.decision.admittedAt.Some?
         && var at := record.decision.admittedAt.value;
            && Supported(r, record.evidence, record.gate, at)
            && record.decision == Admitting(r, record.evidence, record.gate, at)
  {
    ReachableInv(c, w);
    ClaimsAreExactlyProofs(c, w.journal, r);
    if Claims(w, r) {
      var i :| 0 <= i < |w.journal.dispatches| && DispatchRequests(w.journal.dispatches)[i] == r;
      assert ProvenClaim(w.journal, w.journal.dispatches[i]);
    }
  }

  /** A proof outlives the configuration it was made under: whatever gates later processes are
      opened with, the reader goes on finding the very same record. */
  lemma ProofOutlivesItsGate(c: Config, w: World, r: Request, actions: seq<Action>)
    requires Reachable(c, w) && c.wrapper != Native && Claims(w, r)
    ensures r in w.journal.proofs && ReadAuthorization(Run(c, w, actions).journal, r) == Some(w.journal.proofs[r])
  {
    var w' := Run(c, w, actions);
    ReachableInv(c, w);
    RunKeepsInv(c, w, actions);
    ExtendsKeepsFacts(w, w');
    ClaimsAreExactlyProofs(c, w.journal, r);
    ClaimsAreExactlyProofs(c, w'.journal, r);
  }

  /** What a submission that is admitted does in an idle process. */
  lemma SubmitClaims(c: Config, w: World, id: nat, r: Request, offer: Offer, now: nat)
    requires c.wrapper != Native && id in w.workers && w.workers[id].pc == Idle
    requires WellFormed(r) && r.context == c.context && r.generation == w.journal.generation
    requires w.workers[id].generation == r.generation && FindDispatch(w.journal, r).Missing?
    requires r !in w.journal.proofs && Admitted(r, offer, w.workers[id].gate, now)
    ensures var w' := Step(c, w, Submit(id, r, offer, now, true));
            && Claims(w', r) && ClaimCommitted(r) in w'.log
            && r in w'.journal.proofs && w'.journal.proofs[r].gate == w.workers[id].gate
  {
    var w' := Step(c, w, Submit(id, r, offer, now, true));
    assert w'.journal.dispatches == w.journal.dispatches + [Dispatch(r, PaymentModel.Claimed, None, now)];
    assert DispatchRequests(w'.journal.dispatches)[|w.journal.dispatches|] == r;
    assert w'.log[|w.log|] == ClaimCommitted(r);
  }

  /** Every gate can be the next one: a process opened with it, in a generation not behind the
      store's, commits the claim of a new request that it admits, and the proof names it. */
  lemma AnyGateMayClaim(c: Config, w: World, id: nat, gate: Gate, r: Request, offer: Offer, now: nat)
    requires Reachable(c, w) && c.wrapper != Native && Configured(gate)
    requires WellFormed(r) && r.context == c.context && Reopen(w.journal.generation, r.generation).Some?
    requires FindDispatch(w.journal, r).Missing? && Admitted(r, offer, gate, now)
    ensures var started := Step(c, w, OpenAdapter(id, r.generation, gate));
            var claimed := Step(c, started, Submit(id, r, offer, now, true));
            && Claims(claimed, r) && ClaimCommitted(r) in claimed.log
            && r in claimed.journal.proofs && claimed.journal.proofs[r].gate == gate
  {
    ReachableInv(c, w);
    ClaimsAreExactlyProofs(c, w.journal, r);
    FindIsExact(DispatchRequests(w.journal.dispatches), r);
    SubmitClaims(c, Step(c, w, OpenAdapter(id, r.generation, gate)), id, r, offer, now);
  }

  /** With custody: before a POST comes the committed claim with its proof, then a collector
      row holding exactly that proof, then the committed marker, in this order. */
  lemma CustodyBeforePost(c: Config, w: World, r: Request)
    requires Reachable(c, w) && c.wrapper == Collected && PaymentPosted(r) in w.log
    ensures r in w.journal.proofs && Rechecks(w.journal.proofs[r])
    ensures var p := AdmissionPackage(r, w.journal.proofs[r]);
            && Precedes(w.log, ClaimCommitted(r), PackageCollected(p))
            && Precedes(w.log, PackageCollected(p), MarkerCommitted(r))
            && Precedes(w.log, MarkerCommitted(r), PaymentPosted(r))
            && Precedes(w.log, PackageCollected(p), EffectCommitted(r))
            && exists k :: 0 <= k < |w.collection.rows| && w.collection.rows[k].package == p
  {
    ReachableInv(c, w);
    assert RequestOk(c, w, r);
    CauseIsPresent(w.log, MarkerCommitted(r), PaymentPosted(r));
    var p := w.journal.markers[r].package;
    assert PackageOk(c, w, p);
    CauseIsPresent(w.log, PackageCollected(p), MarkerCommitted(r));
    PrecedesTrans(w.log, PackageCollected(p), MarkerCommitted(r), PaymentPosted(r));
    PrecedesTrans(w.log, PackageCollected(p), PaymentPosted(r), EffectCommitted(r));
    CauseIsPresent(w.log, ClaimCommitted(r), PaymentPosted(r));
    EveryClaimIsProven(c, w, r);
  }
}
