/** What every single transaction of the payment stores keeps: distinct identities,
    generation fencing, row shape, admission proofs, and the ledger's account of its
    balances. */
module PaymentInvariants {
  import opened Wrappers
  import opened Admission
  import opened PaymentModel

  // ----- the journal

  ghost predicate RowOk(c: Config, row: Dispatch) {
    && (row.state == Claimed <==> row.receipt == None)
    && (row.receipt.Some? ==>
          ReceiptVerifies(c, row.receipt.value, row.request) && TerminalState(row.receipt.value) == row.state)
  }

  /** The claim's proof: same request, same time, and it rechecks under its own gate. */
  ghost predicate ProvenClaim(j: Journal, row: Dispatch) {
    && row.request in j.proofs
    && var record := j.proofs[row.request];
       record.request == row.request && record.decision.admittedAt == Some(row.claimedAt) && Rechecks(record)
  }

  /** Behind the gate, every claim is proven. */
  ghost predicate AllProven(c: Config, j: Journal) {
    c.wrapper != Native ==>
        forall i :: 0 <= i < |j.dispatches| ==> ProvenClaim(j, j.dispatches[i])
  }

  ghost predicate RowsOk(c: Config, rows: seq<Dispatch>) {
    forall i :: 0 <= i < |rows| ==> RowOk(c, rows[i])
  }

  /** Every proof belongs to a claim. */
  ghost predicate ProofsClaimed(j: Journal) {
    forall r :: r in j.proofs ==> r in DispatchRequests(j.dispatches)
  }

  ghost predicate JournalOk(c: Config, j: Journal) {
    && Distinct(DispatchRequests(j.dispatches)) && Fenced(DispatchRequests(j.dispatches), j.generation)
    && RowsOk(c, j.dispatches) && AllProven(c, j) && ProofsClaimed(j)
  }

  lemma DistinctAppend(rows: seq<Request>, r: Request)
    requires Distinct(rows) && Find(rows, r).Missing?
    ensures Distinct(rows + [r])
  {
    FindIsExact(rows, r);
  }

  lemma FencedAppend(rows: seq<Request>, r: Request, stored: Generation)
    requires Fenced(rows, stored) && r.generation == stored
    ensures Fenced(rows + [r], stored)
  {
  }

  lemma FencedReopen(rows: seq<Request>, stored: Generation, opening: Generation)
    requires Fenced(rows, stored) && Reopen(stored, opening).Some?
    ensures Fenced(rows, opening)
  {
  }

  lemma ClaimKeeps(c: Config, j: Journal, r: Request, process: Generation, gate: Gate, offer: Offer, now: nat,
                   commit: bool)
    requires JournalOk(c, j) && (c.wrapper != Native ==> Configured(gate))
    ensures JournalOk(c, Claim(c, j, r, process, gate, offer, now, commit).0)
  {
    var (j', result) := Claim(c, j, r, process, gate, offer, now, commit);
    if result == Created {
      var requests := DispatchRequests(j.dispatches);
      FindIsExact(requests, r);
      assert j'.dispatches == j.dispatches + [Dispatch(r, Claimed, None, now)];
      assert DispatchRequests(j'.dispatches) == requests + [r];
      DistinctAppend(requests, r);
      FencedAppend(requests, r, j.generation);
      if c.wrapper != Native { ClaimIsProven(c, j, r, gate, offer, now, j'); }
      assert forall q :: q in j.proofs ==> q in requests + [r];
    }
  }

  lemma ClaimIsProven(c: Config, j: Journal, r: Request, gate: Gate, offer: Offer, now: nat, j': Journal)
    requires c.wrapper != Native && AllProven(c, j) && Admitted(r, offer, gate, now) && Configured(gate)
    requires r !in DispatchRequests(j.dispatches) && j'.dispatches == j.dispatches + [Dispatch(r, Claimed, None, now)]
    requires j'.proofs == j.proofs[r := ProofOf(r, gate, offer, now)]
    ensures AllProven(c, j')
  {
    AdmittedRecordRechecks(r, offer.evidence, gate, now);
    forall i | 0 <= i < |j'.dispatches| ensures ProvenClaim(j', j'.dispatches[i]) {
      if i < |j.dispatches| {
        assert DispatchRequests(j.dispatches)[i] == j.dispatches[i].request;
        assert ProvenClaim(j, j.dispatches[i]);
      }
    }
  }

  /** Storing a receipt either changes nothing or ends one unresolved row. */
  lemma StoreReceiptEnds(c: Config, j: Journal, r: Request, receipt: Receipt, commit: bool) returns (i: nat)
    ensures var j' := StoreReceipt(c, j, r, receipt, commit).0;
            j' == j || (
              && i < |j.dispatches| && j.dispatches[i].request == r && j.dispatches[i].state == Claimed
              && ReceiptVerifies(c, receipt, r)
              && j' == j.(dispatches := j.dispatches[i := Ended(j.dispatches[i], receipt)]))
  {
    i := if FindDispatch(j, r).Row? then FindDispatch(j, r).index else 0;
  }

  lemma StoreReceiptKeeps(c: Config, j: Journal, r: Request, receipt: Receipt, commit: bool)
    requires JournalOk(c, j)
    ensures var j' := StoreReceipt(c, j, r, receipt, commit).0;
            JournalOk(c, j') && DispatchRequests(j'.dispatches) == DispatchRequests(j.dispatches)
  {
    var i := StoreReceiptEnds(c, j, r, receipt, commit);
    var j' := StoreReceipt(c, j, r, receipt, commit).0;
    if j' != j { EndedKeeps(c, j, i, receipt, j'); }
  }

  lemma EndedKeeps(c: Config, j: Journal, i: nat, receipt: Receipt, j': Journal)
    requires JournalOk(c, j) && i < |j.dispatches| && ReceiptVerifies(c, receipt, j.dispatches[i].request)
    requires j' == j.(dispatches := j.dispatches[i := Ended(j.dispatches[i], receipt)])
    ensures JournalOk(c, j') && DispatchRequests(j'.dispatches) == DispatchRequests(j.dispatches)
  {
    assert DispatchRequests(j'.dispatches) == DispatchRequests(j.dispatches);
    EndedIsProven(c, j, i, receipt, j');
  }

  lemma EndedIsProven(c: Config, j: Journal, i: nat, receipt: Receipt, j': Journal)
    requires AllProven(c, j) && i < |j.dispatches|
    requires j' == j.(dispatches := j.dispatches[i := Ended(j.dispatches[i], receipt)])
    ensures AllProven(c, j')
  {
    forall k | 0 <= k < |j'.dispatches| && c.wrapper != Native ensures ProvenClaim(j', j'.dispatches[k]) {
      assert ProvenClaim(j, j.dispatches[k]);
    }
  }

  /** Behind the gate a claim exists exactly when its proof does, and a reader of a claim
      always finds a proof that rechecks. */
  lemma ClaimsAreExactlyProofs(c: Config, j: Journal, r: Request)
    requires JournalOk(c, j) && c.wrapper != Native
    ensures r in DispatchRequests(j.dispatches) <==> r in j.proofs
    ensures r in DispatchRequests(j.dispatches) ==> ReadAuthorization(j, r) == Some(j.proofs[r])
  {
    var requests := DispatchRequests(j.dispatches);
    if r in requests {
      var i :| 0 <= i < |requests| && requests[i] == r;
      FindIsExact(requests, r);
      ReaderFindsProof(c, j, i);
    }
  }

  lemma ReaderFindsProof(c: Config, j: Journal, i: nat)
    requires i < |j.dispatches| && FindDispatch(j, j.dispatches[i].request) == Row(i)
    requires ProvenClaim(j, j.dispatches[i])
    ensures var r := j.dispatches[i].request; r in j.proofs && ReadAuthorization(j, r) == Some(j.proofs[r])
  {
  }

  // ----- the ledger

  function Outgoing(effects: seq<Effect>, account: string): nat {
    if effects == [] then 0
    else
      var last := effects[|effects| - 1];
      Outgoing(effects[..|effects| - 1], account) + if last.source == account then last.amount else 0
  }

  function Incoming(effects: seq<Effect>, account: string): nat {
    if effects == [] then 0
    else
      var last := effects[|effects| - 1];
      Incoming(effects[..|effects| - 1], account) + if last.beneficiary == account then last.amount else 0
  }

  /** The effects that the settled payments, and no others, should have had. */
  function SettledEffects(payments: seq<Payment>): seq<Effect> {
    if payments == [] then []
    else
      var last := payments[|payments| - 1];
      SettledEffects(payments[..|payments| - 1]) +
      if last.settled then [Effect(last.request, last.request.source, last.request.beneficiary, last.request.amount)]
      else []
  }

  ghost predicate PaymentOk(c: Config, p: Payment) {
    ReceiptVerifies(c, p.receipt, p.request) && (p.settled <==> p.receipt.status == ReportsSettled)
  }

  ghost predicate BalancesAccounted(c: Config, l: Ledger) {
    && l.balances.Keys == c.initialBalances.Keys
    && forall a :: a in l.balances ==>
         && l.balances[a] + Outgoing(l.effects, a) == c.initialBalances[a] + Incoming(l.effects, a)
         && l.balances[a] < BALANCE_LIMIT
  }

  ghost predicate LedgerOk(c: Config, l: Ledger) {
    var requests := PaymentRequests(l.payments);
    && Distinct(requests) && Fenced(requests, l.generation)
    && (forall i :: 0 <= i < |l.payments| ==> PaymentOk(c, l.payments[i]))
    && l.effects == SettledEffects(l.payments)
    && BalancesAccounted(c, l)
  }

  lemma TransferKeepsAccount(c: Config, l: Ledger, r: Request)
    requires BalancesAccounted(c, l) && WellFormed(r) && Decide(l.balances, r) == None
    ensures BalancesAccounted(c, l.(balances := Transfer(l.balances, r),
                                    effects := l.effects + [Effect(r, r.source, r.beneficiary, r.amount)]))
  {
    var effects' := l.effects + [Effect(r, r.source, r.beneficiary, r.amount)];
    assert effects'[..|effects'| - 1] == l.effects;
  }

  /** Every receipt the provider signs verifies for its own request, and for no other. */
  lemma SignedReceiptVerifies(c: Config, r: Request, failure: Option<Reason>, now: nat)
    requires failure != Some(Unlisted)
    ensures forall other :: ReceiptVerifies(c, SignedReceipt(c, r, failure, now), other) <==> other == r
  {
  }

  lemma PayKeepsPayments(c: Config, l: Ledger, r: Request, now: nat)
    requires WellFormed(r) && l.effects == SettledEffects(l.payments)
    requires forall i :: 0 <= i < |l.payments| ==> PaymentOk(c, l.payments[i])
    ensures var l' := Pay(c, l, r, now).0;
            && PaymentRequests(l'.payments) == PaymentRequests(l.payments) + [r]
            && (forall i :: 0 <= i < |l'.payments| ==> PaymentOk(c, l'.payments[i]))
            && l'.effects == SettledEffects(l'.payments)
  {
    var l' := Pay(c, l, r, now).0;
    var failure := Decide(l.balances, r);
    SignedReceiptVerifies(c, r, failure, now);
    var row := Payment(r, failure == None, SignedReceipt(c, r, failure, now));
    assert l'.payments == l.payments + [row] && PaymentOk(c, row);
    assert l'.payments[..|l'.payments| - 1] == l.payments;
  }

  lemma PayKeeps(c: Config, l: Ledger, r: Request, now: nat)
    requires LedgerOk(c, l) && WellFormed(r) && r.generation == l.generation
    requires Find(PaymentRequests(l.payments), r).Missing?
    ensures LedgerOk(c, Pay(c, l, r, now).0)
  {
    PayKeepsPayments(c, l, r, now);
    DistinctAppend(PaymentRequests(l.payments), r);
    FencedAppend(PaymentRequests(l.payments), r, l.generation);
    if Decide(l.balances, r) == None { TransferKeepsAccount(c, l, r); }
  }

  lemma PostPaymentKeeps(c: Config, l: Ledger, r: Request, process: Generation, now: nat, commit: bool)
    requires LedgerOk(c, l)
    ensures LedgerOk(c, PostPayment(c, l, r, process, now, commit).0)
  {
    if WellFormed(r) && Find(PaymentRequests(l.payments), r).Missing? && r.generation == l.generation {
      PayKeeps(c, l, r, now);
    }
  }

  /** The provider serves a stored payment's receipt for the exact request and for nothing
      else; the receipt verifies for that request. */
  lemma LookupIsExact(c: Config, l: Ledger, r: Request)
    requires LedgerOk(c, l)
    ensures forall i :: 0 <= i < |l.payments| && l.payments[i].request == r
              ==> LookupPayment(l, r) == Replied(200, Some(l.payments[i].receipt))
    ensures r !in PaymentRequests(l.payments) ==> LookupPayment(l, r) in {Replied(404, None), Replied(409, None)}
    ensures forall i :: 0 <= i < |l.payments| ==> ReceiptVerifies(c, l.payments[i].receipt, l.payments[i].request)
  {
    FindIsExact(PaymentRequests(l.payments), r);
    forall i | 0 <= i < |l.payments| ensures ReceiptVerifies(c, l.payments[i].receipt, l.payments[i].request) {
      assert PaymentOk(c, l.payments[i]);
    }
    assert forall i :: 0 <= i < |l.payments| && l.payments[i].request == r ==> PaymentRequests(l.payments)[i] == r;
  }

  /** The sum of the balances over a list of accounts, from position i on. */
  function TotalFrom(accounts: seq<string>, balances: map<string, nat>, i: nat): nat
    requires i <= |accounts|
    decreases |accounts| - i
  {
    if i == |accounts| then 0
    else (if accounts[i] in balances then balances[accounts[i]] else 0) + TotalFrom(accounts, balances, i + 1)
  }

  function Total(accounts: seq<string>, balances: map<string, nat>): nat { TotalFrom(accounts, balances, 0) }

  lemma {:induction false} TotalFromChanges(accounts: seq<string>, balances: map<string, nat>, k: nat, v: nat, i: nat)
    requires forall x, y :: 0 <= x < y < |accounts| ==> accounts[x] != accounts[y]
    requires k < |accounts| && accounts[k] in balances && i <= |accounts|
    ensures var a := accounts[k];
            if i <= k
            then TotalFrom(accounts, balances[a := v], i) + balances[a] == TotalFrom(accounts, balances, i) + v
            else TotalFrom(accounts, balances[a := v], i) == TotalFrom(accounts, balances, i)
    decreases |accounts| - i
  {
    if i < |accounts| { TotalFromChanges(accounts, balances, k, v, i + 1); }
  }

  lemma TotalChanges(accounts: seq<string>, balances: map<string, nat>, a: string, v: nat)
    requires forall x, y :: 0 <= x < y < |accounts| ==> accounts[x] != accounts[y]
    requires a in balances && a in accounts
    ensures Total(accounts, balances[a := v]) + balances[a] == Total(accounts, balances) + v
  {
    var k :| 0 <= k < |accounts| && accounts[k] == a;
    TotalFromChanges(accounts, balances, k, v, 0);
  }

  /** A settled transfer moves money without creating or destroying any. */
  lemma TransferConservesTotal(balances: map<string, nat>, r: Request, accounts: seq<string>)
    requires forall i, j :: 0 <= i < j < |accounts| ==> accounts[i] != accounts[j]
    requires forall a :: a in balances ==> a in accounts
    requires Decide(balances, r) == None && WellFormed(r)
    ensures Total(accounts, Transfer(balances, r)) == Total(accounts, balances)
  {
    var debit, credit := balances[r.source] - r.amount, balances[r.beneficiary] + r.amount;
    var debited := balances[r.source := debit];
    assert r.source != r.beneficiary && r.source in accounts && r.beneficiary in accounts;
    assert debited[r.beneficiary] == balances[r.beneficiary];
    TotalChanges(accounts, balances, r.source, debit);
    TotalChanges(accounts, debited, r.beneficiary, credit);
    assert Transfer(balances, r) == debited[r.beneficiary := credit];
  }

  /** What a POST does to the balances. */
  lemma PaymentBalances(c: Config, l: Ledger, r: Request, process: Generation, now: nat, commit: bool)
    ensures var balances := PostPayment(c, l, r, process, now, commit).0.balances;
            || balances == l.balances
            || (Decide(l.balances, r) == None && WellFormed(r) && balances == Transfer(l.balances, r))
  {
  }

  /** A payment, whatever becomes of it, leaves the total of the balances as it was. */
  lemma PaymentConservesTotal(c: Config, l: Ledger, r: Request, process: Generation, now: nat, commit: bool,
                              accounts: seq<string>)
    requires forall i, j :: 0 <= i < j < |accounts| ==> accounts[i] != accounts[j]
    requires forall a :: a in l.balances ==> a in accounts
    ensures Total(accounts, PostPayment(c, l, r, process, now, commit).0.balances) == Total(accounts, l.balances)
  {
    var balances := PostPayment(c, l, r, process, now, commit).0.balances;
    PaymentBalances(c, l, r, process, now, commit);
    if balances != l.balances {
      TransferConservesTotal(l.balances, r, accounts);
      assert balances == Transfer(l.balances, r);
    }
  }

  /** Distinct requests have distinct effects: an effect list has no request twice. */
  lemma {:induction false} EffectsAreSettledPayments(payments: seq<Payment>, r: Request)
    ensures (exists e :: e in SettledEffects(payments) && e.request == r)
       <==> (exists i :: 0 <= i < |payments| && payments[i].request == r && payments[i].settled)
  {
    if payments != [] {
      var n := |payments| - 1;
      EffectsAreSettledPayments(payments[..n], r);
      if i :| 0 <= i < |payments| && payments[i].request == r && payments[i].settled {
        if i < n {
          assert payments[..n][i] == payments[i];
        } else {
          assert SettledEffects(payments)[|SettledEffects(payments)| - 1].request == r;
        }
      }
    }
  }
}
