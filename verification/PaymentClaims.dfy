/** When each claim about a payment is upheld, when it is contradicted and what is reported of
    it, told from the records, their dates and their digests alone. */
module PaymentClaims {
  import opened Wrappers
  import opened PaymentEvidence

  // ----- what is known

  /** A record is known once its own date is reached; a policy carries none. */
  lemma KnownThen(records: Records, at: nat)
    ensures var r := Until(records, at);
      && r.policy == records.policy
      && (r.maker == if records.maker.Some? && records.maker.value.issuedAt <= at then records.maker else None)
      && (r.checker == if records.checker.Some? && records.checker.value.issuedAt <= at then records.checker else None)
      && (r.status == if records.status.Some? && records.status.value.checkedAt <= at then records.status else None)
      && (r.dispatch == if records.dispatch.Some? && records.dispatch.value.dispatchedAt <= at
                        then records.dispatch else None)
      && (r.receipt == if records.receipt.Some? && records.receipt.value.observedAt <= at
                       then records.receipt else None)
      && (r.control == if records.control.Some? && records.control.value.observedAt <= at
                       then records.control else None)
      && (r.collector == if records.collector.Some? && records.collector.value.checkpointAt <= at
                         then records.collector else None)
  {
  }

  /** Each claim is judged on what is known at the evaluation. */
  lemma ClaimsAreJudged(k: Case, records: Records, at: nat)
    ensures var r, claims := Until(records, at), ClaimsAt(k, records, at);
            && claims.authorization == Authorization(k, r, at) && claims.execution == Execution(k, r, at)
            && claims.control == ControlState(k, r, at)
  {
  }

  // ----- the outcome

  /** All seven records of an execution are there and dated no later than the evaluation. */
  ghost predicate ExecutionKnown(records: Records, at: nat) {
    && records.policy.Some? && records.maker.Some? && records.checker.Some? && records.status.Some?
    && records.dispatch.Some? && records.receipt.Some? && records.control.Some?
    && records.maker.value.issuedAt <= at && records.checker.value.issuedAt <= at
    && records.status.value.checkedAt <= at && records.dispatch.value.dispatchedAt <= at
    && records.receipt.value.observedAt <= at && records.control.value.observedAt <= at
  }

  /** The outcome is the provider's own word, and none is reported of a contradicted or
      incomplete execution; only a receipt that says settled confirms a settlement. */
  lemma OutcomeIsTheReceipts(k: Case, records: Records, at: nat)
    ensures var claims := ClaimsAt(k, records, at);
            && claims.outcome == (if claims.execution != INVALID && ExecutionKnown(records, at)
                                  then records.receipt.value.status else Unknown)
            && (claims.outcome != Unknown ==>
                  records.receipt.Some? && claims.outcome == records.receipt.value.status)
            && (claims.settlementConfirmed <==>
                  claims.execution == VALID && records.receipt.Some? && records.receipt.value.status == Settled)
  {
  }

  // ----- integrity

  lemma IntegrityExactly(k: Case, records: Records, at: nat)
    ensures var integrity := ClaimsAt(k, records, at).integrity;
            && (integrity == INVALID <==> Broken in k.faults.Values)
            && (integrity == VALID <==> k.supplied != map[] && k.faults == map[])
  {
  }

  // ----- execution

  /** The bytes sent are not the canonical ones of the approved operation. */
  ghost predicate OtherRequest(k: Case, d: Dispatch) {
    var code := k.codec;
    || d.operation != code.operationDigest(k.op) || d.actual != k.op
    || code.requestDigest(d.request) != k.op.payloadDigest
    || code.decode(d.request) == None || code.canonical(code.decode(d.request).value) != d.request
    || code.decode(code.encode(k.op)) != code.decode(d.request)
  }

  /** What contradicts an execution: other bytes than the approved ones, a reference to another
      record than the supplied one, or a receipt about something else or too early. */
  lemma ExecutionContradicted(k: Case, r: Records, at: nat)
    requires FromEnvelopes(k, r)
    ensures Execution(k, r, at) == INVALID <==>
      r.dispatch.Some? &&
      var d := r.dispatch.value;
      || OtherRequest(k, d)
      || (r.policy.Some? && !(k.op.policyDigest == d.policy == k.supplied[PolicySlot]))
      || (r.maker.Some? && d.maker != k.supplied[MakerSlot])
      || (r.checker.Some? && d.checker != k.supplied[CheckerSlot])
      || (r.status.Some? && d.status != k.supplied[StatusSlot])
      || (r.control.Some? && d.control != k.supplied[ControlSlot])
      || (r.receipt.Some? &&
          var c := r.receipt.value;
          || c.operation != k.codec.operationDigest(k.op) || c.payload != k.op.payloadDigest
          || c.audience != k.op.runtime.audience || c.dispatch != k.supplied[DispatchSlot]
          || (r.policy.Some? && c.provider != r.policy.value.provider)
          || c.observedAt < d.dispatchedAt)
  {
  }

  /** An execution is upheld exactly when nothing contradicts it, everything about it is known and
      the provider reported a final outcome. */
  lemma ExecutionUpheld(k: Case, r: Records, at: nat)
    ensures Execution(k, r, at) == VALID <==>
      && Execution(k, r, at) != INVALID
      && r.policy.Some? && r.maker.Some? && r.checker.Some? && r.status.Some? && r.control.Some?
      && r.dispatch.Some? && r.dispatch.value.dispatchedAt <= at && r.receipt.Some? && r.receipt.value.observedAt <= at
      && (r.receipt.value.status == Settled || r.receipt.value.status == Failed || r.receipt.value.status == Reversed)
  {
  }

  // ----- authorization

  /** The policy is the one referred to, it is in force at the dispatch, and it allows the
      operation where it runs. */
  ghost predicate Allows(k: Case, p: Policy, d: Dispatch)
    requires PolicySlot in k.supplied
  {
    && d.policy == k.op.policyDigest == k.supplied[PolicySlot]
    && p.runtime == k.op.runtime && p.currency == k.op.currency && p.scale == k.op.scale
    && k.op.source in p.sources && k.op.beneficiary in p.beneficiaries && k.op.amount <= p.maxAmount
    && p.routes == {"payment_gate", "test_to_production", "cloud_management", "deployment"}
    && p.validFrom <= d.dispatchedAt < p.validUntil
  }

  /** The approval is of this operation under this policy, in time, and whoever is known to have
      signed it held this role in this place from before the approval until after the dispatch. */
  ghost predicate Approves(k: Case, s: Slot, a: Approval, ref: Digest, d: Dispatch)
    requires s in k.supplied
  {
    && ref == k.supplied[s] && a.operation == k.codec.operationDigest(k.op) && a.policy == k.op.policyDigest
    && a.issuedAt <= d.dispatchedAt < a.expiresAt
    && (a.signer in k.identities ==>
          var who := k.identities[a.signer];
          && s in who.roles && who.tenant == k.op.runtime.tenant && who.environment == k.op.runtime.environment
          && who.validFrom <= a.issuedAt && d.dispatchedAt < who.validUntil)
  }

  /** The status is about this operation, its credential and its configuration, and what it says
      of a revocation does not contradict the dispatch. */
  ghost predicate Concerns(k: Case, s: Status, d: Dispatch)
    requires StatusSlot in k.supplied
  {
    && d.status == k.supplied[StatusSlot]
    && s.operation == k.codec.operationDigest(k.op) && s.policy == k.op.policyDigest
    && s.credential == k.op.runtime.credential && s.configuration == k.op.runtime.configuration
    && s.epoch == k.op.runtime.epoch && s.checkedAt < s.validUntil
    && (if s.state == Revoked then s.revokedAt.Some? && d.dispatchedAt < s.revokedAt.value <= s.checkedAt
        else s.revokedAt == None)
  }

  lemma ConcernsMeans(k: Case, r: Records, d: Dispatch)
    requires r.status.Some? && StatusSlot in k.supplied && d.actual == k.op
    ensures var s := r.status.value;
      !Misbound(k, r, d.status, StatusSlot) && !StatusFails(k, r, s, d) <==>
        && Concerns(k, s, d) && !Misbound(k, r, s.maker, MakerSlot) && !Misbound(k, r, s.checker, CheckerSlot)
        && (r.maker.Some? ==> r.maker.value.issuedAt <= s.checkedAt)
        && (r.checker.Some? ==> r.checker.value.issuedAt <= s.checkedAt)
  {
  }

  lemma AllowsMeans(k: Case, r: Records, d: Dispatch)
    requires r.policy.Some? && PolicySlot in k.supplied && d.actual == k.op
    ensures Allows(k, r.policy.value, d) <==> !PolicyMisbound(k, r, d) && PolicyGrants(r.policy.value, d)
  {
  }

  lemma ApprovesMeans(k: Case, r: Records, s: Slot, ref: Digest, d: Dispatch)
    requires s in {MakerSlot, CheckerSlot} && ApprovalOf(r, s).Some? && s in k.supplied && d.actual == k.op
    ensures Approves(k, s, ApprovalOf(r, s).value, ref, d) <==>
      !Misbound(k, r, ref, s) && !ApprovalFails(k, s, ApprovalOf(r, s).value, d)
  {
  }

  /** What contradicts an authorization, among the known records. */
  lemma AuthorizationContradicted(k: Case, r: Records, at: nat)
    requires FromEnvelopes(k, r)
    ensures Authorization(k, r, at) == INVALID <==>
      r.dispatch.Some? &&
      var d := r.dispatch.value;
      || OtherRequest(k, d) || k.codec.requestDigest(k.codec.encode(k.op)) != k.op.payloadDigest
      || d.dispatchedAt < k.op.validFrom || k.op.validUntil <= d.dispatchedAt
      || (r.policy.Some? && !Allows(k, r.policy.value, d))
      || (r.maker.Some? && !Approves(k, MakerSlot, r.maker.value, d.maker, d))
      || (r.checker.Some? && !Approves(k, CheckerSlot, r.checker.value, d.checker, d))
      || (r.maker.Some? && r.checker.Some? &&
          var a, b := r.maker.value, r.checker.value;
          || a.approvalId == b.approvalId
          || (a.signer in k.identities && b.signer in k.identities
              && k.identities[a.signer].person == k.identities[b.signer].person))
      || (r.status.Some? &&
          var s := r.status.value;
          || !Concerns(k, s, d)
          || (r.maker.Some? && (s.maker != k.supplied[MakerSlot] || s.checkedAt < r.maker.value.issuedAt))
          || (r.checker.Some? && (s.checker != k.supplied[CheckerSlot] || s.checkedAt < r.checker.value.issuedAt)))
  {
    AuthorizationParts(k, r);
  }

  lemma AuthorizationParts(k: Case, r: Records)
    requires FromEnvelopes(k, r)
    ensures r.dispatch.Some? && r.dispatch.value.actual == k.op ==>
      var d := r.dispatch.value;
      && (r.policy.Some? ==>
            (Allows(k, r.policy.value, d) <==> !PolicyMisbound(k, r, d) && PolicyGrants(r.policy.value, d)))
      && (r.maker.Some? ==>
            (Approves(k, MakerSlot, r.maker.value, d.maker, d) <==>
             !Misbound(k, r, d.maker, MakerSlot) && !ApprovalFails(k, MakerSlot, r.maker.value, d)))
      && (r.checker.Some? ==>
            (Approves(k, CheckerSlot, r.checker.value, d.checker, d) <==>
             !Misbound(k, r, d.checker, CheckerSlot) && !ApprovalFails(k, CheckerSlot, r.checker.value, d)))
      && (r.status.Some? ==>
            var s := r.status.value;
            (!Misbound(k, r, d.status, StatusSlot) && !StatusFails(k, r, s, d) <==>
             && Concerns(k, s, d) && !Misbound(k, r, s.maker, MakerSlot) && !Misbound(k, r, s.checker, CheckerSlot)
             && (r.maker.Some? ==> r.maker.value.issuedAt <= s.checkedAt)
             && (r.checker.Some? ==> r.checker.value.issuedAt <= s.checkedAt)))
  {
    if r.dispatch.Some? && r.dispatch.value.actual == k.op {
      var d := r.dispatch.value;
      if r.policy.Some? { AllowsMeans(k, r, d); }
      if r.maker.Some? { ApprovesMeans(k, r, MakerSlot, d.maker, d); }
      if r.checker.Some? { ApprovesMeans(k, r, CheckerSlot, d.checker, d); }
      if r.status.Some? { ConcernsMeans(k, r, d); }
    }
  }

  /** An authorization is upheld exactly when two different persons approved this operation, a
      status taken after both approvals and fresh at the dispatch reports its credential active,
      the policy allows it, and everything refers to everything else. */
  lemma AuthorizationUpheld(k: Case, r: Records, at: nat)
    requires FromEnvelopes(k, r)
    ensures Authorization(k, r, at) == VALID <==>
      && r.policy.Some? && r.maker.Some? && r.checker.Some? && r.status.Some? && r.dispatch.Some? &&
      var a, b, s, d := r.maker.value, r.checker.value, r.status.value, r.dispatch.value;
      && !OtherRequest(k, d) && k.codec.requestDigest(k.codec.encode(k.op)) == k.op.payloadDigest
      && k.op.validFrom <= d.dispatchedAt < k.op.validUntil && d.dispatchedAt <= at
      && Allows(k, r.policy.value, d)
      && Approves(k, MakerSlot, a, d.maker, d) && Approves(k, CheckerSlot, b, d.checker, d)
      && a.signer in k.identities && b.signer in k.identities
      && k.identities[a.signer].person != k.identities[b.signer].person && a.approvalId != b.approvalId
      && Concerns(k, s, d) && s.maker == d.maker && s.checker == d.checker
      && s.state == Active
      && a.issuedAt <= s.checkedAt && b.issuedAt <= s.checkedAt
      && s.checkedAt <= d.dispatchedAt < s.validUntil && d.dispatchedAt - s.checkedAt <= k.maxAge
  {
    AuthorizationParts(k, r);
  }

  // ----- control state

  predicate WrongRoute(c: Control, route: string, required: RouteState) {
    route in c.routes && c.routes[route] != Unobserved && c.routes[route] != required
  }

  lemma WrongRoutes(c: Control)
    ensures (exists route :: RouteViolated(c, route)) <==>
      || WrongRoute(c, "payment_gate", Gated) || WrongRoute(c, "test_to_production", RouteBlocked)
      || WrongRoute(c, "cloud_management", RouteBlocked) || WrongRoute(c, "deployment", RouteBlocked)
  {
    assert forall route :: RouteViolated(c, route) ==>
      route == "payment_gate" || route == "test_to_production" || route == "cloud_management" || route == "deployment";
    assert RouteViolated(c, "payment_gate") <==> WrongRoute(c, "payment_gate", Gated);
    assert RouteViolated(c, "test_to_production") <==> WrongRoute(c, "test_to_production", RouteBlocked);
    assert RouteViolated(c, "cloud_management") <==> WrongRoute(c, "cloud_management", RouteBlocked);
    assert RouteViolated(c, "deployment") <==> WrongRoute(c, "deployment", RouteBlocked);
  }

  lemma RequiredRoutes(c: Control)
    ensures !(exists route :: RouteViolated(c, route) || RouteOpen(c, route)) <==>
      c.routes == map["payment_gate" := Gated, "test_to_production" := RouteBlocked,
                      "cloud_management" := RouteBlocked, "deployment" := RouteBlocked]
  {
    if !(exists route :: RouteViolated(c, route) || RouteOpen(c, route)) {
      forall route ensures route in c.routes <==> route in REQUIRED_ROUTES {
        assert !RouteOpen(c, route);
      }
      forall route | route in c.routes ensures c.routes[route] == REQUIRED_ROUTES[route] {
        assert !RouteOpen(c, route) && !RouteViolated(c, route);
      }
      assert c.routes == REQUIRED_ROUTES;
    }
  }

  /** The collector names another record than the known one, or one made after its checkpoint. */
  ghost predicate Mislaid(k: Case, l: Collector, s: Slot, recordedAt: nat)
    requires s in k.supplied
  {
    s in l.retained && (l.retained[s] != k.supplied[s] || l.checkpointAt < recordedAt)
  }

  lemma MislaidMeans(k: Case, r: Records, l: Collector)
    requires FromEnvelopes(k, r)
    ensures (exists s :: RetainedWrongly(k, r, l, s)) <==>
      || (r.policy.Some? && Mislaid(k, l, PolicySlot, 0))
      || (r.maker.Some? && Mislaid(k, l, MakerSlot, r.maker.value.issuedAt))
      || (r.checker.Some? && Mislaid(k, l, CheckerSlot, r.checker.value.issuedAt))
      || (r.status.Some? && Mislaid(k, l, StatusSlot, r.status.value.checkedAt))
      || (r.dispatch.Some? && Mislaid(k, l, DispatchSlot, r.dispatch.value.dispatchedAt))
      || (r.receipt.Some? && Mislaid(k, l, ReceiptSlot, r.receipt.value.observedAt))
      || (r.control.Some? && Mislaid(k, l, ControlSlot, r.control.value.observedAt))
  {
    if s :| RetainedWrongly(k, r, l, s) {
      assert Present(r, s) && s in k.supplied;
    }
    assert RetainedWrongly(k, r, l, PolicySlot) <==> r.policy.Some? && Mislaid(k, l, PolicySlot, 0);
    assert r.maker.Some? && Mislaid(k, l, MakerSlot, r.maker.value.issuedAt) ==> RetainedWrongly(k, r, l, MakerSlot);
    assert r.checker.Some? && Mislaid(k, l, CheckerSlot, r.checker.value.issuedAt) ==>
        RetainedWrongly(k, r, l, CheckerSlot);
    assert r.status.Some? && Mislaid(k, l, StatusSlot, r.status.value.checkedAt) ==>
        RetainedWrongly(k, r, l, StatusSlot);
    assert r.dispatch.Some? && Mislaid(k, l, DispatchSlot, r.dispatch.value.dispatchedAt) ==>
        RetainedWrongly(k, r, l, DispatchSlot);
    assert r.receipt.Some? && Mislaid(k, l, ReceiptSlot, r.receipt.value.observedAt) ==>
        RetainedWrongly(k, r, l, ReceiptSlot);
    assert r.control.Some? && Mislaid(k, l, ControlSlot, r.control.value.observedAt) ==>
        RetainedWrongly(k, r, l, ControlSlot);
  }

  /** What contradicts a control state, among the known records. */
  lemma ControlContradicted(k: Case, r: Records, at: nat)
    requires FromEnvelopes(k, r)
    ensures ControlState(k, r, at) == INVALID <==>
      || (r.dispatch.Some? && r.dispatch.value.actual.runtime != k.op.runtime)
      || (r.policy.Some? &&
          var p := r.policy.value;
          || k.op.policyDigest != k.supplied[PolicySlot]
          || p.routes != {"payment_gate", "test_to_production", "cloud_management", "deployment"})
      || (r.control.Some? &&
          var c := r.control.value;
          || c.operation != k.codec.operationDigest(k.op) || c.configuration != k.op.runtime.configuration
          || c.epoch != k.op.runtime.epoch
          || (r.dispatch.Some? && r.dispatch.value.control != k.supplied[ControlSlot])
          || WrongRoute(c, "payment_gate", Gated) || WrongRoute(c, "test_to_production", RouteBlocked)
          || WrongRoute(c, "cloud_management", RouteBlocked) || WrongRoute(c, "deployment", RouteBlocked))
      || (r.collector.Some? &&
          var l := r.collector.value;
          || l.operation != k.codec.operationDigest(k.op) || l.configuration != k.op.runtime.configuration
          || l.epoch != k.op.runtime.epoch
          || (r.policy.Some? && Mislaid(k, l, PolicySlot, 0))
          || (r.maker.Some? && Mislaid(k, l, MakerSlot, r.maker.value.issuedAt))
          || (r.checker.Some? && Mislaid(k, l, CheckerSlot, r.checker.value.issuedAt))
          || (r.status.Some? && Mislaid(k, l, StatusSlot, r.status.value.checkedAt))
          || (r.dispatch.Some? && Mislaid(k, l, DispatchSlot, r.dispatch.value.dispatchedAt))
          || (r.receipt.Some? && Mislaid(k, l, ReceiptSlot, r.receipt.value.observedAt))
          || (r.control.Some? && Mislaid(k, l, ControlSlot, r.control.value.observedAt)))
  {
    if r.control.Some? { WrongRoutes(r.control.value); }
    if r.collector.Some? { MislaidMeans(k, r, r.collector.value); }
  }

  /** Retention is complete exactly when the collector lists the supplied records, each by its
      digest and made by the checkpoint. */
  lemma RetainsAll(k: Case, r: Records, l: Collector)
    requires FromEnvelopes(k, r) && k.supplied.Keys <= ALL_SLOTS
    ensures (&& !(exists s :: RetainedWrongly(k, r, l, s)) && !(exists s :: Unsupplied(k, l, s))
             && (forall s :: s in RETAINED_SLOTS ==> s in l.retained && Present(r, s))) <==>
            ExecutionKnown(r, l.checkpointAt) && l.retained == k.supplied - {CollectorSlot}
  {
    MislaidMeans(k, r, l);
    if ExecutionKnown(r, l.checkpointAt) && l.retained == k.supplied - {CollectorSlot} {
      return;
    }
    if && !(exists s :: RetainedWrongly(k, r, l, s)) && !(exists s :: Unsupplied(k, l, s))
       && (forall s :: s in RETAINED_SLOTS ==> s in l.retained && Present(r, s)) {
      forall s ensures s in l.retained <==> s in k.supplied && s != CollectorSlot {
        assert !Unsupplied(k, l, s);
      }
      forall s | s in l.retained ensures l.retained[s] == k.supplied[s] {
        assert !RetainedWrongly(k, r, l, s) && s in RETAINED_SLOTS;
      }
    }
  }

  /** A control state is upheld exactly when the four routes, and no others, were observed in
      their required states just before the dispatch, and the collector retained every supplied
      record by its checkpoint, without gaps. */
  lemma ControlUpheld(k: Case, r: Records, at: nat)
    requires FromEnvelopes(k, r) && k.supplied.Keys <= ALL_SLOTS
    ensures ControlState(k, r, at) == VALID <==>
      && r.collector.Some? && r.collector.value.checkpointAt <= at
      && ExecutionKnown(r, r.collector.value.checkpointAt) &&
      var d, c, l := r.dispatch.value, r.control.value, r.collector.value;
      var runtime := k.op.runtime;
      && d.actual.runtime == runtime
      && k.op.policyDigest == k.supplied[PolicySlot] && d.control == k.supplied[ControlSlot]
      && r.policy.value.routes == {"payment_gate", "test_to_production", "cloud_management", "deployment"}
      && c.operation == k.codec.operationDigest(k.op) && c.configuration == runtime.configuration
      && c.epoch == runtime.epoch && c.observedAt <= d.dispatchedAt && d.dispatchedAt - c.observedAt <= k.maxAge
      && c.routes == map["payment_gate" := Gated, "test_to_production" := RouteBlocked,
                         "cloud_management" := RouteBlocked, "deployment" := RouteBlocked]
      && l.operation == k.codec.operationDigest(k.op) && l.configuration == runtime.configuration
      && l.epoch == runtime.epoch && l.gaps == [] && l.retained == k.supplied - {CollectorSlot}
  {
    if r.control.Some? { RequiredRoutes(r.control.value); }
    if r.collector.Some? { RetainsAll(k, r, r.collector.value); }
  }
}
