/** Retrospective assessment of one bundle of payment evidence at a caller-chosen time.  A
    record is present here once its signature, shape and run have been authenticated;
    encodings and digests are arbitrary functions. */
module PaymentEvidence {
  import opened Wrappers

  type Digest = string
  type Request = string

  datatype Slot =
    | PolicySlot | MakerSlot | CheckerSlot | StatusSlot | DispatchSlot | ReceiptSlot | ControlSlot | CollectorSlot
    | Unnamed(name: string)

  const ALL_SLOTS: set<Slot> := RETAINED_SLOTS + {CollectorSlot}
  const RETAINED_SLOTS: set<Slot> := {PolicySlot, MakerSlot, CheckerSlot, StatusSlot, DispatchSlot, ReceiptSlot,
                                      ControlSlot}

  datatype RouteState = Gated | RouteBlocked | Bypassed | Unobserved
  const REQUIRED_ROUTES: map<string, RouteState> :=
    map["payment_gate" := Gated, "test_to_production" := RouteBlocked, "cloud_management" := RouteBlocked,
        "deployment" := RouteBlocked]

  /** Where and as whom an operation runs. */
  datatype Runtime = Runtime(tenant: string, environment: string, audience: string, adapter: string, principal: string,
                             credential: string, workload: string, configuration: Digest, epoch: nat)
  datatype Operation = Operation(runtime: Runtime, currency: string, scale: nat, source: string, beneficiary: string,
                                 amount: nat, identity: string, policyDigest: Digest, payloadDigest: Digest,
                                 validFrom: nat, validUntil: nat)

  datatype Policy = Policy(runtime: Runtime, currency: string, scale: nat, provider: string, sources: set<string>,
                           beneficiaries: set<string>, maxAmount: nat, routes: set<string>,
                           validFrom: nat, validUntil: nat)
  datatype Approval = Approval(approvalId: string, operation: Digest, policy: Digest, issuedAt: nat, expiresAt: nat,
                               signer: string)
  datatype StatusState = Active | Revoked | NotKnown
  datatype Status = Status(operation: Digest, policy: Digest, maker: Digest, checker: Digest, credential: string,
                           configuration: Digest, epoch: nat, checkedAt: nat, validUntil: nat,
                           state: StatusState, revokedAt: Option<nat>)
  datatype Dispatch = Dispatch(operation: Digest, policy: Digest, maker: Digest, checker: Digest, status: Digest,
                               control: Digest, actual: Operation, request: Request, dispatchedAt: nat)
  datatype Outcome = Accepted | Pending | Settled | Failed | Reversed | Unknown
  datatype Receipt = Receipt(provider: string, audience: string, operation: Digest, payload: Digest, dispatch: Digest,
                             observedAt: nat, status: Outcome)
  datatype Control = Control(operation: Digest, configuration: Digest, epoch: nat, observedAt: nat, routes: map<string,
                             RouteState>)
  datatype Collector = Collector(operation: Digest, configuration: Digest, epoch: nat, checkpointAt: nat,
                                 retained: map<Slot, Digest>, gaps: seq<string>)

  /** The authenticated records; an absent one was not supplied or could not be verified. */
  datatype Records = Records(policy: Option<Policy>, maker: Option<Approval>, checker: Option<Approval>,
                             status: Option<Status>, dispatch: Option<Dispatch>, receipt: Option<Receipt>,
                             control: Option<Control>, collector: Option<Collector>)

  datatype Identity = Identity(person: string, roles: set<Slot>, tenant: string, environment: string, validFrom: nat,
                               validUntil: nat)

  datatype Codec = Codec(operationDigest: Operation -> Digest, requestDigest: Request -> Digest,
                         encode: Operation -> Request, decode: Request -> Option<string>, canonical: string -> Request)

  /** Why a supplied envelope is no record: its shape, signature or run is wrong, or the caller
      trusts no key of that name in its role. */
  datatype Fault = Broken | Untrusted

  /** What does not change with time: the approved operation, the digests of the supplied
      envelopes with their faults, and the caller's identities and freshness limit. */
  datatype Case = Case(codec: Codec, op: Operation, supplied: map<Slot, Digest>, faults: map<Slot, Fault>,
                       identities: map<string, Identity>, maxAge: nat)
  {
    function OpDigest(): Digest { codec.operationDigest(op) }
  }

  predicate Present(r: Records, s: Slot) {
    match s
    case PolicySlot => r.policy.Some?
    case MakerSlot => r.maker.Some?
    case CheckerSlot => r.checker.Some?
    case StatusSlot => r.status.Some?
    case DispatchSlot => r.dispatch.Some?
    case ReceiptSlot => r.receipt.Some?
    case ControlSlot => r.control.Some?
    case CollectorSlot => r.collector.Some?
    case Unnamed(_) => false
  }

  /** Only a supplied envelope can have been authenticated. */
  ghost predicate FromEnvelopes(k: Case, r: Records) {
    forall s :: Present(r, s) ==> s in k.supplied
  }

  function RecordedAt(r: Records, s: Slot): Option<nat> {
    match s
    case MakerSlot => if r.maker.Some? then Some(r.maker.value.issuedAt) else None
    case CheckerSlot => if r.checker.Some? then Some(r.checker.value.issuedAt) else None
    case StatusSlot => if r.status.Some? then Some(r.status.value.checkedAt) else None
    case DispatchSlot => if r.dispatch.Some? then Some(r.dispatch.value.dispatchedAt) else None
    case ReceiptSlot => if r.receipt.Some? then Some(r.receipt.value.observedAt) else None
    case ControlSlot => if r.control.Some? then Some(r.control.value.observedAt) else None
    case CollectorSlot => if r.collector.Some? then Some(r.collector.value.checkpointAt) else None
    case _ => None
  }

  predicate Later(r: Records, s: Slot, at: nat) { RecordedAt(r, s).Some? && RecordedAt(r, s).value > at }

  /** The records that exist by the evaluation time. */
  function Until(r: Records, at: nat): Records {
    Records(r.policy,
            if Later(r, MakerSlot, at) then None else r.maker,
            if Later(r, CheckerSlot, at) then None else r.checker,
            if Later(r, StatusSlot, at) then None else r.status,
            if Later(r, DispatchSlot, at) then None else r.dispatch,
            if Later(r, ReceiptSlot, at) then None else r.receipt,
            if Later(r, ControlSlot, at) then None else r.control,
            if Later(r, CollectorSlot, at) then None else r.collector)
  }

  // ----- what contradicts a claim, and what leaves it open

  predicate InWindow(start: nat, end: nat, at: nat) { start < end && start <= at < end }

  predicate IsFresh(k: Case, observed: nat, at: nat) { observed <= at && at - observed <= k.maxAge }

  /** A reference names an authenticated envelope that is a different one. */
  predicate Misbound(k: Case, r: Records, ref: Digest, s: Slot) {
    Present(r, s) && s in k.supplied && ref != k.supplied[s]
  }

  predicate PayloadMatches(k: Case, d: Dispatch) {
    && d.operation == k.OpDigest() && d.actual == k.op
    && k.codec.requestDigest(d.request) == d.actual.payloadDigest
    && k.codec.requestDigest(d.request) == k.op.payloadDigest
    && var decoded := k.codec.decode(d.request);
       && decoded.Some? && k.codec.canonical(decoded.value) == d.request
       && k.codec.decode(k.codec.encode(d.actual)) == decoded
  }

  predicate PolicyGrants(p: Policy, d: Dispatch) {
    var a := d.actual;
    && p.runtime == a.runtime && p.currency == a.currency && p.scale == a.scale
    && a.source in p.sources && a.beneficiary in p.beneficiaries && a.amount <= p.maxAmount
    && p.routes == REQUIRED_ROUTES.Keys && InWindow(p.validFrom, p.validUntil, d.dispatchedAt)
  }

  function ApprovalOf(r: Records, s: Slot): Option<Approval> {
    if s == MakerSlot then r.maker else r.checker
  }

  predicate ApprovalFails(k: Case, s: Slot, a: Approval, d: Dispatch) {
    || a.operation != k.OpDigest() || a.policy != k.op.policyDigest
    || !InWindow(a.issuedAt, a.expiresAt, d.dispatchedAt)
    || (a.signer in k.identities &&
        var who := k.identities[a.signer];
        || s !in who.roles || who.tenant != d.actual.runtime.tenant || who.environment != d.actual.runtime.environment
        || !InWindow(who.validFrom, who.validUntil, a.issuedAt)
        || !InWindow(who.validFrom, who.validUntil, d.dispatchedAt))
  }

  predicate SamePerson(k: Case, a: Approval, b: Approval) {
    && a.signer in k.identities && b.signer in k.identities
    && k.identities[a.signer].person == k.identities[b.signer].person
  }

  predicate RevocationFails(s: Status, d: Dispatch) {
    if s.state == Revoked
    then s.revokedAt.None? || s.revokedAt.value > s.checkedAt || s.revokedAt.value <= d.dispatchedAt
    else s.revokedAt.Some?
  }

  predicate RevocationOpen(s: Status, d: Dispatch) {
    if s.state == Revoked then s.revokedAt.Some? && s.revokedAt.value > d.dispatchedAt else s.state != Active
  }

  predicate StatusFails(k: Case, r: Records, s: Status, d: Dispatch) {
    || s.operation != k.OpDigest() || s.policy != k.op.policyDigest || s.credential != d.actual.runtime.credential
    || s.configuration != d.actual.runtime.configuration || s.epoch != d.actual.runtime.epoch
    || Misbound(k, r, s.maker, MakerSlot) || Misbound(k, r, s.checker, CheckerSlot)
    || (r.maker.Some? && r.maker.value.issuedAt > s.checkedAt)
    || (r.checker.Some? && r.checker.value.issuedAt > s.checkedAt)
    || s.checkedAt >= s.validUntil || RevocationFails(s, d)
  }

  predicate StatusOpen(k: Case, r: Records, s: Status, d: Dispatch, at: nat) {
    || r.maker.None? || r.checker.None? || !IsFresh(k, s.checkedAt, d.dispatchedAt) || s.checkedAt > at
    || d.dispatchedAt >= s.validUntil
    || RevocationOpen(s, d)
  }

  predicate ApprovalsFail(k: Case, r: Records, d: Dispatch) {
    || Misbound(k, r, d.maker, MakerSlot) || Misbound(k, r, d.checker, CheckerSlot)
    || (r.maker.Some? && ApprovalFails(k, MakerSlot, r.maker.value, d))
    || (r.checker.Some? && ApprovalFails(k, CheckerSlot, r.checker.value, d))
    || (r.maker.Some? && r.checker.Some? &&
        (SamePerson(k, r.maker.value, r.checker.value) || r.maker.value.approvalId == r.checker.value.approvalId))
  }

  predicate ApprovalsOpen(k: Case, r: Records) {
    r.maker.None? || r.checker.None? || r.maker.value.signer !in k.identities || r.checker.value.signer !in k.identities
  }

  predicate PolicyMisbound(k: Case, r: Records, d: Dispatch) {
    Misbound(k, r, k.op.policyDigest, PolicySlot) || Misbound(k, r, d.policy, PolicySlot)
  }

  predicate AuthorizationFails(k: Case, r: Records) {
    r.dispatch.Some? &&
    var d := r.dispatch.value;
    || !PayloadMatches(k, d) || !InWindow(d.actual.validFrom, d.actual.validUntil, d.dispatchedAt)
    || k.codec.requestDigest(k.codec.encode(k.op)) != k.op.payloadDigest
    || PolicyMisbound(k, r, d) || (r.policy.Some? && !PolicyGrants(r.policy.value, d))
    || ApprovalsFail(k, r, d)
    || Misbound(k, r, d.status, StatusSlot) || (r.status.Some? && StatusFails(k, r, r.status.value, d))
  }

  predicate AuthorizationOpen(k: Case, r: Records, at: nat) {
    r.dispatch.None? ||
    var d := r.dispatch.value;
    || d.dispatchedAt > at || r.policy.None? || ApprovalsOpen(k, r) || r.status.None?
    || StatusOpen(k, r, r.status.value, d, at)
  }

  predicate ReceiptFails(k: Case, r: Records, c: Receipt, d: Dispatch) {
    || c.operation != k.OpDigest() || c.payload != k.op.payloadDigest || c.audience != k.op.runtime.audience
    || Misbound(k, r, c.dispatch, DispatchSlot) || (r.policy.Some? && c.provider != r.policy.value.provider)
    || c.observedAt < d.dispatchedAt
  }

  predicate ExecutionFails(k: Case, r: Records) {
    r.dispatch.Some? &&
    var d := r.dispatch.value;
    || !PayloadMatches(k, d) || PolicyMisbound(k, r, d)
    || Misbound(k, r, d.maker, MakerSlot) || Misbound(k, r, d.checker, CheckerSlot)
    || Misbound(k, r, d.status, StatusSlot) || Misbound(k, r, d.control, ControlSlot)
    || (r.receipt.Some? && ReceiptFails(k, r, r.receipt.value, d))
  }

  /** Open even before the receipt's own outcome is looked at. */
  predicate CorrespondenceOpen(r: Records, at: nat) {
    || r.dispatch.None? || r.receipt.None? || r.dispatch.value.dispatchedAt > at || r.policy.None? || r.maker.None?
    || r.checker.None? || r.status.None? || r.control.None? || r.receipt.value.observedAt > at
  }

  predicate ExecutionOpen(r: Records, at: nat) {
    CorrespondenceOpen(r, at) || r.receipt.value.status !in {Settled, Failed, Reversed}
  }

  predicate RouteViolated(c: Control, route: string) {
    && route in REQUIRED_ROUTES && route in c.routes
    && c.routes[route] != Unobserved && c.routes[route] != REQUIRED_ROUTES[route]
  }

  predicate RouteOpen(c: Control, route: string) {
    if route in REQUIRED_ROUTES then route !in c.routes || c.routes[route] == Unobserved else route in c.routes
  }

  ghost predicate ControlFails(k: Case, r: Records, c: Control) {
    || c.operation != k.OpDigest() || c.configuration != k.op.runtime.configuration || c.epoch != k.op.runtime.epoch
    || (r.dispatch.Some? && Misbound(k, r, r.dispatch.value.control, ControlSlot))
    || exists route :: RouteViolated(c, route)
  }

  ghost predicate ControlOpen(k: Case, r: Records, c: Control, at: nat) {
    || c.observedAt > at || (exists route :: RouteOpen(c, route))
    || (r.dispatch.Some? &&
        var dispatched := r.dispatch.value.dispatchedAt; !IsFresh(k, c.observedAt, dispatched) || dispatched > at)
  }

  predicate RetainedWrongly(k: Case, r: Records, c: Collector, s: Slot) {
    && s != CollectorSlot && s in c.retained
    && (|| Misbound(k, r, c.retained[s], s)
        || (Present(r, s) && RecordedAt(r, s).Some? && RecordedAt(r, s).value > c.checkpointAt))
  }

  ghost predicate CollectorFails(k: Case, r: Records, c: Collector) {
    || c.operation != k.OpDigest() || c.configuration != k.op.runtime.configuration || c.epoch != k.op.runtime.epoch
    || exists s :: RetainedWrongly(k, r, c, s)
  }

  predicate Unsupplied(k: Case, c: Collector, s: Slot) {
    s in c.retained && (s !in k.supplied || s == CollectorSlot)
  }

  ghost predicate CollectorOpen(k: Case, r: Records, c: Collector, at: nat) {
    || c.checkpointAt > at || c.gaps != []
    || (exists s :: s in RETAINED_SLOTS && (s !in c.retained || !Present(r, s)))
    || (exists s :: Unsupplied(k, c, s))
  }

  ghost predicate ControlStateFails(k: Case, r: Records) {
    || (r.dispatch.Some? && r.dispatch.value.actual.runtime != k.op.runtime)
    || Misbound(k, r, k.op.policyDigest, PolicySlot)
    || (r.policy.Some? && r.policy.value.routes != REQUIRED_ROUTES.Keys)
    || (r.control.Some? && ControlFails(k, r, r.control.value))
    || (r.collector.Some? && CollectorFails(k, r, r.collector.value))
  }

  ghost predicate ControlStateOpen(k: Case, r: Records, at: nat) {
    || r.control.None? || r.collector.None? || r.dispatch.None? || r.policy.None?
    || ControlOpen(k, r, r.control.value, at) || CollectorOpen(k, r, r.collector.value, at)
  }

  // ----- verdicts

  datatype Verdict = INVALID | INDETERMINATE | VALID

  function VerdictOf(fails: bool, open: bool): Verdict {
    if fails then INVALID else if open then INDETERMINATE else VALID
  }

  datatype Claims = Claims(integrity: Verdict, authorization: Verdict, execution: Verdict, control: Verdict,
                           outcome: Outcome, settlementConfirmed: bool)

  /** What is reported of a bundle that cannot be read. */
  const UNUSABLE := Claims(INVALID, INDETERMINATE, INDETERMINATE, INDETERMINATE, Unknown, false)

  /** The integrity of what was supplied; it does not depend on any time. */
  ghost function Integrity(k: Case): Verdict {
    VerdictOf(exists s :: s in k.faults && k.faults[s] == Broken, k.faults != map[] || k.supplied == map[])
  }

  ghost function Authorization(k: Case, r: Records, at: nat): Verdict {
    VerdictOf(AuthorizationFails(k, r), AuthorizationOpen(k, r, at))
  }

  ghost function Execution(k: Case, r: Records, at: nat): Verdict {
    VerdictOf(ExecutionFails(k, r), ExecutionOpen(r, at))
  }

  ghost function ReportedOutcome(k: Case, r: Records, at: nat): Outcome {
    if !ExecutionFails(k, r) && !CorrespondenceOpen(r, at) then r.receipt.value.status else Unknown
  }

  ghost function ControlState(k: Case, r: Records, at: nat): Verdict {
    VerdictOf(ControlStateFails(k, r), ControlStateOpen(k, r, at))
  }

  /** The claims and the outcome, given the records known at the evaluation time. */
  ghost function ClaimsOf(k: Case, r: Records, at: nat): Claims {
    Claims(Integrity(k), Authorization(k, r, at), Execution(k, r, at), ControlState(k, r, at),
           ReportedOutcome(k, r, at), Execution(k, r, at) == VALID && ReportedOutcome(k, r, at) == Settled)
  }

  ghost function ClaimsAt(k: Case, records: Records, at: nat): Claims {
    ClaimsOf(k, Until(records, at), at)
  }

  // ----- the assessment as it accumulates reasons

  class Checks {
    var invalid: seq<string>
    var unknown: seq<string>

    constructor ()
      ensures invalid == [] && unknown == []
    {
      invalid, unknown := [], [];
    }

    method Require(condition: bool, reason: string)
      modifies this
      ensures unknown == old(unknown) && invalid == old(invalid) + (if condition then [] else [reason])
    {
      if !condition { invalid := invalid + [reason]; }
    }

    method Available(condition: bool, reason: string)
      modifies this
      ensures invalid == old(invalid) && unknown == old(unknown) + (if condition then [] else [reason])
    {
      if !condition { unknown := unknown + [reason]; }
    }

    function Result(): Verdict
      reads this
    {
      if invalid != [] then INVALID else if unknown != [] then INDETERMINATE else VALID
    }

    /** Each supplied envelope that is no record leaves its reason. */
    method CheckIntegrity(k: Case)
      requires k.faults.Keys <= k.supplied.Keys <= ALL_SLOTS && invalid == [] && unknown == []
      modifies this
      ensures Result() == Integrity(k)
    {
      var todo := ALL_SLOTS;
      while todo != {}
        invariant todo <= ALL_SLOTS
        invariant invalid == [] <==> forall s :: s in k.faults && s !in todo ==> k.faults[s] == Untrusted
        invariant invalid == [] ==> (unknown == [] <==> forall s :: s in k.faults ==> s in todo)
        decreases todo
      {
        var s :| s in todo;
        if s in k.faults && k.faults[s] == Broken {
          invalid := invalid + ["envelope_shape_signature_or_context"];
        } else if s in k.faults {
          unknown := unknown + ["no_caller_trusted_role_key"];
        }
        todo := todo - {s};
      }
      Available(k.supplied != map[], "no_supplied_evidence");
      assert k.faults != map[] <==> exists s :: s in k.faults;
    }

    /** A reference to a record: unverifiable leaves the claim open, a different one fails it. */
    method Bind(k: Case, r: Records, ref: Digest, s: Slot, about: string)
      requires FromEnvelopes(k, r)
      modifies this
      ensures invalid == [] <==> old(invalid) == [] && !Misbound(k, r, ref, s)
      ensures unknown == [] <==> old(unknown) == [] && Present(r, s)
    {
      Available(Present(r, s), about + ":referent_unverifiable");
      if s !in k.supplied { unknown := unknown + [about + ":referent_not_supplied"]; }
      if Present(r, s) { Require(ref == k.supplied[s], about + ":digest_mismatch"); }
    }

    method Window(start: nat, end: nat, at: nat, about: string)
      modifies this
      ensures unknown == old(unknown)
      ensures invalid == [] <==> old(invalid) == [] && InWindow(start, end, at)
    {
      Require(start < end, about + ":invalid_window");
      Require(start <= at < end, about + ":outside_validity_window");
    }

    method Fresh(k: Case, observed: nat, at: nat, about: string)
      modifies this
      ensures invalid == old(invalid) && (unknown == [] <==> old(unknown) == [] && IsFresh(k, observed, at))
    {
      Available(observed <= at && at - observed <= k.maxAge, about + ":freshness_not_established");
    }

    method DispatchPayload(k: Case, d: Dispatch)
      modifies this
      ensures unknown == old(unknown)
      ensures invalid == [] <==> old(invalid) == [] && PayloadMatches(k, d)
    {
      Require(d.operation == k.OpDigest(), "dispatch:approved_operation_digest_mismatch");
      Require(d.actual == k.op, "dispatch:actual_operation_mismatch");
      Require(k.codec.requestDigest(d.request) == d.actual.payloadDigest, "dispatch:actual_payload_digest_mismatch");
      Require(k.codec.requestDigest(d.request) == k.op.payloadDigest, "dispatch:approved_payload_digest_mismatch");
      var decoded := k.codec.decode(d.request);
      if decoded.Some? {
        Require(k.codec.canonical(decoded.value) == d.request, "dispatch:noncanonical_request");
        Require(decoded == k.codec.decode(k.codec.encode(d.actual)), "dispatch:request_semantics_mismatch");
      } else {
        invalid := invalid + ["dispatch:request_encoding_invalid"];
      }
    }

    method CheckPolicy(k: Case, r: Records, d: Dispatch)
      requires FromEnvelopes(k, r)
      modifies this
      ensures invalid == [] <==>
        old(invalid) == [] && !PolicyMisbound(k, r, d) && (r.policy.Some? ==> PolicyGrants(r.policy.value, d))
      ensures unknown == [] <==> old(unknown) == [] && r.policy.Some?
    {
      Available(r.policy.Some?, "policy:missing_or_unverifiable");
      Bind(k, r, k.op.policyDigest, PolicySlot, "operation:policy");
      Bind(k, r, d.policy, PolicySlot, "dispatch:policy");
      if r.policy.Some? {
        var p, a := r.policy.value, d.actual;
        Require(p.runtime == a.runtime && p.currency == a.currency && p.scale == a.scale, "policy:field_mismatch");
        Require(a.source in p.sources, "policy:source_not_allowed");
        Require(a.beneficiary in p.beneficiaries, "policy:beneficiary_not_allowed");
        Require(a.amount <= p.maxAmount, "policy:amount_exceeded");
        Require(p.routes == REQUIRED_ROUTES.Keys, "policy:required_route_scope_mismatch");
        Window(p.validFrom, p.validUntil, d.dispatchedAt, "policy");
      }
    }

    method CheckApproval(k: Case, r: Records, s: Slot, ref: Digest, d: Dispatch)
      requires FromEnvelopes(k, r) && s in {MakerSlot, CheckerSlot}
      modifies this
      ensures invalid == [] <==> old(invalid) == [] && !Misbound(k, r, ref, s)
                                 && (ApprovalOf(r, s).Some? ==> !ApprovalFails(k, s, ApprovalOf(r, s).value, d))
      ensures unknown == [] <==>
        old(unknown) == [] && ApprovalOf(r, s).Some? && ApprovalOf(r, s).value.signer in k.identities
    {
      var found := ApprovalOf(r, s);
      Available(found.Some?, "approval:missing_or_unverifiable");
      Bind(k, r, ref, s, "dispatch:approval");
      if found.None? { return; }
      var a := found.value;
      Require(a.operation == k.OpDigest(), "approval:operation_digest_mismatch");
      Require(a.policy == k.op.policyDigest, "approval:policy_digest_mismatch");
      Window(a.issuedAt, a.expiresAt, d.dispatchedAt, "approval");
      Available(a.signer in k.identities, "approval:identity_mapping_missing");
      if a.signer in k.identities {
        var who := k.identities[a.signer];
        Require(s in who.roles, "approval:ineligible_role");
        Require(who.tenant == d.actual.runtime.tenant, "approval:identity_tenant_mismatch");
        Require(who.environment == d.actual.runtime.environment, "approval:identity_environment_mismatch");
        Window(who.validFrom, who.validUntil, a.issuedAt, "approval:identity_at_issuance");
        Window(who.validFrom, who.validUntil, d.dispatchedAt, "approval:identity");
      }
    }

    method CheckApprovals(k: Case, r: Records, d: Dispatch)
      requires FromEnvelopes(k, r)
      modifies this
      ensures invalid == [] <==> old(invalid) == [] && !ApprovalsFail(k, r, d)
      ensures unknown == [] <==> old(unknown) == [] && !ApprovalsOpen(k, r)
    {
      CheckApproval(k, r, MakerSlot, d.maker, d);
      CheckApproval(k, r, CheckerSlot, d.checker, d);
      if r.maker.Some? && r.checker.Some? {
        var a, b := r.maker.value, r.checker.value;
        if a.signer in k.identities && b.signer in k.identities {
          Require(k.identities[a.signer].person != k.identities[b.signer].person, "approvals:same_person");
        }
        Require(a.approvalId != b.approvalId, "approvals:duplicate_approval_id");
      }
    }

    method CheckRevocation(s: Status, d: Dispatch)
      modifies this
      ensures invalid == [] <==> old(invalid) == [] && !RevocationFails(s, d)
      ensures unknown == [] <==> old(unknown) == [] && !RevocationOpen(s, d)
    {
      if s.state == Revoked {
        Require(s.revokedAt.Some?, "final_status:revocation_time_missing");
        if s.revokedAt.Some? {
          var revoked := s.revokedAt.value;
          Require(revoked <= s.checkedAt, "final_status:revocation_after_observation");
          Require(revoked > d.dispatchedAt, "final_status:revoked_before_dispatch");
          Available(revoked <= d.dispatchedAt, "final_status:historical_active_state_unknown");
        }
      } else {
        Require(s.revokedAt.None?, "final_status:unexpected_revocation_time");
        Available(s.state == Active, "final_status:status_unknown");
      }
    }

    method CheckStatusBinding(k: Case, r: Records, s: Status, ref: Digest, a: Slot)
      requires FromEnvelopes(k, r) && a in {MakerSlot, CheckerSlot}
      modifies this
      ensures invalid == [] <==> old(invalid) == [] && !Misbound(k, r, ref, a)
                                 && (ApprovalOf(r, a).Some? ==> ApprovalOf(r, a).value.issuedAt <= s.checkedAt)
      ensures unknown == [] <==> old(unknown) == [] && Present(r, a)
    {
      Bind(k, r, ref, a, "final_status:approval");
      var approval := ApprovalOf(r, a);
      if approval.Some? { Require(approval.value.issuedAt <= s.checkedAt, "final_status:precedes_approval"); }
    }

    method CheckStatusTimes(k: Case, s: Status, d: Dispatch, at: nat)
      modifies this
      ensures invalid == [] <==> old(invalid) == [] && s.checkedAt < s.validUntil
      ensures unknown == [] <==>
        && old(unknown) == [] && IsFresh(k, s.checkedAt, d.dispatchedAt) && s.checkedAt <= at
        && d.dispatchedAt < s.validUntil
    {
      Require(s.checkedAt < s.validUntil, "final_status:invalid_window");
      Fresh(k, s.checkedAt, d.dispatchedAt, "final_status");
      Available(s.checkedAt <= at, "final_status:after_evaluation_horizon");
      Available(d.dispatchedAt < s.validUntil, "final_status:expired_snapshot");
    }

    method CheckStatus(k: Case, r: Records, d: Dispatch, at: nat)
      requires FromEnvelopes(k, r)
      modifies this
      ensures invalid == [] <==> old(invalid) == [] && !Misbound(k, r, d.status, StatusSlot)
                                 && (r.status.Some? ==> !StatusFails(k, r, r.status.value, d))
      ensures unknown == [] <==> old(unknown) == [] && r.status.Some? && !StatusOpen(k, r, r.status.value, d, at)
    {
      Available(r.status.Some?, "final_status:missing_or_unverifiable");
      Bind(k, r, d.status, StatusSlot, "dispatch:final_status");
      if r.status.Some? {
        var s, actual := r.status.value, d.actual.runtime;
        Require(s.operation == k.OpDigest() && s.policy == k.op.policyDigest, "final_status:digest_mismatch");
        Require(s.credential == actual.credential && s.configuration == actual.configuration && s.epoch == actual.epoch,
                "final_status:field_mismatch");
        CheckStatusBinding(k, r, s, s.maker, MakerSlot);
        CheckStatusBinding(k, r, s, s.checker, CheckerSlot);
        CheckStatusTimes(k, s, d, at);
        CheckRevocation(s, d);
      }
    }

    method CheckAuthorization(k: Case, r: Records, at: nat)
      requires FromEnvelopes(k, r) && invalid == [] && unknown == []
      modifies this
      ensures Result() == Authorization(k, r, at)
    {
      Available(r.dispatch.Some?, "dispatch:missing_or_unverifiable");
      if r.dispatch.None? { return; }
      var d := r.dispatch.value;
      Available(d.dispatchedAt <= at, "dispatch:after_evaluation_horizon");
      DispatchPayload(k, d);
      Window(d.actual.validFrom, d.actual.validUntil, d.dispatchedAt, "operation");
      Require(k.codec.requestDigest(k.codec.encode(k.op)) == k.op.payloadDigest,
              "operation:declared_payload_digest_mismatch");
      CheckPolicy(k, r, d);
      CheckApprovals(k, r, d);
      CheckStatus(k, r, d, at);
    }

    method CheckReceipt(k: Case, r: Records, d: Dispatch, at: nat)
      requires FromEnvelopes(k, r) && r.receipt.Some? && r.dispatch.Some?
      modifies this
      ensures invalid == [] <==> old(invalid) == [] && !ReceiptFails(k, r, r.receipt.value, d)
      ensures unknown == [] <==> old(unknown) == [] && r.policy.Some? && r.receipt.value.observedAt <= at
    {
      var c := r.receipt.value;
      Require(c.operation == k.OpDigest(), "provider_receipt:operation_digest_mismatch");
      Require(c.payload == k.op.payloadDigest, "provider_receipt:payload_digest_mismatch");
      Require(c.audience == k.op.runtime.audience, "provider_receipt:audience_mismatch");
      Bind(k, r, c.dispatch, DispatchSlot, "provider_receipt:dispatch");
      Available(r.policy.Some?, "policy:missing_or_unverifiable");
      if r.policy.Some? { Require(c.provider == r.policy.value.provider, "provider_receipt:provider_mismatch"); }
      Require(d.dispatchedAt <= c.observedAt, "provider_receipt:precedes_dispatch");
      Available(c.observedAt <= at, "provider_receipt:after_evaluation_horizon");
    }

    method CheckReferences(k: Case, r: Records, d: Dispatch)
      requires FromEnvelopes(k, r)
      modifies this
      ensures invalid == [] <==>
        && old(invalid) == [] && !PolicyMisbound(k, r, d) && !Misbound(k, r, d.maker, MakerSlot)
        && !Misbound(k, r, d.checker, CheckerSlot) && !Misbound(k, r, d.status, StatusSlot)
        && !Misbound(k, r, d.control, ControlSlot)
      ensures unknown == [] <==>
        old(unknown) == [] && r.policy.Some? && r.maker.Some? && r.checker.Some? && r.status.Some? && r.control.Some?
    {
      Bind(k, r, k.op.policyDigest, PolicySlot, "operation:policy");
      Bind(k, r, d.policy, PolicySlot, "dispatch:policy");
      Bind(k, r, d.maker, MakerSlot, "dispatch:maker_approval");
      Bind(k, r, d.checker, CheckerSlot, "dispatch:checker_approval");
      Bind(k, r, d.status, StatusSlot, "dispatch:final_status");
      Bind(k, r, d.control, ControlSlot, "dispatch:control");
    }

    /** The receipt's outcome is reported only for an execution without any open question. */
    method CheckExecution(k: Case, r: Records, at: nat) returns (outcome: Outcome)
      requires FromEnvelopes(k, r) && invalid == [] && unknown == []
      modifies this
      ensures Result() == Execution(k, r, at)
      ensures outcome == ReportedOutcome(k, r, at)
    {
      outcome := Unknown;
      Available(r.dispatch.Some?, "dispatch:missing_or_unverifiable");
      Available(r.receipt.Some?, "provider_receipt:missing_or_unverifiable");
      if r.dispatch.None? { return; }
      var d := r.dispatch.value;
      DispatchPayload(k, d);
      Available(d.dispatchedAt <= at, "dispatch:after_evaluation_horizon");
      CheckReferences(k, r, d);
      if r.receipt.Some? {
        CheckReceipt(k, r, d, at);
        if invalid == [] && unknown == [] { outcome := r.receipt.value.status; }
        Available(r.receipt.value.status in {Settled, Failed, Reversed},
                  "provider_receipt:terminal_outcome_not_established");
      }
    }

    method CheckRoutes(c: Control)
      modifies this
      ensures invalid == [] <==> old(invalid) == [] && !exists route :: RouteViolated(c, route)
      ensures unknown == [] <==> old(unknown) == [] && !exists route :: RouteOpen(c, route)
    {
      var todo := REQUIRED_ROUTES.Keys;
      while todo != {}
        invariant todo <= REQUIRED_ROUTES.Keys
        invariant invalid == [] <==> old(invalid) == [] && forall x :: RouteViolated(c, x) ==> x in todo
        invariant unknown == [] <==> old(unknown) == [] && forall x :: x in REQUIRED_ROUTES && RouteOpen(c, x) ==>
          x in todo
        decreases todo
      {
        var route :| route in todo;
        if route !in c.routes || c.routes[route] == Unobserved {
          assert RouteOpen(c, route);
          unknown := unknown + ["control:" + route + "_not_observed"];
        } else {
          assert RouteViolated(c, route) <==> c.routes[route] != REQUIRED_ROUTES[route];
          Require(c.routes[route] == REQUIRED_ROUTES[route], "control:" + route + "_violated");
        }
        todo := todo - {route};
      }
      var extra := c.routes.Keys - REQUIRED_ROUTES.Keys;
      assert forall x :: x in extra <==> x !in REQUIRED_ROUTES && RouteOpen(c, x);
      if extra != {} {
        var route :| route in extra;
        unknown := unknown + ["control:additional_route_not_in_supported_scope:" + route];
      }
    }

    method CheckControl(k: Case, r: Records, c: Control, at: nat)
      requires FromEnvelopes(k, r) && r.control == Some(c)
      modifies this
      ensures invalid == [] <==> old(invalid) == [] && !ControlFails(k, r, c)
      ensures unknown == [] <==> old(unknown) == [] && !ControlOpen(k, r, c, at)
    {
      Require(c.operation == k.OpDigest(), "control:operation_digest_mismatch");
      Require(c.configuration == k.op.runtime.configuration, "control:configuration_digest_mismatch");
      Require(c.epoch == k.op.runtime.epoch, "control:recovery_epoch_mismatch");
      Available(c.observedAt <= at, "control:after_evaluation_horizon");
      if r.dispatch.Some? {
        var d := r.dispatch.value;
        Fresh(k, c.observedAt, d.dispatchedAt, "control");
        Bind(k, r, d.control, ControlSlot, "dispatch:control");
        Available(d.dispatchedAt <= at, "dispatch:after_evaluation_horizon");
      }
      CheckRoutes(c);
    }

    method CheckRetention(k: Case, r: Records, c: Collector)
      requires FromEnvelopes(k, r)
      modifies this
      ensures invalid == old(invalid)
      ensures unknown == [] <==> old(unknown) == [] && forall s :: s in RETAINED_SLOTS ==>
        s in c.retained && Present(r, s)
    {
      var todo := RETAINED_SLOTS;
      while todo != {}
        invariant todo <= RETAINED_SLOTS && invalid == old(invalid)
        invariant unknown == [] <==> old(unknown) == [] && forall s :: s in RETAINED_SLOTS - todo ==>
          s in c.retained && Present(r, s)
        decreases todo
      {
        var s :| s in todo;
        Available(s in c.retained, "collector:retention_not_asserted");
        Available(Present(r, s), "collector:evidence_unverifiable");
        todo := todo - {s};
      }
    }

    method CheckRetained(k: Case, r: Records, c: Collector)
      requires FromEnvelopes(k, r)
      modifies this
      ensures invalid == [] <==> old(invalid) == [] && !exists s :: RetainedWrongly(k, r, c, s)
      ensures unknown == [] <==> old(unknown) == [] && !exists s :: Unsupplied(k, c, s)
    {
      var todo := c.retained.Keys;
      while todo != {}
        invariant todo <= c.retained.Keys
        invariant invalid == [] <==> old(invalid) == [] && forall s :: RetainedWrongly(k, r, c, s) ==> s in todo
        invariant unknown == [] <==> old(unknown) == [] && forall s :: Unsupplied(k, c, s) ==> s in todo
        decreases todo
      {
        var s :| s in todo;
        if s !in k.supplied || s == CollectorSlot {
          unknown := unknown + ["collector:retained_reference_not_supplied"];
        } else if Present(r, s) {
          Require(c.retained[s] == k.supplied[s], "collector:digest_mismatch");
          if RecordedAt(r, s).Some? {
            Require(RecordedAt(r, s).value <= c.checkpointAt, "collector:checkpoint_precedes");
          }
        }
        todo := todo - {s};
      }
    }

    method CheckCollector(k: Case, r: Records, c: Collector, at: nat)
      requires FromEnvelopes(k, r)
      modifies this
      ensures invalid == [] <==> old(invalid) == [] && !CollectorFails(k, r, c)
      ensures unknown == [] <==> old(unknown) == [] && !CollectorOpen(k, r, c, at)
    {
      Require(c.operation == k.OpDigest(), "collector:operation_digest_mismatch");
      Require(c.configuration == k.op.runtime.configuration, "collector:configuration_digest_mismatch");
      Require(c.epoch == k.op.runtime.epoch, "collector:recovery_epoch_mismatch");
      Available(c.checkpointAt <= at, "collector:after_evaluation_horizon");
      Available(c.gaps == [], "collector:declared_collection_gap");
      CheckRetention(k, r, c);
      CheckRetained(k, r, c);
    }

    method CheckControlState(k: Case, r: Records, at: nat)
      requires FromEnvelopes(k, r) && invalid == [] && unknown == []
      modifies this
      ensures Result() == ControlState(k, r, at)
    {
      Available(r.control.Some?, "control:missing_or_unverifiable");
      Available(r.collector.Some?, "collector:missing_or_unverifiable");
      Available(r.dispatch.Some?, "dispatch:missing_or_unverifiable");
      Available(r.policy.Some?, "policy:missing_or_unverifiable");
      if r.dispatch.Some? { Require(r.dispatch.value.actual.runtime == k.op.runtime, "control:actual_scope_mismatch"); }
      if r.policy.Some? {
        Bind(k, r, k.op.policyDigest, PolicySlot, "control:policy");
        Require(r.policy.value.routes == REQUIRED_ROUTES.Keys, "policy:required_route_scope_mismatch");
      }
      if r.control.Some? { CheckControl(k, r, r.control.value, at); }
      if r.collector.Some? { CheckCollector(k, r, r.collector.value, at); }
    }
  }

  /** Records dated after the evaluation time are set aside before any claim is assessed. */
  method SetAside(records: Records, at: nat) returns (r: Records)
    ensures r == Until(records, at)
  {
    r := records;
    if Later(records, MakerSlot, at) { r := r.(maker := None); }
    if Later(records, CheckerSlot, at) { r := r.(checker := None); }
    if Later(records, StatusSlot, at) { r := r.(status := None); }
    if Later(records, DispatchSlot, at) { r := r.(dispatch := None); }
    if Later(records, ReceiptSlot, at) { r := r.(receipt := None); }
    if Later(records, ControlSlot, at) { r := r.(control := None); }
    if Later(records, CollectorSlot, at) { r := r.(collector := None); }
  }

  lemma UntilFromEnvelopes(k: Case, records: Records, at: nat)
    requires FromEnvelopes(k, records)
    ensures FromEnvelopes(k, Until(records, at))
  {
  }

  /** None: the bundle could not be read.  Otherwise its case and its authenticated records. */
  method VerifyBundle(bundle: Option<(Case, Records)>, at: nat) returns (claims: Claims)
    requires bundle.Some? ==>
               && FromEnvelopes(bundle.value.0, bundle.value.1)
               && bundle.value.0.faults.Keys <= bundle.value.0.supplied.Keys <= ALL_SLOTS
    ensures claims == if bundle.Some? then ClaimsAt(bundle.value.0, bundle.value.1, at) else UNUSABLE
  {
    if bundle.None? { return UNUSABLE; }
    var (k, records) := bundle.value;
    var integrity := new Checks();
    integrity.CheckIntegrity(k);
    var r := SetAside(records, at);
    UntilFromEnvelopes(k, records, at);
    var authorization := new Checks();
    authorization.CheckAuthorization(k, r, at);
    var execution := new Checks();
    var outcome := execution.CheckExecution(k, r, at);
    var control := new Checks();
    control.CheckControlState(k, r, at);
    claims := Claims(integrity.Result(), authorization.Result(), execution.Result(), control.Result(), outcome,
                     execution.Result() == VALID && outcome == Settled);
  }

  // ----- more evidence, later times

  /** Every record of the first is in the second. */
  predicate Within(r: Records, r': Records) {
    && (r.policy.Some? ==> r'.policy == r.policy) && (r.maker.Some? ==> r'.maker == r.maker)
    && (r.checker.Some? ==> r'.checker == r.checker) && (r.status.Some? ==> r'.status == r.status)
    && (r.dispatch.Some? ==> r'.dispatch == r.dispatch) && (r.receipt.Some? ==> r'.receipt == r.receipt)
    && (r.control.Some? ==> r'.control == r.control) && (r.collector.Some? ==> r'.collector == r.collector)
  }

  /** The second case has at least the first one's records, under the same envelopes. */
  ghost predicate Extends(k: Case, r: Records, k': Case, r': Records) {
    && k' == k.(supplied := k'.supplied, faults := k'.faults) && FromEnvelopes(k, r) && FromEnvelopes(k', r')
    && Within(r, r')
    && forall s :: Present(r, s) ==> s in k'.supplied && k'.supplied[s] == k.supplied[s]
  }

  lemma MisboundStays(k: Case, r: Records, k': Case, r': Records)
    requires Extends(k, r, k', r')
    ensures forall ref, s :: Misbound(k, r, ref, s) ==> Misbound(k', r', ref, s)
  {
  }

  lemma AuthorizationFailureStays(k: Case, r: Records, k': Case, r': Records)
    requires Extends(k, r, k', r') && AuthorizationFails(k, r)
    ensures AuthorizationFails(k', r')
  {
  }

  lemma ExecutionFailureStays(k: Case, r: Records, k': Case, r': Records)
    requires Extends(k, r, k', r') && ExecutionFails(k, r)
    ensures ExecutionFails(k', r')
  {
  }

  lemma ControlFailureStays(k: Case, r: Records, k': Case, r': Records)
    requires Extends(k, r, k', r') && ControlStateFails(k, r)
    ensures ControlStateFails(k', r')
  {
    MisboundStays(k, r, k', r');
    if r.collector.Some? && CollectorFails(k, r, r.collector.value) {
      var c := r.collector.value;
      forall s | RetainedWrongly(k, r, c, s) ensures RetainedWrongly(k', r', c, s) { }
      assert CollectorFails(k', r', c);
    }
    assert r.control.Some? && ControlFails(k, r, r.control.value) ==> ControlFails(k', r', r.control.value);
  }

  lemma UntilGrows(records: Records, at: nat, at': nat)
    requires at <= at'
    ensures Within(Until(records, at), Until(records, at'))
  {
  }

  predicate Decided(v: Verdict) { v != INDETERMINATE }

  lemma AuthorizationStays(k: Case, r: Records, r': Records, at: nat, at': nat)
    requires Extends(k, r, k, r') && at <= at' && Decided(Authorization(k, r, at))
    ensures Authorization(k, r', at') == Authorization(k, r, at)
  {
  }

  lemma ExecutionStays(k: Case, r: Records, r': Records, at: nat, at': nat)
    requires Extends(k, r, k, r') && at <= at' && Decided(Execution(k, r, at))
    ensures Execution(k, r', at') == Execution(k, r, at)
    ensures Execution(k, r, at) == VALID ==> ReportedOutcome(k, r', at') == ReportedOutcome(k, r, at)
  {
  }

  lemma ControlStateStays(k: Case, r: Records, r': Records, at: nat, at': nat)
    requires Extends(k, r, k, r') && at <= at' && Decided(ControlState(k, r, at))
    ensures ControlState(k, r', at') == ControlState(k, r, at)
  {
    if ControlStateFails(k, r) {
      ControlFailureStays(k, r, k, r');
    } else {
      var c := r.collector.value;
      forall s | s in RETAINED_SLOTS ensures s in c.retained && Present(r, s) && Present(r', s) { }
      forall s | RetainedWrongly(k, r', c, s) ensures RetainedWrongly(k, r, c, s) { }
    }
  }

  /** Once a claim is decided, it stays decided the same way however late it is assessed
      again; a confirmed settlement stays confirmed. */
  lemma DecidedStaysDecided(k: Case, records: Records, at: nat, at': nat)
    requires FromEnvelopes(k, records) && at <= at'
    ensures var c, c' := ClaimsAt(k, records, at), ClaimsAt(k, records, at');
            && c'.integrity == c.integrity
            && (Decided(c.authorization) ==> c'.authorization == c.authorization)
            && (Decided(c.execution) ==> c'.execution == c.execution)
            && (Decided(c.control) ==> c'.control == c.control)
            && (c.settlementConfirmed ==> c'.settlementConfirmed)
  {
    UntilGrows(records, at, at');
    UntilFromEnvelopes(k, records, at);
    UntilFromEnvelopes(k, records, at');
    ClaimsStay(k, Until(records, at), Until(records, at'), at, at');
  }

  lemma ClaimsStay(k: Case, r: Records, r': Records, at: nat, at': nat)
    requires Extends(k, r, k, r') && at <= at'
    ensures var c, c' := ClaimsOf(k, r, at), ClaimsOf(k, r', at');
            && c'.integrity == c.integrity
            && (Decided(c.authorization) ==> c'.authorization == c.authorization)
            && (Decided(c.execution) ==> c'.execution == c.execution)
            && (Decided(c.control) ==> c'.control == c.control)
            && (c.settlementConfirmed ==> c'.settlementConfirmed)
  {
    if Decided(Authorization(k, r, at)) { AuthorizationStays(k, r, r', at, at'); }
    if Decided(Execution(k, r, at)) { ExecutionStays(k, r, r', at, at'); }
    if Decided(ControlState(k, r, at)) { ControlStateStays(k, r, r', at, at'); }
  }

  lemma UntilExtends(k: Case, records: Records, k': Case, records': Records, at: nat)
    requires Extends(k, records, k', records')
    ensures Extends(k, Until(records, at), k', Until(records', at))
  {
  }

  /** Leaving authenticated records out, with or without their envelopes, never turns a claim
      INVALID: missing evidence is never a contradiction. */
  lemma DroppingNeverInvalidates(k: Case, records: Records, k': Case, records': Records, at: nat)
    requires Extends(k', records', k, records)
    ensures var c, c' := ClaimsAt(k, records, at), ClaimsAt(k', records', at);
            && (c'.authorization == INVALID ==> c.authorization == INVALID)
            && (c'.execution == INVALID ==> c.execution == INVALID)
            && (c'.control == INVALID ==> c.control == INVALID)
  {
    var r, r' := Until(records, at), Until(records', at);
    UntilExtends(k', records', k, records, at);
    if AuthorizationFails(k', r') { AuthorizationFailureStays(k', r', k, r); }
    if ExecutionFails(k', r') { ExecutionFailureStays(k', r', k, r); }
    if ControlStateFails(k', r') { ControlFailureStays(k', r', k, r); }
  }

  /** A credential reported revoked never supports an authorization, at any time. */
  lemma RevokedIsNeverValid(k: Case, records: Records, at: nat)
    requires records.status.Some? && records.status.value.state == Revoked
    ensures ClaimsAt(k, records, at).authorization != VALID
  {
  }
}
