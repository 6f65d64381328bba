/** Payment requests and the admission decision on them: maker approval, checker approval
    and a fresh final status under one configured policy.
    Canonical encodings and digests are injective, so a digest is modelled by the value it
    is taken of; a signature is modelled by the key that made it. */
module Admission {
  import opened Wrappers

  datatype Scope = Scope(tenant: string, environment: string, audience: string, domain: string)
  datatype Context = Context(scope: Scope, currency: string, scale: nat)
  datatype Generation = Generation(epoch: nat, configuration: string)
  datatype Request = Request(context: Context, operationId: string, key: string, generation: Generation,
                             source: string, beneficiary: string, amount: nat)

  datatype Policy = Policy(context: Context, principal: string, credential: string, generation: Generation,
                           sources: set<string>, beneficiaries: set<string>, maxAmount: nat,
                           validFrom: nat, validUntil: nat)

  datatype Slot = Maker | Checker | FinalStatus
  const ALL_SLOTS: set<Slot> := {Maker, Checker, FinalStatus}

  datatype StatusState = Active | Revoked | NotKnown

  datatype Statement =
    | Approval(slot: Slot, approvalId: string, request: Request, policy: Policy, issuedAt: nat, expiresAt: nat)
    | Status(request: Request, policy: Policy, makerEnvelope: Envelope, checkerEnvelope: Envelope,
             principal: string, credential: string, generation: Generation,
             observedAt: nat, validUntil: nat, state: StatusState, revokedAt: Option<nat>)
    | Other

  /** `wellEncoded`: canonical bytes of the expected shape; `signer`: the key whose signature
      over the statement verifies, if any. */
  datatype Envelope = Envelope(keyId: string, statement: Statement, signer: Option<string>, wellEncoded: bool)

  datatype Identity = Identity(person: string, roles: set<Slot>, scope: Scope, validFrom: nat, validUntil: nat)

  type Keys = map<string, string>

  /** What the gate is configured with; approver and status keys are separate roles. */
  datatype Gate = Gate(policy: Policy, approvers: Keys, authorities: Keys, identities: map<string, Identity>,
                       maxStatusAge: nat)

  type Evidence = map<Slot, Envelope>

  /** What a caller submits: the usable envelopes, and what was unusable about the rest. */
  datatype Offer = Offer(evidence: Evidence, problems: seq<string>)

  datatype Verdict = Denied | Unknown | Authorized

  /** A decision as it is returned and retained: the verdict with its reasons, the times, and
      the policy, keys, identities and evidence it was made on. */
  datatype Outcome = Outcome(verdict: Verdict, request: Request, evaluatedAt: nat, admittedAt: Option<nat>,
                             reasons: set<string>, policy: Policy, approvers: Keys, authorities: Keys,
                             identities: map<string, Identity>, evidence: Evidence)

  const SUPPORTED := "configured_mock_admission_supported_at_claim_time"

  function OutcomeOf(v: Verdict, reasons: set<string>, r: Request, evidence: Evidence, gate: Gate, at: nat): Outcome {
    Outcome(v, r, at, if v == Authorized then Some(at) else None, reasons, gate.policy, gate.approvers,
            gate.authorities, gate.identities, evidence)
  }

  /** The one decision that admits: it has no reason but its support. */
  function Admitting(r: Request, evidence: Evidence, gate: Gate, at: nat): Outcome {
    OutcomeOf(Authorized, {SUPPORTED}, r, evidence, gate, at)
  }

  // ----- what is required

  function RoleKeys(gate: Gate, slot: Slot): Keys {
    if slot == FinalStatus then gate.authorities else gate.approvers
  }

  predicate ShapeFits(slot: Slot, s: Statement) {
    if slot == FinalStatus then s.Status? else s.Approval? && s.slot == slot
  }

  function MadeAt(s: Statement): nat
    requires !s.Other?
  {
    if s.Approval? then s.issuedAt else s.observedAt
  }

  /** The envelope in the slot is authenticated by a configured key of the slot's role and
      its statement does not postdate the admission. */
  predicate Authentic(slot: Slot, evidence: Evidence, gate: Gate, at: nat) {
    slot in evidence &&
    var e := evidence[slot];
    && e.wellEncoded && e.keyId in RoleKeys(gate, slot) && e.signer == Some(RoleKeys(gate, slot)[e.keyId])
    && ShapeFits(slot, e.statement) && MadeAt(e.statement) <= at
  }

  predicate PolicyAdmits(r: Request, p: Policy, at: nat) {
    && p.validFrom <= at < p.validUntil && r.context == p.context && r.generation == p.generation
    && r.source in p.sources && r.beneficiary in p.beneficiaries && r.amount <= p.maxAmount
  }

  /** One approval: bound to this request and policy, in its window, by an eligible person. */
  predicate ApprovalHolds(slot: Slot, r: Request, evidence: Evidence, gate: Gate, at: nat) {
    Authentic(slot, evidence, gate, at) && slot != FinalStatus &&
    var a := evidence[slot].statement;
    var key := evidence[slot].signer.value;
    && a.request == r && a.policy == gate.policy && a.issuedAt < a.expiresAt && a.issuedAt <= at < a.expiresAt
    && key in gate.identities
    && var who := gate.identities[key];
       && slot in who.roles && who.scope == r.context.scope
       && who.validFrom <= a.issuedAt < who.validUntil && who.validFrom <= at < who.validUntil
  }

  predicate StatusHolds(r: Request, evidence: Evidence, gate: Gate, at: nat) {
    Authentic(FinalStatus, evidence, gate, at) &&
    var s := evidence[FinalStatus].statement;
    && StatusIsAbout(s, r, gate)
    && Maker in evidence && s.makerEnvelope == evidence[Maker]
    && Checker in evidence && s.checkerEnvelope == evidence[Checker]
    && evidence[Maker].statement.Approval? && evidence[Maker].statement.issuedAt <= s.observedAt
    && evidence[Checker].statement.Approval? && evidence[Checker].statement.issuedAt <= s.observedAt
    && s.observedAt <= at < s.validUntil && at - s.observedAt <= gate.maxStatusAge
    && s.state == Active && s.revokedAt == None
  }

  function Person(slot: Slot, evidence: Evidence, gate: Gate): Option<string> {
    if slot in evidence && evidence[slot].signer.Some? && evidence[slot].signer.value in gate.identities
    then Some(gate.identities[evidence[slot].signer.value].person) else None
  }

  /** Everything an admission at time `at` needs. */
  predicate Supported(r: Request, evidence: Evidence, gate: Gate, at: nat) {
    PolicyAdmits(r, gate.policy, at) && SlotsHold(r, evidence, gate, at)
  }

  predicate SlotsHold(r: Request, evidence: Evidence, gate: Gate, at: nat) {
    && ApprovalHolds(Maker, r, evidence, gate, at) && ApprovalHolds(Checker, r, evidence, gate, at)
    && Person(Maker, evidence, gate) != Person(Checker, evidence, gate)
    && evidence[Maker].statement.approvalId != evidence[Checker].statement.approvalId
    && StatusHolds(r, evidence, gate, at)
  }

  // ----- what contradicts an admission, as opposed to leaving it open

  predicate ApprovalContradicts(slot: Slot, r: Request, evidence: Evidence, gate: Gate, at: nat)
    requires slot != FinalStatus && Authentic(slot, evidence, gate, at)
  {
    var a, key := evidence[slot].statement, evidence[slot].signer.value;
    || a.request != r || a.policy != gate.policy || a.issuedAt >= a.expiresAt || !(a.issuedAt <= at < a.expiresAt)
    || (key in gate.identities &&
        var who := gate.identities[key];
        || slot !in who.roles || who.scope != r.context.scope
        || !(who.validFrom <= a.issuedAt < who.validUntil) || !(who.validFrom <= at < who.validUntil))
  }

  predicate Fresh(s: Statement, gate: Gate, at: nat)
    requires s.Status?
  {
    s.observedAt <= at < s.validUntil && at - s.observedAt <= gate.maxStatusAge
  }

  predicate RevocationContradicts(s: Statement, gate: Gate, at: nat)
    requires s.Status?
  {
    Fresh(s, gate, at) && s.revokedAt.Some? &&
    (s.state == Revoked ==> s.revokedAt.value > s.observedAt || s.revokedAt.value <= at)
  }

  /** The status disagrees with an approval that is itself authenticated. */
  predicate StatusDisputes(slot: Slot, s: Statement, evidence: Evidence, gate: Gate, at: nat)
    requires slot != FinalStatus && s.Status?
  {
    Authentic(slot, evidence, gate, at) &&
    (evidence[slot] != (if slot == Maker then s.makerEnvelope else s.checkerEnvelope)
     || evidence[slot].statement.issuedAt > s.observedAt)
  }

  predicate StatusIsAbout(s: Statement, r: Request, gate: Gate)
    requires s.Status?
  {
    && s.request == r && s.policy == gate.policy && s.principal == gate.policy.principal
    && s.credential == gate.policy.credential && s.generation == gate.policy.generation
  }

  predicate StatusContradicts(r: Request, evidence: Evidence, gate: Gate, at: nat)
    requires Authentic(FinalStatus, evidence, gate, at)
  {
    var s := evidence[FinalStatus].statement;
    || !StatusIsAbout(s, r, gate)
    || StatusDisputes(Maker, s, evidence, gate, at) || StatusDisputes(Checker, s, evidence, gate, at)
    || s.observedAt >= s.validUntil
    || RevocationContradicts(s, gate, at)
  }

  /** Two authentic approvals by one person, or one approval twice. */
  predicate PairContradicts(evidence: Evidence, gate: Gate)
    requires Maker in evidence && evidence[Maker].statement.Approval?
    requires Checker in evidence && evidence[Checker].statement.Approval?
  {
    || evidence[Maker].statement.approvalId == evidence[Checker].statement.approvalId
    || (Person(Maker, evidence, gate).Some? && Person(Maker, evidence, gate) == Person(Checker, evidence, gate))
  }

  predicate SlotsContradict(r: Request, evidence: Evidence, gate: Gate, at: nat) {
    var maker, checker := Authentic(Maker, evidence, gate, at), Authentic(Checker, evidence, gate, at);
    || (maker && ApprovalContradicts(Maker, r, evidence, gate, at))
    || (checker && ApprovalContradicts(Checker, r, evidence, gate, at))
    || (maker && checker && PairContradicts(evidence, gate))
    || (Authentic(FinalStatus, evidence, gate, at) && StatusContradicts(r, evidence, gate, at))
  }

  predicate Contradicted(r: Request, evidence: Evidence, gate: Gate, at: nat) {
    !PolicyAdmits(r, gate.policy, at) || SlotsContradict(r, evidence, gate, at)
  }

  // ----- the assessment as it accumulates reasons

  class Decision {
    var denied: seq<string>
    var unknown: seq<string>

    constructor (problems: seq<string>)
      ensures denied == [] && unknown == problems
    {
      denied, unknown := [], problems;
    }

    method Require(condition: bool, reason: string)
      modifies this
      ensures unknown == old(unknown) && denied == old(denied) + (if condition then [] else [reason])
    {
      if !condition { denied := denied + [reason]; }
    }

    method Available(condition: bool, reason: string)
      modifies this
      ensures denied == old(denied) && unknown == old(unknown) + (if condition then [] else [reason])
    {
      if !condition { unknown := unknown + [reason]; }
    }

    /** A slot that cannot be authenticated only leaves the decision unknown. */
    method Verified(slot: Slot, evidence: Evidence, gate: Gate, at: nat) returns (ok: bool)
      modifies this
      ensures ok == Authentic(slot, evidence, gate, at)
      ensures denied == old(denied) && (ok ==> unknown == old(unknown)) && (!ok ==> unknown != [])
    {
      ok := false;
      if slot !in evidence {
        unknown := unknown + ["missing_envelope"];
        return;
      }
      var e := evidence[slot];
      if !e.wellEncoded {
        unknown := unknown + ["envelope_shape_or_encoding"];
      } else if e.keyId !in RoleKeys(gate, slot) {
        unknown := unknown + ["no_configured_role_key"];
      } else if e.signer != Some(RoleKeys(gate, slot)[e.keyId]) {
        unknown := unknown + ["signature_or_canonical_envelope_unverifiable"];
      } else if !ShapeFits(slot, e.statement) {
        unknown := unknown + ["signed_statement_shape_unusable"];
      } else if MadeAt(e.statement) > at {
        unknown := unknown + ["statement_after_admission_time"];
      } else {
        ok := true;
      }
    }

    method AssessPolicy(r: Request, p: Policy, at: nat)
      modifies this
      ensures unknown == old(unknown)
      ensures denied == [] <==> old(denied) == [] && PolicyAdmits(r, p, at)
    {
      Require(p.validFrom <= at < p.validUntil, "policy:outside_validity_window");
      Require(r.context == p.context, "policy:context_mismatch");
      Require(r.generation == p.generation, "policy:generation_mismatch");
      Require(r.source in p.sources, "policy:source_not_allowed");
      Require(r.beneficiary in p.beneficiaries, "policy:beneficiary_not_allowed");
      Require(r.amount <= p.maxAmount, "policy:amount_limit_exceeded");
    }

    method AssessApproval(slot: Slot, r: Request, evidence: Evidence, gate: Gate, at: nat)
      requires slot != FinalStatus && Authentic(slot, evidence, gate, at)
      modifies this
      ensures denied == [] <==> old(denied) == [] && !ApprovalContradicts(slot, r, evidence, gate, at)
      ensures unknown == [] <==> old(unknown) == [] && evidence[slot].signer.value in gate.identities
    {
      var a, key := evidence[slot].statement, evidence[slot].signer.value;
      Require(a.request == r, "request_digest_mismatch");
      Require(a.policy == gate.policy, "policy_digest_mismatch");
      Require(a.issuedAt < a.expiresAt, "invalid_window");
      Require(a.issuedAt <= at < a.expiresAt, "outside_validity_window");
      Available(key in gate.identities, "configured_identity_missing");
      if key in gate.identities {
        var who := gate.identities[key];
        Require(slot in who.roles, "role_ineligible");
        Require(who.scope == r.context.scope, "identity_scope_mismatch");
        Require(who.validFrom <= a.issuedAt < who.validUntil, "identity_not_eligible_at_issuance");
        Require(who.validFrom <= at < who.validUntil, "identity_not_eligible_at_admission");
      }
    }

    /** The status speaks of this request, policy and credential. */
    method AssessStatusSubject(r: Request, s: Statement, gate: Gate)
      requires s.Status?
      modifies this
      ensures unknown == old(unknown)
      ensures denied == [] <==> old(denied) == [] && StatusIsAbout(s, r, gate)
    {
      Require(s.request == r, "final_status:request_digest_mismatch");
      Require(s.policy == gate.policy, "final_status:policy_digest_mismatch");
      Require(s.principal == gate.policy.principal, "final_status:principal_id_mismatch");
      Require(s.credential == gate.policy.credential, "final_status:credential_id_mismatch");
      Require(s.generation == gate.policy.generation, "final_status:generation_mismatch");
    }

    /** The status refers to this approval, and does not precede it. */
    method AssessReferent(slot: Slot, s: Statement, evidence: Evidence, gate: Gate, at: nat, ok: bool)
      requires slot != FinalStatus && s.Status? && ok == Authentic(slot, evidence, gate, at)
      modifies this
      ensures denied == [] <==> old(denied) == [] && !StatusDisputes(slot, s, evidence, gate, at)
      ensures unknown == [] <==> old(unknown) == [] && ok
    {
      if ok {
        Require((if slot == Maker then s.makerEnvelope else s.checkerEnvelope) == evidence[slot],
                "final_status:approval_digest_mismatch");
        Require(evidence[slot].statement.issuedAt <= s.observedAt, "final_status:precedes_approval");
      } else {
        unknown := unknown + ["final_status:approval_referent_unverifiable"];
      }
    }

    method AssessStatus(r: Request, evidence: Evidence, gate: Gate, at: nat, makerOk: bool, checkerOk: bool)
      requires Authentic(FinalStatus, evidence, gate, at)
      requires makerOk == Authentic(Maker, evidence, gate, at) && checkerOk == Authentic(Checker, evidence, gate, at)
      modifies this
      ensures denied == [] <==> old(denied) == [] && !StatusContradicts(r, evidence, gate, at)
      ensures !StatusContradicts(r, evidence, gate, at) ==>
        (unknown == [] <==> old(unknown) == [] && makerOk && checkerOk && StatusHolds(r, evidence, gate, at))
    {
      var s := evidence[FinalStatus].statement;
      AssessStatusSubject(r, s, gate);
      AssessReferent(Maker, s, evidence, gate, at, makerOk);
      AssessReferent(Checker, s, evidence, gate, at, checkerOk);
      Require(s.observedAt < s.validUntil, "final_status:invalid_window");
      AssessFreshness(s, gate, at);
    }

    /** The two approvals together, when both are authentic. */
    method AssessPair(evidence: Evidence, gate: Gate, at: nat)
      requires Authentic(Maker, evidence, gate, at) && Authentic(Checker, evidence, gate, at)
      modifies this
      ensures unknown == old(unknown)
      ensures denied == [] <==> old(denied) == [] && !PairContradicts(evidence, gate)
    {
      var maker, checker := Person(Maker, evidence, gate), Person(Checker, evidence, gate);
      if maker.Some? && checker.Some? { Require(maker != checker, "approvals:same_configured_person"); }
      Require(evidence[Maker].statement.approvalId != evidence[Checker].statement.approvalId,
              "approvals:duplicate_approval_id");
    }

    method AssessSlots(r: Request, evidence: Evidence, gate: Gate, at: nat)
      modifies this
      ensures denied == [] <==> old(denied) == [] && !SlotsContradict(r, evidence, gate, at)
      ensures !SlotsContradict(r, evidence, gate, at) ==>
        (unknown == [] <==> old(unknown) == [] && SlotsHold(r, evidence, gate, at))
    {
      var makerOk := Verified(Maker, evidence, gate, at);
      var checkerOk := Verified(Checker, evidence, gate, at);
      var statusOk := Verified(FinalStatus, evidence, gate, at);
      if makerOk { AssessApproval(Maker, r, evidence, gate, at); }
      if checkerOk { AssessApproval(Checker, r, evidence, gate, at); }
      if makerOk && checkerOk { AssessPair(evidence, gate, at); }
      if statusOk { AssessStatus(r, evidence, gate, at, makerOk, checkerOk); }
    }

    method AssessFreshness(s: Statement, gate: Gate, at: nat)
      requires s.Status?
      modifies this
      ensures denied == [] <==> old(denied) == [] && !RevocationContradicts(s, gate, at)
      ensures unknown == [] <==>
        old(unknown) == [] && Fresh(s, gate, at) && (s.state == Active || (s.state == Revoked && s.revokedAt.Some?))
    {
      var current := s.observedAt <= at < s.validUntil && at - s.observedAt <= gate.maxStatusAge;
      Available(current, "final_status:missing_current_freshness");
      if current {
        if s.state == Revoked {
          Available(s.revokedAt.Some?, "final_status:revocation_time_missing");
          if s.revokedAt.Some? {
            Require(s.revokedAt.value <= s.observedAt, "final_status:revocation_after_observation");
            Require(s.revokedAt.value > at, "final_status:credential_revoked");
          }
        } else {
          Require(s.revokedAt == None, "final_status:contradictory_revocation_time");
          Available(s.state == Active, "final_status:active_state_not_supplied");
        }
      }
    }
  }

  /** The verdict is Authorized exactly when everything required holds and the evidence
      object itself was usable, and Denied exactly when something contradicts it. */
  method Assess(r: Request, evidence: Evidence, problems: seq<string>, gate: Gate, at: nat) returns (o: Outcome)
    ensures o.verdict == Authorized <==> problems == [] && Supported(r, evidence, gate, at)
    ensures o.verdict == Denied <==> Contradicted(r, evidence, gate, at)
    ensures o == OutcomeOf(o.verdict, o.reasons, r, evidence, gate, at) && o.reasons != {}
    ensures o.verdict == Authorized ==> o == Admitting(r, evidence, gate, at)
  {
    var d := new Decision(problems);
    d.AssessPolicy(r, gate.policy, at);
    d.AssessSlots(r, evidence, gate, at);
    var v := if d.denied != [] then Denied else if d.unknown != [] then Unknown else Authorized;
    var found := d.denied + d.unknown;
    var reasons := if found == [] then {SUPPORTED} else (set x | x in found);
    assert found != [] ==> found[0] in reasons;
    o := OutcomeOf(v, reasons, r, evidence, gate, at);
  }

  // ----- consequences

  /** Two different configured persons, and all three slots supplied. */
  lemma AuthorizedByTwoPersons(r: Request, evidence: Evidence, gate: Gate, at: nat)
    requires Supported(r, evidence, gate, at)
    ensures evidence.Keys == ALL_SLOTS
    ensures exists m, c | m in gate.identities && c in gate.identities ::
              gate.identities[m].person != gate.identities[c].person
              && Maker in gate.identities[m].roles && Checker in gate.identities[c].roles
  {
    assert Authentic(Maker, evidence, gate, at) && Authentic(Checker, evidence, gate, at);
    forall slot | slot in evidence.Keys ensures slot in ALL_SLOTS {
      match slot case Maker => case Checker => case FinalStatus =>
    }
    assert Person(Maker, evidence, gate) != Person(Checker, evidence, gate);
  }

  function Max(a: nat, b: nat): nat { if a < b then b else a }
  function Min(a: nat, b: nat): nat { if a < b then a else b }

  /** The half-open interval of admission times the evidence supports, read off its dates. */
  function Window(r: Request, evidence: Evidence, gate: Gate): (nat, nat)
    requires exists at :: Supported(r, evidence, gate, at)
  {
    var m, c, s := evidence[Maker], evidence[Checker], evidence[FinalStatus].statement;
    var mw, cw := gate.identities[m.signer.value], gate.identities[c.signer.value];
    (Max(gate.policy.validFrom, s.observedAt),
     Min(Min(Min(gate.policy.validUntil, Min(s.validUntil, s.observedAt + gate.maxStatusAge + 1)),
             Min(m.statement.expiresAt, c.statement.expiresAt)),
         Min(mw.validUntil, cw.validUntil)))
  }

  /** The times at which a request is authorized on given evidence form one interval. */
  lemma AuthorizedTimesAreOneInterval(r: Request, evidence: Evidence, gate: Gate, at: nat)
    requires exists t :: Supported(r, evidence, gate, t)
    ensures var w := Window(r, evidence, gate); Supported(r, evidence, gate, at) <==> w.0 <= at < w.1
  {
  }

  /** A "revoked" status never supports an admission, whatever revocation time it carries:
      with a time it denies, without one it leaves the decision unknown. */
  lemma RevokedNeverAuthorizes(r: Request, evidence: Evidence, gate: Gate, at: nat)
    requires Authentic(FinalStatus, evidence, gate, at) && evidence[FinalStatus].statement.state == Revoked
    ensures !Supported(r, evidence, gate, at)
    ensures Fresh(evidence[FinalStatus].statement, gate, at) && evidence[FinalStatus].statement.revokedAt.Some?
        ==> Contradicted(r, evidence, gate, at)
  {
  }

  // ----- the retained proof

  /** The record kept with a claim: the inputs of an admission and the decision on them. */
  datatype ProofRecord = ProofRecord(request: Request, gate: Gate, evidence: Evidence, decision: Outcome)

  /** The gate demands a positive freshness limit of its configuration. */
  predicate Configured(gate: Gate) { gate.maxStatusAge > 0 }

  /** A record rechecks when its own inputs reproduce the identical decision, and it admits. */
  predicate Rechecks(record: ProofRecord) {
    && Configured(record.gate) && record.evidence.Keys == ALL_SLOTS && record.decision.admittedAt.Some?
    && var at := record.decision.admittedAt.value;
       && Supported(record.request, record.evidence, record.gate, at)
       && record.decision == Admitting(record.request, record.evidence, record.gate, at)
  }

  /** Some: the record is supported, and this is its decision. */
  method RecheckRecord(record: ProofRecord) returns (decision: Option<Outcome>)
    ensures decision == if Rechecks(record) then Some(record.decision) else None
  {
    if !Configured(record.gate) || record.evidence.Keys != ALL_SLOTS { return None; }
    var original := record.decision;
    if original.admittedAt.None? || original.evaluatedAt != original.admittedAt.value { return None; }
    var reconstructed := Assess(record.request, record.evidence, [], record.gate, original.admittedAt.value);
    if reconstructed.verdict != Authorized || reconstructed != original { return None; }
    return Some(reconstructed);
  }

  /** Every record written by an admission rechecks, to the identical decision. */
  lemma AdmittedRecordRechecks(r: Request, evidence: Evidence, gate: Gate, at: nat)
    requires Configured(gate) && Supported(r, evidence, gate, at)
    ensures Rechecks(ProofRecord(r, gate, evidence, Admitting(r, evidence, gate, at)))
  {
    AuthorizedByTwoPersons(r, evidence, gate, at);
  }

  // ----- the same in plain signatures and dates

  /** A slot is authentic exactly when one of the keys configured for it signed a readable
      statement of its kind that was made by the time. */
  lemma AuthenticWhen(evidence: Evidence, gate: Gate, at: nat)
    ensures forall slot :: slot == Maker || slot == Checker ==>
      (Authentic(slot, evidence, gate, at) <==>
       slot in evidence &&
       var e := evidence[slot];
       && e.wellEncoded && e.keyId in gate.approvers && e.signer == Some(gate.approvers[e.keyId])
       && e.statement.Approval? && e.statement.slot == slot && e.statement.issuedAt <= at)
    ensures Authentic(FinalStatus, evidence, gate, at) <==>
       FinalStatus in evidence &&
       var e := evidence[FinalStatus];
       && e.wellEncoded && e.keyId in gate.authorities && e.signer == Some(gate.authorities[e.keyId])
       && e.statement.Status? && e.statement.observedAt <= at
  {
  }

  predicate SamePolicy(r: Request, gate: Gate, at: nat) {
    && r.context == gate.policy.context && r.generation == gate.policy.generation
    && r.source in gate.policy.sources && r.beneficiary in gate.policy.beneficiaries
    && r.amount <= gate.policy.maxAmount && gate.policy.validFrom <= at && at < gate.policy.validUntil
  }

  /** The signer of an approval is the configured person for the slot, from the approval on. */
  predicate Eligible(slot: Slot, e: Envelope, r: Request, gate: Gate, at: nat)
    requires e.statement.Approval? && e.signer.Some? && e.signer.value in gate.identities
  {
    var who := gate.identities[e.signer.value];
    && slot in who.roles && who.scope == r.context.scope
    && who.validFrom <= e.statement.issuedAt && e.statement.issuedAt < who.validUntil
    && who.validFrom <= at && at < who.validUntil
  }

  /** Support is exactly two approvals of this request under the gate's policy, by two different
      eligible persons, and an active status that names both, taken after both, and still fresh. */
  lemma SupportedWhen(r: Request, evidence: Evidence, gate: Gate, at: nat)
    ensures Supported(r, evidence, gate, at) <==>
      && SamePolicy(r, gate, at) && Authentic(Maker, evidence, gate, at) && Authentic(Checker, evidence, gate, at)
      && Authentic(FinalStatus, evidence, gate, at) &&
      var m, c, s := evidence[Maker], evidence[Checker], evidence[FinalStatus].statement;
      && m.signer.value in gate.identities && c.signer.value in gate.identities
      && gate.identities[m.signer.value].person != gate.identities[c.signer.value].person
      && m.statement.approvalId != c.statement.approvalId
      && m.statement.request == r && m.statement.policy == gate.policy && at < m.statement.expiresAt
      && c.statement.request == r && c.statement.policy == gate.policy && at < c.statement.expiresAt
      && Eligible(Maker, m, r, gate, at) && Eligible(Checker, c, r, gate, at)
      && s == Status(r, gate.policy, m, c, gate.policy.principal, gate.policy.credential, gate.policy.generation,
                     s.observedAt, s.validUntil, Active, None)
      && m.statement.issuedAt <= s.observedAt && c.statement.issuedAt <= s.observedAt
      && s.observedAt <= at && at < s.validUntil && at <= s.observedAt + gate.maxStatusAge
  {
    AuthenticWhen(evidence, gate, at);
  }

  /** What an authentic approval may not be. */
  predicate Unfit(slot: Slot, e: Envelope, r: Request, gate: Gate, at: nat)
    requires e.statement.Approval? && e.signer.Some?
  {
    || e.statement.request != r || e.statement.policy != gate.policy
    || at < e.statement.issuedAt || e.statement.expiresAt <= at
    || (e.signer.value in gate.identities && !Eligible(slot, e, r, gate, at))
  }

  /** What an authentic status may not say, whatever the approvals are. */
  predicate Adverse(s: Statement, r: Request, gate: Gate, at: nat)
    requires s.Status?
  {
    || s.request != r || s.policy != gate.policy || s.principal != gate.policy.principal
    || s.credential != gate.policy.credential || s.generation != gate.policy.generation
    || s.validUntil <= s.observedAt
    || (&& s.observedAt <= at && at < s.validUntil && at <= s.observedAt + gate.maxStatusAge
        && s.revokedAt.Some?
        && (s.state != Revoked || s.revokedAt.value > s.observedAt || s.revokedAt.value <= at))
  }

  /** A request is contradicted exactly by the policy, an unfit authentic approval, two authentic
      approvals that are not independent, or an authentic status that is adverse or disagrees with
      an authentic approval.  What is not authentic contradicts nothing. */
  lemma ContradictedWhen(r: Request, evidence: Evidence, gate: Gate, at: nat)
    ensures Contradicted(r, evidence, gate, at) <==>
      var maker, checker := Authentic(Maker, evidence, gate, at), Authentic(Checker, evidence, gate, at);
      || !SamePolicy(r, gate, at)
      || (maker && Unfit(Maker, evidence[Maker], r, gate, at))
      || (checker && Unfit(Checker, evidence[Checker], r, gate, at))
      || (maker && checker &&
          var m, c := evidence[Maker], evidence[Checker];
          || m.statement.approvalId == c.statement.approvalId
          || (m.signer.value in gate.identities && c.signer.value in gate.identities
              && gate.identities[m.signer.value].person == gate.identities[c.signer.value].person))
      || (Authentic(FinalStatus, evidence, gate, at) &&
          var s := evidence[FinalStatus].statement;
          || Adverse(s, r, gate, at)
          || (maker && (s.makerEnvelope != evidence[Maker] || s.observedAt < evidence[Maker].statement.issuedAt))
          || (checker && (s.checkerEnvelope != evidence[Checker]
                          || s.observedAt < evidence[Checker].statement.issuedAt)))
  {
    AuthenticWhen(evidence, gate, at);
  }

  /** A record is relied on exactly when its gate limits the age of a status, its three slots
      support its request at the time it was admitted, and its decision says just that. */
  lemma RechecksWhen(record: ProofRecord)
    ensures Rechecks(record) <==>
      && record.gate.maxStatusAge > 0 && record.decision.admittedAt.Some?
      && Supported(record.request, record.evidence, record.gate, record.decision.admittedAt.value)
      && var at := record.decision.admittedAt.value;
         record.decision == Outcome(Authorized, record.request, at, Some(at),
                                    {"configured_mock_admission_supported_at_claim_time"}, record.gate.policy,
                                    record.gate.approvers, record.gate.authorities, record.gate.identities,
                                    record.evidence)
  {
    if record.decision.admittedAt.Some?
       && Supported(record.request, record.evidence, record.gate, record.decision.admittedAt.value) {
      AuthorizedByTwoPersons(record.request, record.evidence, record.gate, record.decision.admittedAt.value);
    }
  }
}
