/** The transfer assessor: from authenticated records to a verdict on one transfer.
    The assessor walks lists of records and overwrites its result stage by stage; it is
    proved against an assessment defined on the set of records, so neither the order of the
    records nor a repetition can matter. */
module TransferAssessment {
  import opened Wrappers

  datatype Grant = Grant(actor: string, provider: string, endpoint: string, tenant: string, account: string,
                         purpose: string, route: string)

  datatype PolicyData = PolicyData(effectiveFrom: int, effectiveUntil: int, grants: seq<Grant>, requireCollector: bool)

  /** The policy a target names; its digest stands for the content it pins. */
  datatype PolicyRef = PolicyRef(id: string, version: string, pinned: PolicyData, stage: string)

  datatype Subject = Subject(requestId: string, payload: string, grant: Grant, policy: PolicyRef, otherFields: string)

  datatype Body =
    | Policy(data: PolicyData)
    | Decision(permit: bool, validFrom: int, validUntil: int)
    | Dispatch(dispatchedAt: int)
    | Egress(observedAt: int)
    | Coverage(start: int, end: int, routes: set<string>, complete: bool, dispatchObserved: bool)
    | Health(checkedAt: int, available: bool, durable: bool)
    | Timeout(timedOutAt: int)

  datatype Record = Record(id: string, recordedAt: int, binding: Subject, body: Body)

  /** The evaluator's context; the eligible records are passed beside it. */
  datatype Context = Context(subject: Subject, operationAt: int, asOf: int, managedRoute: bool)

  datatype Verdict = UNKNOWN | ALLOW | DENY | REVIEW
  datatype BindingAssessment = Unresolved | Match | PayloadMismatch | TenantMismatch | AccountMismatch | ActorMismatch
    | PurposeMismatch | RouteMismatch | EndpointNotApproved | ProviderNotApproved | NoMatchingApproval
  datatype DispatchAction = Hold | PermittedDispatch | BlockControlledRoute
  datatype RouteAction = ReviewRoute | PermittedRoute | BlockRoute
  datatype HealthStatus = HealthUnknown | Unavailable | AvailableDurable
  datatype Observation = NotKnown | Observed | DispatchObserved | NotObserved

  datatype Assessment = Assessment(
    authorization: Verdict, observation: Observation, declaredCoverage: bool, binding: BindingAssessment,
    policyBound: bool, dispatchAction: DispatchAction, violation: bool, reconcileBeforeRetry: bool,
    health: HealthStatus, routeAction: RouteAction, proposed: Verdict, observedAuthorization: Verdict)

  // ----- the meaning of the records, as a set

  function Elements(s: seq<Record>): set<Record> { set r | r in s }

  predicate Within(r: Record, at: int, start: int, end: int) {
    r.recordedAt <= at && start <= at < end
  }

  /** A record of the pinned policy content, in force at the time. */
  predicate CurrentPolicy(s: Subject, r: Record, at: int) {
    && r.body.Policy? && r.binding.policy == s.policy && r.body.data == s.policy.pinned
    && Within(r, at, r.body.data.effectiveFrom, r.body.data.effectiveUntil)
  }

  ghost predicate HasPolicy(s: Subject, rs: set<Record>, at: int) {
    exists r :: r in rs && CurrentPolicy(s, r, at)
  }

  predicate CurrentDecision(s: Subject, r: Record, at: int) {
    r.body.Decision? && r.binding == s && Within(r, at, r.body.validFrom, r.body.validUntil)
  }

  ghost predicate LatestDecision(s: Subject, rs: set<Record>, r: Record, at: int) {
    && r in rs && CurrentDecision(s, r, at)
    && forall q :: q in rs && CurrentDecision(s, q, at) ==> q.recordedAt <= r.recordedAt
  }

  /** The latest decisions exist and all say `permit`. */
  ghost predicate Decided(s: Subject, rs: set<Record>, at: int, permit: bool) {
    && (exists r :: LatestDecision(s, rs, r, at))
    && forall r :: LatestDecision(s, rs, r, at) ==> r.body.permit == permit
  }

  predicate HealthCheck(s: Subject, r: Record, at: int, asOf: int) {
    r.body.Health? && r.binding == s && r.body.checkedAt == at && at <= r.recordedAt <= asOf
  }

  ghost predicate Checked(s: Subject, rs: set<Record>, at: int, asOf: int) {
    exists r :: r in rs && HealthCheck(s, r, at, asOf)
  }

  ghost predicate CheckedBad(s: Subject, rs: set<Record>, at: int, asOf: int) {
    exists r :: r in rs && HealthCheck(s, r, at, asOf) && !(r.body.available && r.body.durable)
  }

  ghost function HealthOf(s: Subject, rs: set<Record>, at: int, asOf: int): HealthStatus {
    if CheckedBad(s, rs, at, asOf) then Unavailable else if Checked(s, rs, at, asOf) then AvailableDurable
    else HealthUnknown
  }

  predicate Granted(s: Subject) { s.grant in s.policy.pinned.grants }

  /** The policy in force at the time demands a collector. */
  ghost predicate Required(s: Subject, rs: set<Record>, at: int) {
    HasPolicy(s, rs, at) && s.policy.pinned.requireCollector
  }

  /** Everything a transfer at the time needs: the pinned policy in force and granting the
      target, a permit as the latest word, and the demanded collector checked and good. */
  ghost predicate Authorized(s: Subject, rs: set<Record>, at: int, asOf: int) {
    && HasPolicy(s, rs, at) && Granted(s) && Decided(s, rs, at, true)
    && (Required(s, rs, at) ==> Checked(s, rs, at, asOf) && !CheckedBad(s, rs, at, asOf))
  }

  /** Something that rules the transfer out. */
  ghost predicate RuledOut(s: Subject, rs: set<Record>, at: int, asOf: int) {
    || (HasPolicy(s, rs, at) && !Granted(s)) || Decided(s, rs, at, false)
    || (Required(s, rs, at) && CheckedBad(s, rs, at, asOf))
  }

  /** A permit that is current but bound to other payload bytes. */
  predicate PermitsOtherPayload(s: Subject, r: Record, at: int) {
    && r.body.Decision? && r.body.permit && Within(r, at, r.body.validFrom, r.body.validUntil)
    && r.binding != s && r.binding.(payload := s.payload) == s
  }

  ghost predicate PayloadDisputed(s: Subject, rs: set<Record>, at: int) {
    exists r :: r in rs && PermitsOtherPayload(s, r, at)
  }

  ghost predicate PermitStands(s: Subject, rs: set<Record>, at: int) {
    HasPolicy(s, rs, at) && Granted(s) && Decided(s, rs, at, true)
  }

  ghost function Proposed(s: Subject, rs: set<Record>, at: int, asOf: int): Verdict {
    if RuledOut(s, rs, at, asOf) || (!PermitStands(s, rs, at) && PayloadDisputed(s, rs, at)) then DENY
    else if Authorized(s, rs, at, asOf) then ALLOW
    else REVIEW
  }

  function EventTime(b: Body): int
    requires b.Dispatch? || b.Egress? || b.Timeout?
  {
    match b case Dispatch(t) => t case Egress(t) => t case Timeout(t) => t
  }

  predicate BoundEvent(c: Context, r: Record) {
    && r.binding == c.subject && (r.body.Dispatch? || r.body.Egress? || r.body.Timeout?)
    && c.operationAt <= EventTime(r.body) <= r.recordedAt <= c.asOf
  }

  predicate Action(c: Context, r: Record) { BoundEvent(c, r) && !r.body.Timeout? }

  /** The verdict on one observed action, at its own time. */
  ghost function EventVerdict(c: Context, rs: set<Record>, e: Record): Verdict
    requires Action(c, e)
  {
    var at := EventTime(e.body);
    if RuledOut(c.subject, rs, at, c.asOf) then DENY
    else if Authorized(c.subject, rs, at, c.asOf) then ALLOW
    else REVIEW
  }

  ghost predicate SomeAction(c: Context, rs: set<Record>, v: Verdict) {
    exists e :: e in rs && Action(c, e) && EventVerdict(c, rs, e) == v
  }

  ghost function ObservedVerdict(c: Context, rs: set<Record>): Verdict {
    if SomeAction(c, rs, DENY) then DENY
    else if SomeAction(c, rs, REVIEW) then REVIEW
    else if SomeAction(c, rs, ALLOW) then ALLOW
    else UNKNOWN
  }

  ghost function Final(c: Context, rs: set<Record>): Verdict {
    var proposed := Proposed(c.subject, rs, c.operationAt, c.asOf);
    if proposed == DENY || SomeAction(c, rs, DENY) then DENY
    else if proposed == REVIEW || SomeAction(c, rs, REVIEW) then REVIEW
    else ALLOW
  }

  predicate Covering(c: Context, r: Record) {
    && r.body.Coverage? && r.binding == c.subject && r.body.start <= c.operationAt < r.body.end
    && r.body.end <= r.recordedAt <= c.asOf && c.subject.grant.route in r.body.routes
  }

  ghost predicate DeclaredCoverage(c: Context, rs: set<Record>) {
    && c.managedRoute && (exists r :: r in rs && Covering(c, r))
    && forall r :: r in rs && Covering(c, r) ==> r.body.complete
  }

  ghost predicate SomeEgress(c: Context, rs: set<Record>) {
    exists r :: r in rs && BoundEvent(c, r) && r.body.Egress?
  }

  ghost predicate SomeDispatch(c: Context, rs: set<Record>) {
    exists r :: r in rs && BoundEvent(c, r) && r.body.Dispatch?
  }

  ghost predicate CoverageReportsDispatch(c: Context, rs: set<Record>) {
    exists r :: r in rs && Covering(c, r) && r.body.dispatchObserved
  }

  ghost function ObservationOf(c: Context, rs: set<Record>): Observation {
    if SomeEgress(c, rs) then Observed
    else if SomeDispatch(c, rs) then DispatchObserved
    else if DeclaredCoverage(c, rs) && !CoverageReportsDispatch(c, rs) then NotObserved
    else NotKnown
  }

  ghost predicate TimeoutAfterDispatch(c: Context, rs: set<Record>) {
    exists t, d :: t in rs && d in rs && BoundEvent(c, t) && BoundEvent(c, d) && t.body.Timeout? && d.body.Dispatch?
                   && d.body.dispatchedAt <= t.body.timedOutAt
  }

  /** The grant would be the target's but for this one dimension. */
  predicate JustMisses(h: Grant, g: Grant, failure: BindingAssessment) {
    h != g &&
    match failure
    case TenantMismatch => h.(tenant := g.tenant) == g
    case AccountMismatch => h.(account := g.account) == g
    case ActorMismatch => h.(actor := g.actor) == g
    case PurposeMismatch => h.(purpose := g.purpose) == g
    case RouteMismatch => h.(route := g.route) == g
    case EndpointNotApproved => h.(endpoint := g.endpoint) == g
    case ProviderNotApproved => h.(provider := g.provider) == g
    case _ => false
  }

  predicate NearMiss(grants: seq<Grant>, g: Grant, failure: BindingAssessment) {
    exists h :: h in grants && JustMisses(h, g, failure)
  }

  /** The first single dimension in which some grant differs from the target. */
  function GrantFailure(grants: seq<Grant>, g: Grant): BindingAssessment {
    if NearMiss(grants, g, TenantMismatch) then TenantMismatch
    else if NearMiss(grants, g, AccountMismatch) then AccountMismatch
    else if NearMiss(grants, g, ActorMismatch) then ActorMismatch
    else if NearMiss(grants, g, PurposeMismatch) then PurposeMismatch
    else if NearMiss(grants, g, RouteMismatch) then RouteMismatch
    else if NearMiss(grants, g, EndpointNotApproved) then EndpointNotApproved
    else if NearMiss(grants, g, ProviderNotApproved) then ProviderNotApproved
    else NoMatchingApproval
  }

  ghost function BindingOf(s: Subject, rs: set<Record>, at: int): BindingAssessment {
    if PermitStands(s, rs, at) then Match
    else if PayloadDisputed(s, rs, at) then PayloadMismatch
    else if HasPolicy(s, rs, at) && !Granted(s) then GrantFailure(s.policy.pinned.grants, s.grant)
    else if Decided(s, rs, at, false) then Match
    else Unresolved
  }

  function DispatchFor(v: Verdict): DispatchAction {
    match v case ALLOW => PermittedDispatch case DENY => BlockControlledRoute case _ => Hold
  }

  function RouteFor(v: Verdict): RouteAction {
    match v case ALLOW => PermittedRoute case DENY => BlockRoute case _ => ReviewRoute
  }

  const NOT_ASSESSED := Assessment(UNKNOWN, NotKnown, false, Unresolved, false, Hold, false, false, HealthUnknown,
                                   ReviewRoute, UNKNOWN, UNKNOWN)

  ghost function Assess(c: Context, rs: set<Record>): Assessment {
    if c.operationAt > c.asOf then NOT_ASSESSED
    else
      var s, at := c.subject, c.operationAt;
      Assessment(
        Final(c, rs), ObservationOf(c, rs), DeclaredCoverage(c, rs), BindingOf(s, rs, at), HasPolicy(s, rs, at),
        DispatchFor(Final(c, rs)), SomeAction(c, rs, DENY), TimeoutAfterDispatch(c, rs),
        HealthOf(s, rs, at, c.asOf),
        RouteFor(Final(c, rs)), Proposed(s, rs, at, c.asOf), ObservedVerdict(c, rs))
  }

  // ----- the assessor

  predicate StringLess(a: string, b: string) {
    if b == "" then false
    else if a == "" then true
    else if a[0] != b[0] then a[0] < b[0]
    else StringLess(a[1..], b[1..])
  }

  /** The strings agree up to some place, where the first one ends or has the smaller character. */
  lemma {:induction false} LessWhen(a: string, b: string)
    ensures StringLess(a, b) <==> exists k: nat :: DivergesAt(a, b, k)
  {
    if a != "" && b != "" && a[0] == b[0] {
      LessWhen(a[1..], b[1..]);
      if k: nat :| DivergesAt(a[1..], b[1..], k) { assert DivergesAt(a, b, k + 1); }
      if k: nat :| DivergesAt(a, b, k) {
        assert k > 0 && a[..k][1..] == a[1..][..k - 1] && b[..k][1..] == b[1..][..k - 1];
        assert DivergesAt(a[1..], b[1..], k - 1);
      }
    } else if StringLess(a, b) {
      assert DivergesAt(a, b, 0);
    }
  }

  predicate DivergesAt(a: string, b: string, k: nat) {
    k <= |a| && k < |b| && a[..k] == b[..k] && (k == |a| || a[k] < b[k])
  }

  lemma {:induction false} LessIsTransitive(a: string, b: string, d: string)
    requires StringLess(a, b) && StringLess(b, d)
    ensures StringLess(a, d)
  {
    if a != "" && a[0] == b[0] && b[0] == d[0] { LessIsTransitive(a[1..], b[1..], d[1..]); }
  }

  /** Recorded later, or at the same time under a greater id. */
  predicate Newer(q: Record, p: Record) {
    q.recordedAt > p.recordedAt || (q.recordedAt == p.recordedAt && StringLess(p.id, q.id))
  }

  lemma NewerIsTransitive(q: Record, r: Record, p: Record)
    requires Newer(q, r) && Newer(r, p)
    ensures Newer(q, p)
  {
    if q.recordedAt == p.recordedAt { LessIsTransitive(p.id, r.id, q.id); }
  }

  lemma NewestSoFar(past: seq<Record>, former: Option<Record>, r: Record)
    requires former.Some? ==> Newer(r, former.value)
    ensures former.Some? ==> forall q :: q in past && !Newer(q, former.value) ==> !Newer(q, r)
    ensures !Newer(r, r)
  {
    LessIsIrreflexive(r.id);
    if former.Some? {
      forall q | q in past && Newer(q, r) ensures Newer(q, former.value) { NewerIsTransitive(q, r, former.value); }
    }
  }

  lemma {:induction false} LessIsIrreflexive(a: string)
    ensures !StringLess(a, a)
  {
    if a != "" { LessIsIrreflexive(a[1..]); }
  }

  /** The record with the largest (time, id); all candidates carry the pinned content. */
  method SelectPolicy(c: Context, records: seq<Record>, at: int) returns (p: Option<Record>)
    ensures p.Some? <==> HasPolicy(c.subject, Elements(records), at)
    ensures p.Some? ==>
              && p.value in records && CurrentPolicy(c.subject, p.value, at)
              && forall q :: q in records && CurrentPolicy(c.subject, q, at) ==> !Newer(q, p.value)
  {
    p := None;
    for i := 0 to |records|
      invariant p.Some? ==> p.value in records && CurrentPolicy(c.subject, p.value, at)
      invariant p.Some? ==> forall q :: q in records[..i] && CurrentPolicy(c.subject, q, at) ==> !Newer(q, p.value)
      invariant p.Some? <==> exists r :: r in records[..i] && CurrentPolicy(c.subject, r, at)
    {
      var r := records[i];
      if r.body.Policy? && r.binding.policy == c.subject.policy && r.body.data == c.subject.policy.pinned
         && Within(r, at, r.body.data.effectiveFrom, r.body.data.effectiveUntil) {
        if p.None? || r.recordedAt > p.value.recordedAt
           || (r.recordedAt == p.value.recordedAt && StringLess(p.value.id, r.id)) {
          ghost var former := p;
          p := Some(r);
          NewestSoFar(records[..i], former, r);
        }
      }
      assert records[..i + 1] == records[..i] + [r];
    }
    assert records[..|records|] == records;
  }

  lemma LeastSoFar(past: seq<Record>, former: string, id: string)
    requires StringLess(id, former)
    ensures forall q :: q in past && !StringLess(q.id, former) ==> !StringLess(q.id, id)
    ensures !StringLess(id, id)
  {
    LessIsIrreflexive(id);
    forall q | q in past && StringLess(q.id, id) ensures StringLess(q.id, former) {
      LessIsTransitive(q.id, id, former);
    }
  }

  datatype DecisionFound = NoDecision | Conflict | One(record: Record)

  method SelectDecision(c: Context, records: seq<Record>, at: int) returns (d: DecisionFound)
    ensures var rs := Elements(records);
            && (d.One? <==> Decided(c.subject, rs, at, true) || Decided(c.subject, rs, at, false))
            && (d.One? ==> LatestDecision(c.subject, rs, d.record, at)
                           && Decided(c.subject, rs, at, d.record.body.permit)
                           && forall q :: LatestDecision(c.subject, rs, q, at) ==> !StringLess(q.id, d.record.id))
  {
    ghost var rs := Elements(records);
    var current: seq<Record> := [];
    for i := 0 to |records|
      invariant forall r :: r in current ==> r in rs && CurrentDecision(c.subject, r, at)
      invariant forall r :: r in current ==> r.recordedAt == current[0].recordedAt
      invariant forall r :: r in records[..i] && CurrentDecision(c.subject, r, at) ==>
                  current != [] && (r.recordedAt < current[0].recordedAt || r in current)
    {
      var r := records[i];
      if CurrentDecision(c.subject, r, at) {
        if current == [] || r.recordedAt > current[0].recordedAt { current := [r]; }
        else if r.recordedAt == current[0].recordedAt { current := current + [r]; }
      }
      assert records[..i + 1] == records[..i] + [r];
    }
    assert records[..|records|] == records;
    if current == [] { return NoDecision; }
    assert forall r :: r in current ==> LatestDecision(c.subject, rs, r, at);
    assert forall r :: LatestDecision(c.subject, rs, r, at) ==> r in current;
    var least := current[0];
    LessIsIrreflexive(least.id);
    for j := 1 to |current|
      invariant least in current
      invariant forall k :: 0 <= k < j ==> !StringLess(current[k].id, least.id)
      invariant forall k :: 0 <= k < j ==> current[k].body.permit == current[0].body.permit
    {
      if current[j].body.permit != current[0].body.permit {
        assert LatestDecision(c.subject, rs, current[j], at) && LatestDecision(c.subject, rs, current[0], at);
        return Conflict;
      }
      if StringLess(current[j].id, least.id) {
        LeastSoFar(current[..j], least.id, current[j].id);
        least := current[j];
      }
    }
    assert forall r :: r in current ==> r.body.permit == current[0].body.permit;
    assert LatestDecision(c.subject, rs, least, at);
    return One(least);
  }

  method HealthAt(c: Context, records: seq<Record>, at: int) returns (checked: bool, bad: bool)
    ensures checked == Checked(c.subject, Elements(records), at, c.asOf)
    ensures bad == CheckedBad(c.subject, Elements(records), at, c.asOf)
  {
    checked, bad := false, false;
    for i := 0 to |records|
      invariant checked <==> exists r :: r in records[..i] && HealthCheck(c.subject, r, at, c.asOf)
      invariant bad <==>
        exists r :: r in records[..i] && HealthCheck(c.subject, r, at, c.asOf) && !(r.body.available && r.body.durable)
    {
      var r := records[i];
      if HealthCheck(c.subject, r, at, c.asOf) {
        checked := true;
        if !r.body.available || !r.body.durable { bad := true; }
      }
      assert records[..i + 1] == records[..i] + [r];
    }
    assert records[..|records|] == records;
  }

  datatype EventKind = Dispatches | Egresses | Timeouts

  predicate OfKind(k: EventKind, b: Body) {
    match k case Dispatches => b.Dispatch? case Egresses => b.Egress? case Timeouts => b.Timeout?
  }

  method Events(c: Context, records: seq<Record>, k: EventKind) returns (selected: seq<Record>)
    ensures forall r :: r in selected <==> r in Elements(records) && OfKind(k, r.body) && BoundEvent(c, r)
  {
    selected := [];
    for i := 0 to |records|
      invariant forall r :: r in selected <==> r in records[..i] && OfKind(k, r.body) && BoundEvent(c, r)
    {
      var r := records[i];
      if OfKind(k, r.body) && r.binding == c.subject {
        var at := EventTime(r.body);
        if c.operationAt <= at <= r.recordedAt <= c.asOf { selected := selected + [r]; }
      }
      assert records[..i + 1] == records[..i] + [r];
    }
    assert records[..|records|] == records;
  }

  method OtherPayloadPermitted(c: Context, records: seq<Record>) returns (disputed: bool)
    ensures disputed == PayloadDisputed(c.subject, Elements(records), c.operationAt)
  {
    disputed := false;
    for i := 0 to |records|
      invariant disputed <==> exists r :: r in records[..i] && PermitsOtherPayload(c.subject, r, c.operationAt)
    {
      if PermitsOtherPayload(c.subject, records[i], c.operationAt) { disputed := true; }
      assert records[..i + 1] == records[..i] + [records[i]];
    }
    assert records[..|records|] == records;
  }

  /** The verdict on policy and decision alone, with its binding assessment. */
  method AssessAuthority(c: Context, records: seq<Record>) returns (v: Verdict, binding: BindingAssessment, bound: bool)
    ensures var rs, s, at := Elements(records), c.subject, c.operationAt;
            && bound == HasPolicy(s, rs, at) && binding == BindingOf(s, rs, at)
            && v == (if PermitStands(s, rs, at) then ALLOW
                     else if (bound && !Granted(s)) || Decided(s, rs, at, false) || PayloadDisputed(s, rs, at) then DENY
                     else REVIEW)
  {
    var policy := SelectPolicy(c, records, c.operationAt);
    var decision := SelectDecision(c, records, c.operationAt);
    AuthorityIsConsistent(c.subject, Elements(records), c.operationAt);
    var allowed := policy.Some? && c.subject.grant in policy.value.body.data.grants;
    bound := policy.Some?;
    if policy.Some? && !allowed {
      v, binding := DENY, GrantFailure(policy.value.body.data.grants, c.subject.grant);
    } else if decision.One? && !decision.record.body.permit {
      v, binding := DENY, Match;
    } else if policy.Some? && allowed && decision.One? {
      v, binding := ALLOW, Match;
    } else {
      v, binding := REVIEW, Unresolved;
    }
    if v != ALLOW {
      var disputed := OtherPayloadPermitted(c, records);
      if disputed { v, binding := DENY, PayloadMismatch; }
    }
  }

  /** The latest decisions cannot all permit and all deny. */
  lemma AuthorityIsConsistent(s: Subject, rs: set<Record>, at: int)
    ensures !(Decided(s, rs, at, true) && Decided(s, rs, at, false))
  {
  }

  /** The proposed verdict and what is decided with it, before any observed action. */
  method Propose(c: Context, records: seq<Record>) returns (a: Assessment)
    ensures var rs, s, at := Elements(records), c.subject, c.operationAt;
            a == NOT_ASSESSED.(
              authorization := Proposed(s, rs, at, c.asOf), proposed := Proposed(s, rs, at, c.asOf),
              dispatchAction := DispatchFor(Proposed(s, rs, at, c.asOf)),
              routeAction := RouteFor(Proposed(s, rs, at, c.asOf)), binding := BindingOf(s, rs, at),
              policyBound := HasPolicy(s, rs, at), health := HealthOf(s, rs, at, c.asOf))
  {
    var v, binding, bound := AssessAuthority(c, records);
    AuthorityIsConsistent(c.subject, Elements(records), c.operationAt);
    a := NOT_ASSESSED.(authorization := v, binding := binding, policyBound := bound);
    if v == ALLOW { a := a.(dispatchAction := PermittedDispatch, routeAction := PermittedRoute); }
    var checked, bad := HealthAt(c, records, c.operationAt);
    var required := bound && c.subject.policy.pinned.requireCollector;
    if checked {
      if bad {
        a := a.(health := Unavailable);
        if required { a := a.(routeAction := BlockRoute, authorization := DENY); }
      } else {
        a := a.(health := AvailableDurable);
      }
    } else if required {
      if a.authorization == ALLOW { a := a.(authorization := REVIEW, routeAction := ReviewRoute); }
    }
    if a.authorization == DENY {
      a := a.(dispatchAction := BlockControlledRoute, routeAction := BlockRoute);
    } else if a.authorization != ALLOW {
      a := a.(dispatchAction := Hold);
    }
    a := a.(proposed := a.authorization);
  }

  method AssessAction(c: Context, records: seq<Record>, e: Record) returns (v: Verdict)
    requires Action(c, e)
    ensures v == EventVerdict(c, Elements(records), e)
  {
    var at := EventTime(e.body);
    var policy := SelectPolicy(c, records, at);
    var decision := SelectDecision(c, records, at);
    var checked, bad := HealthAt(c, records, at);
    var registryDenies := policy.Some? && c.subject.grant !in policy.value.body.data.grants;
    var decisionDenies := decision.One? && !decision.record.body.permit;
    var required := policy.Some? && policy.value.body.data.requireCollector;
    if registryDenies || decisionDenies || (required && bad) { return DENY; }
    if policy.Some? && decision.One? && decision.record.body.permit && (!required || checked) { return ALLOW; }
    return REVIEW;
  }

  method AssessCoverage(c: Context, records: seq<Record>) returns (declared: bool, reportsDispatch: bool)
    ensures declared == DeclaredCoverage(c, Elements(records))
    ensures reportsDispatch == CoverageReportsDispatch(c, Elements(records))
  {
    var complete, incomplete := false, false;
    reportsDispatch := false;
    for i := 0 to |records|
      invariant complete <==> exists r :: r in records[..i] && Covering(c, r) && r.body.complete
      invariant incomplete <==> exists r :: r in records[..i] && Covering(c, r) && !r.body.complete
      invariant reportsDispatch <==> exists r :: r in records[..i] && Covering(c, r) && r.body.dispatchObserved
    {
      var r := records[i];
      if Covering(c, r) {
        if r.body.complete { complete := true; } else { incomplete := true; }
        if r.body.dispatchObserved { reportsDispatch := true; }
      }
      assert records[..i + 1] == records[..i] + [r];
    }
    assert records[..|records|] == records;
    declared := complete && !incomplete && c.managedRoute;
  }

  /** Every observed action is judged at its own time. */
  method AssessActions(c: Context, records: seq<Record>, actions: seq<Record>) returns (observed: Verdict)
    requires forall e :: e in actions <==> e in Elements(records) && Action(c, e)
    ensures observed == ObservedVerdict(c, Elements(records))
  {
    ghost var rs := Elements(records);
    var denied, unsettled := false, false;
    for i := 0 to |actions|
      invariant denied <==> exists e :: e in actions[..i] && EventVerdict(c, rs, e) == DENY
      invariant unsettled <==> exists e :: e in actions[..i] && EventVerdict(c, rs, e) == REVIEW
    {
      var v := AssessAction(c, records, actions[i]);
      if v == DENY { denied := true; } else if v == REVIEW { unsettled := true; }
      assert actions[..i + 1] == actions[..i] + [actions[i]];
    }
    assert actions[..|actions|] == actions;
    assert denied <==> SomeAction(c, rs, DENY);
    assert unsettled <==> SomeAction(c, rs, REVIEW);
    if actions == [] { return UNKNOWN; }
    assert actions[0] in actions;
    return if denied then DENY else if unsettled then REVIEW else ALLOW;
  }

  method ObserveTransfer(c: Context, records: seq<Record>, dispatches: seq<Record>, egresses: seq<Record>)
    returns (declared: bool, observation: Observation)
    requires forall r :: r in dispatches <==> r in Elements(records) && r.body.Dispatch? && BoundEvent(c, r)
    requires forall r :: r in egresses <==> r in Elements(records) && r.body.Egress? && BoundEvent(c, r)
    ensures declared == DeclaredCoverage(c, Elements(records)) && observation == ObservationOf(c, Elements(records))
  {
    var reportsDispatch;
    declared, reportsDispatch := AssessCoverage(c, records);
    assert SomeEgress(c, Elements(records)) <==>
        egresses != [] by { if egresses != [] { assert egresses[0] in egresses; } }
    assert SomeDispatch(c, Elements(records)) <==>
        dispatches != [] by { if dispatches != [] { assert dispatches[0] in dispatches; } }
    observation := if egresses != [] then Observed
                   else if dispatches != [] then DispatchObserved
                   else if declared && !reportsDispatch then NotObserved else NotKnown;
  }

  method Evaluate(c: Context, records: seq<Record>) returns (a: Assessment)
    ensures a == Assess(c, Elements(records))
  {
    if c.operationAt > c.asOf { return NOT_ASSESSED; }
    ghost var rs := Elements(records);
    a := Propose(c, records);
    var dispatches := Events(c, records, Dispatches);
    var egresses := Events(c, records, Egresses);
    var declared, observation := ObserveTransfer(c, records, dispatches, egresses);
    a := a.(declaredCoverage := declared, observation := observation);
    var observed := AssessActions(c, records, egresses + dispatches);
    a := a.(observedAuthorization := observed);
    if observed == DENY {
      a := a.(violation := true, authorization := DENY, dispatchAction := BlockControlledRoute,
              routeAction := BlockRoute);
    } else if observed == REVIEW && a.authorization == ALLOW {
      a := a.(authorization := REVIEW, dispatchAction := Hold, routeAction := ReviewRoute);
    }
    assert a.authorization == Final(c, rs);
    var timeouts := Events(c, records, Timeouts);
    var reconcile := AnyDispatchBefore(dispatches, timeouts);
    assert reconcile <==> TimeoutAfterDispatch(c, rs);
    if reconcile { a := a.(reconcileBeforeRetry := true); }
  }

  method AnyDispatchBefore(dispatches: seq<Record>, timeouts: seq<Record>) returns (found: bool)
    requires forall r :: r in dispatches ==> r.body.Dispatch?
    requires forall r :: r in timeouts ==> r.body.Timeout?
    ensures found <==> exists t, d :: t in timeouts && d in dispatches && d.body.dispatchedAt <= t.body.timedOutAt
  {
    for i := 0 to |timeouts|
      invariant forall t, d :: t in timeouts[..i] && d in dispatches ==> d.body.dispatchedAt > t.body.timedOutAt
    {
      for j := 0 to |dispatches|
        invariant forall d :: d in dispatches[..j] ==> d.body.dispatchedAt > timeouts[i].body.timedOutAt
      {
        if dispatches[j].body.dispatchedAt <= timeouts[i].body.timedOutAt {
          assert timeouts[i] in timeouts && dispatches[j] in dispatches;
          return true;
        }
      }
      assert dispatches[..|dispatches|] == dispatches;
      assert timeouts[..i + 1] == timeouts[..i] + [timeouts[i]];
    }
    assert timeouts[..|timeouts|] == timeouts;
    return false;
  }

  // ----- consequences

  /** The assessment allows exactly when the transfer is authorized at the operation time and
      every observed action was authorized at its own time. */
  lemma AllowsExactly(c: Context, rs: set<Record>)
    ensures Assess(c, rs).authorization == ALLOW <==>
      && c.operationAt <= c.asOf && Authorized(c.subject, rs, c.operationAt, c.asOf)
      && forall e :: e in rs && Action(c, e) ==> Authorized(c.subject, rs, EventTime(e.body), c.asOf)
  {
  }

  function Rank(v: Verdict): nat { match v case DENY => 0 case UNKNOWN => 1 case REVIEW => 1 case ALLOW => 2 }

  /** Observed actions only ever lower the proposed verdict, and both actions the assessment
      recommends agree with its final verdict. */
  lemma NeverUpgraded(c: Context, rs: set<Record>)
    ensures var a := Assess(c, rs);
            && Rank(a.authorization) <= Rank(a.proposed)
            && (a.observedAuthorization == DENY ==> a.authorization == DENY && a.violation)
            && (a.observedAuthorization == REVIEW ==> a.authorization != ALLOW)
            && a.dispatchAction == DispatchFor(a.authorization) && a.routeAction == RouteFor(a.authorization)
  {
  }

  /** Two presentations of the same records, in any order, get the same assessment. */
  method EvaluateBoth(c: Context, records: seq<Record>, shuffled: seq<Record>) returns (a: Assessment, b: Assessment)
    requires multiset(records) == multiset(shuffled)
    ensures a == b
  {
    a := Evaluate(c, records);
    b := Evaluate(c, shuffled);
    assert Elements(records) == Elements(shuffled) by {
      forall r ensures r in records <==> r in shuffled {
        assert r in multiset(records) <==> r in multiset(shuffled);
      }
    }
  }
}
