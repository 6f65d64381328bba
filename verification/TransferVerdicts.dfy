/** What each field of a transfer assessment says about the records, told from their dates. */
module TransferVerdicts {
  import opened TransferAssessment

  // ----- what a verdict rests on

  /** The pinned policy is on record by the time, and the time is in its interval. */
  ghost predicate InForce(s: Subject, rs: set<Record>, at: int) {
    exists p :: p in rs && p.body == Policy(s.policy.pinned) && p.binding.policy == s.policy && p.recordedAt <= at
                && s.policy.pinned.effectiveFrom <= at < s.policy.pinned.effectiveUntil
  }

  /** A decision on exactly this subject, on record by the time and not expired. */
  predicate Speaks(s: Subject, d: Record, at: int) {
    && d.body.Decision? && d.binding == s
    && d.recordedAt <= at && d.body.validFrom <= at && at < d.body.validUntil
  }

  /** Such a decision says `permit`, and none recorded with it or after it says otherwise. */
  ghost predicate LastWord(s: Subject, rs: set<Record>, at: int, permit: bool) {
    exists d :: d in rs && Speaks(s, d, at) && d.body.permit == permit && Unanswered(s, rs, at, d)
  }

  ghost predicate Unanswered(s: Subject, rs: set<Record>, at: int, d: Record)
    requires d.body.Decision?
  {
    forall q :: q in rs && Speaks(s, q, at) && d.recordedAt <= q.recordedAt ==> q.body.permit == d.body.permit
  }

  /** A collector check of the time itself with this result was recorded by the assessment. */
  ghost predicate CheckedAs(c: Context, rs: set<Record>, at: int, good: bool) {
    exists h :: h in rs && h.body.Health? && h.binding == c.subject && h.body.checkedAt == at
                && at <= h.recordedAt && h.recordedAt <= c.asOf && (h.body.available && h.body.durable) == good
  }

  /** The transfer is in order at the time. */
  ghost predicate InOrder(c: Context, rs: set<Record>, at: int) {
    var s := c.subject;
    && InForce(s, rs, at) && s.grant in s.policy.pinned.grants && LastWord(s, rs, at, true)
    && (s.policy.pinned.requireCollector ==> CheckedAs(c, rs, at, true) && !CheckedAs(c, rs, at, false))
  }

  /** The transfer is forbidden at the time. */
  ghost predicate Forbidden(c: Context, rs: set<Record>, at: int) {
    var s := c.subject;
    || LastWord(s, rs, at, false)
    || (InForce(s, rs, at) &&
        (s.grant !in s.policy.pinned.grants || (s.policy.pinned.requireCollector && CheckedAs(c, rs, at, false))))
  }

  /** This subject was seen to act at this time. */
  ghost predicate Acted(c: Context, rs: set<Record>, at: int) {
    exists e :: e in rs && e.binding == c.subject && (e.body == Dispatch(at) || e.body == Egress(at))
                && c.operationAt <= at && at <= e.recordedAt && e.recordedAt <= c.asOf
  }

  // ----- the same, as the assessor finds it

  lemma {:induction false} LatestExists(s: Subject, rs: set<Record>, at: int, d: Record)
    requires d in rs && CurrentDecision(s, d, at)
    ensures exists m :: m in rs && CurrentDecision(s, m, at) && d.recordedAt <= m.recordedAt
                        && forall q :: q in rs && CurrentDecision(s, q, at) ==> q.recordedAt <= m.recordedAt
    decreases rs
  {
    if e :| e in rs && CurrentDecision(s, e, at) && e.recordedAt > d.recordedAt {
      LatestExists(s, rs - {d}, at, e);
    }
  }

  lemma LastWordDecides(s: Subject, rs: set<Record>, at: int, permit: bool)
    ensures LastWord(s, rs, at, permit) <==> Decided(s, rs, at, permit)
  {
    if LastWord(s, rs, at, permit) {
      var d :| d in rs && Speaks(s, d, at) && d.body.permit == permit && Unanswered(s, rs, at, d);
      LatestExists(s, rs, at, d);
      var m :| m in rs && CurrentDecision(s, m, at) && d.recordedAt <= m.recordedAt
               && forall q :: q in rs && CurrentDecision(s, q, at) ==> q.recordedAt <= m.recordedAt;
      assert LatestDecision(s, rs, m, at);
      forall m | LatestDecision(s, rs, m, at) ensures m.body.permit == permit { assert Speaks(s, m, at); }
    }
    if Decided(s, rs, at, permit) {
      var m :| LatestDecision(s, rs, m, at);
      assert Speaks(s, m, at) && m.body.permit == permit;
      forall q | q in rs && Speaks(s, q, at) && m.recordedAt <= q.recordedAt ensures q.body.permit == permit {
        assert LatestDecision(s, rs, q, at);
      }
      assert Unanswered(s, rs, at, m);
    }
  }

  lemma InForceIsBound(s: Subject, rs: set<Record>, at: int)
    ensures InForce(s, rs, at) <==> HasPolicy(s, rs, at)
  {
    if p :| p in rs && CurrentPolicy(s, p, at) { assert p.body == Policy(s.policy.pinned); }
    if p :| p in rs && p.body == Policy(s.policy.pinned) && p.binding.policy == s.policy && p.recordedAt <= at
            && s.policy.pinned.effectiveFrom <= at < s.policy.pinned.effectiveUntil {
      assert CurrentPolicy(s, p, at);
    }
  }

  lemma ChecksAreFound(c: Context, rs: set<Record>, at: int)
    ensures CheckedAs(c, rs, at, false) <==> CheckedBad(c.subject, rs, at, c.asOf)
    ensures CheckedAs(c, rs, at, true) || CheckedAs(c, rs, at, false) <==> Checked(c.subject, rs, at, c.asOf)
  {
    if h :| h in rs && HealthCheck(c.subject, h, at, c.asOf) {
      assert CheckedAs(c, rs, at, h.body.available && h.body.durable);
    }
  }

  lemma OrderMeans(c: Context, rs: set<Record>, at: int)
    ensures InOrder(c, rs, at) <==> Authorized(c.subject, rs, at, c.asOf)
    ensures Forbidden(c, rs, at) <==> RuledOut(c.subject, rs, at, c.asOf)
  {
    InForceIsBound(c.subject, rs, at);
    LastWordDecides(c.subject, rs, at, true);
    LastWordDecides(c.subject, rs, at, false);
    ChecksAreFound(c, rs, at);
  }

  lemma ActionsAct(c: Context, rs: set<Record>)
    ensures forall e :: e in rs && Action(c, e) ==> Acted(c, rs, EventTime(e.body))
    ensures forall at :: Acted(c, rs, at) ==> exists e :: e in rs && Action(c, e) && EventTime(e.body) == at
  {
    forall e | e in rs && Action(c, e) ensures Acted(c, rs, EventTime(e.body)) {
      assert e.body == Dispatch(EventTime(e.body)) || e.body == Egress(EventTime(e.body));
    }
    forall at | Acted(c, rs, at) ensures exists e :: e in rs && Action(c, e) && EventTime(e.body) == at {
      var e :| e in rs && e.binding == c.subject && (e.body == Dispatch(at) || e.body == Egress(at))
               && c.operationAt <= at && at <= e.recordedAt && e.recordedAt <= c.asOf;
      assert Action(c, e) && EventTime(e.body) == at;
    }
  }

  lemma ActionVerdict(c: Context, rs: set<Record>, e: Record)
    requires Action(c, e)
    ensures EventVerdict(c, rs, e) == DENY <==> Forbidden(c, rs, EventTime(e.body))
    ensures EventVerdict(c, rs, e) == ALLOW <==> InOrder(c, rs, EventTime(e.body))
    ensures EventVerdict(c, rs, e) != UNKNOWN
  {
    OrderMeans(c, rs, EventTime(e.body));
    AuthorityIsConsistent(c.subject, rs, EventTime(e.body));
  }

  lemma SomeForbidden(c: Context, rs: set<Record>)
    ensures SomeAction(c, rs, DENY) <==> exists at :: Acted(c, rs, at) && Forbidden(c, rs, at)
  {
    ActionsAct(c, rs);
    if e :| e in rs && Action(c, e) && EventVerdict(c, rs, e) == DENY { ActionVerdict(c, rs, e); }
    if at :| Acted(c, rs, at) && Forbidden(c, rs, at) {
      var e :| e in rs && Action(c, e) && EventTime(e.body) == at;
      ActionVerdict(c, rs, e);
    }
  }

  lemma SomeNotInOrder(c: Context, rs: set<Record>)
    ensures SomeAction(c, rs, DENY) || SomeAction(c, rs, REVIEW) <==>
              exists at :: Acted(c, rs, at) && !InOrder(c, rs, at)
  {
    ActionsAct(c, rs);
    if e :| e in rs && Action(c, e) && EventVerdict(c, rs, e) in {DENY, REVIEW} { ActionVerdict(c, rs, e); }
    if at :| Acted(c, rs, at) && !InOrder(c, rs, at) {
      var e :| e in rs && Action(c, e) && EventTime(e.body) == at;
      ActionVerdict(c, rs, e);
      assert SomeAction(c, rs, EventVerdict(c, rs, e));
    }
  }

  lemma SomeAtAll(c: Context, rs: set<Record>)
    ensures SomeAction(c, rs, DENY) || SomeAction(c, rs, REVIEW) || SomeAction(c, rs, ALLOW) <==>
              exists at :: Acted(c, rs, at)
  {
    ActionsAct(c, rs);
    if at :| Acted(c, rs, at) {
      var e :| e in rs && Action(c, e) && EventTime(e.body) == at;
      ActionVerdict(c, rs, e);
      assert SomeAction(c, rs, EventVerdict(c, rs, e));
    }
  }

  // ----- the verdict

  /** The assessment allows exactly what was in order when it was asked for and whenever it was
      done. */
  lemma AllowedWhen(c: Context, rs: set<Record>)
    ensures Assess(c, rs).authorization == ALLOW <==>
      && c.operationAt <= c.asOf && InOrder(c, rs, c.operationAt)
      && forall at :: Acted(c, rs, at) ==> InOrder(c, rs, at)
  {
    SomeNotInOrder(c, rs);
    OrderMeans(c, rs, c.operationAt);
  }

  /** The payload is disputed: what does not stand is permitted for other bytes. */
  ghost predicate OtherBytesPermitted(s: Subject, rs: set<Record>, at: int) {
    exists d :: d in rs && d.body.Decision? && d.body.permit && d.binding.payload != s.payload
                && d.binding == s.(payload := d.binding.payload)
                && d.recordedAt <= at && d.body.validFrom <= at && at < d.body.validUntil
  }

  ghost predicate Stands(s: Subject, rs: set<Record>, at: int) {
    InForce(s, rs, at) && s.grant in s.policy.pinned.grants && LastWord(s, rs, at, true)
  }

  lemma DisputeMeans(s: Subject, rs: set<Record>, at: int)
    ensures OtherBytesPermitted(s, rs, at) <==> PayloadDisputed(s, rs, at)
    ensures Stands(s, rs, at) <==> PermitStands(s, rs, at)
  {
    InForceIsBound(s, rs, at);
    LastWordDecides(s, rs, at, true);
    if d :| d in rs && PermitsOtherPayload(s, d, at) {
      assert d.binding.(payload := s.payload) == s && d.binding != s;
      assert d.binding == s.(payload := d.binding.payload);
    }
    if d :| d in rs && d.body.Decision? && d.body.permit && d.binding.payload != s.payload
            && d.binding == s.(payload := d.binding.payload)
            && d.recordedAt <= at && d.body.validFrom <= at && at < d.body.validUntil {
      assert PermitsOtherPayload(s, d, at);
    }
  }

  /** The assessment denies exactly what was forbidden, or done while forbidden, or permitted
      for other bytes only. */
  lemma DeniedWhen(c: Context, rs: set<Record>)
    ensures Assess(c, rs).authorization == DENY <==>
      c.operationAt <= c.asOf &&
      var s, at := c.subject, c.operationAt;
      || Forbidden(c, rs, at) || (!Stands(s, rs, at) && OtherBytesPermitted(s, rs, at))
      || exists when :: Acted(c, rs, when) && Forbidden(c, rs, when)
  {
    SomeForbidden(c, rs);
    OrderMeans(c, rs, c.operationAt);
    DisputeMeans(c.subject, rs, c.operationAt);
  }

  // ----- the other fields

  lemma ReportedOfActions(c: Context, rs: set<Record>)
    requires c.operationAt <= c.asOf
    ensures var a := Assess(c, rs);
      && (a.violation <==> exists at :: Acted(c, rs, at) && Forbidden(c, rs, at))
      && (a.observedAuthorization == DENY <==> a.violation)
      && (a.observedAuthorization == UNKNOWN <==> !exists at :: Acted(c, rs, at))
      && (a.observedAuthorization == ALLOW <==>
            (exists at :: Acted(c, rs, at)) && forall at :: Acted(c, rs, at) ==> InOrder(c, rs, at))
  {
    SomeForbidden(c, rs);
    SomeNotInOrder(c, rs);
    SomeAtAll(c, rs);
  }

  lemma ReportedOfOperation(c: Context, rs: set<Record>)
    requires c.operationAt <= c.asOf
    ensures var a, s, at := Assess(c, rs), c.subject, c.operationAt;
      && (a.policyBound <==> InForce(s, rs, at))
      && (a.health == Unavailable <==> CheckedAs(c, rs, at, false))
      && (a.health == AvailableDurable <==> CheckedAs(c, rs, at, true) && !CheckedAs(c, rs, at, false))
      && (a.proposed == ALLOW <==> InOrder(c, rs, at))
      && (a.proposed == DENY <==>
            Forbidden(c, rs, at) || (!Stands(s, rs, at) && OtherBytesPermitted(s, rs, at)))
      && a.proposed != UNKNOWN && a.authorization != UNKNOWN
  {
    OrderMeans(c, rs, c.operationAt);
    InForceIsBound(c.subject, rs, c.operationAt);
    ChecksAreFound(c, rs, c.operationAt);
    DisputeMeans(c.subject, rs, c.operationAt);
    AuthorityIsConsistent(c.subject, rs, c.operationAt);
  }

  /** What is recommended follows the verdict: only ALLOW permits and only DENY blocks. */
  lemma Recommended(c: Context, rs: set<Record>)
    ensures var a := Assess(c, rs);
      && (a.dispatchAction == PermittedDispatch <==> a.authorization == ALLOW)
      && (a.dispatchAction == BlockControlledRoute <==> a.authorization == DENY)
      && (a.routeAction == PermittedRoute <==> a.authorization == ALLOW)
      && (a.routeAction == BlockRoute <==> a.authorization == DENY)
  {
  }

  ghost predicate Saw(c: Context, rs: set<Record>, body: Body) {
    exists e :: e in rs && e.binding == c.subject && e.body == body && e.recordedAt <= c.asOf &&
                match body
                case Dispatch(t) => c.operationAt <= t <= e.recordedAt
                case Egress(t) => c.operationAt <= t <= e.recordedAt
                case Timeout(t) => c.operationAt <= t <= e.recordedAt
                case _ => false
  }

  /** A statement about the subject's route whose interval holds the operation and was over when
      it was made. */
  predicate Covers(c: Context, r: Record) {
    && r.body.Coverage? && r.binding == c.subject && c.subject.grant.route in r.body.routes
    && r.body.start <= c.operationAt && c.operationAt < r.body.end
    && r.body.end <= r.recordedAt && r.recordedAt <= c.asOf
  }

  lemma EventIsSeen(c: Context, rs: set<Record>, e: Record)
    requires e in rs && BoundEvent(c, e)
    ensures Saw(c, rs, e.body)
  {
    var t := EventTime(e.body);
    assert e.body == Dispatch(t) || e.body == Egress(t) || e.body == Timeout(t);
  }

  lemma SeenIsEvent(c: Context, rs: set<Record>, body: Body)
    requires Saw(c, rs, body)
    ensures exists e :: e in rs && BoundEvent(c, e) && e.body == body
  {
  }

  lemma SeenTransfers(c: Context, rs: set<Record>)
    ensures SomeEgress(c, rs) <==> exists t :: Saw(c, rs, Egress(t))
    ensures SomeDispatch(c, rs) <==> exists t :: Saw(c, rs, Dispatch(t))
  {
    if e :| e in rs && BoundEvent(c, e) && e.body.Egress? {
      EventIsSeen(c, rs, e);
      assert Saw(c, rs, Egress(e.body.observedAt));
    }
    if e :| e in rs && BoundEvent(c, e) && e.body.Dispatch? {
      EventIsSeen(c, rs, e);
      assert Saw(c, rs, Dispatch(e.body.dispatchedAt));
    }
    if t :| Saw(c, rs, Egress(t)) { SeenIsEvent(c, rs, Egress(t)); }
    if t :| Saw(c, rs, Dispatch(t)) { SeenIsEvent(c, rs, Dispatch(t)); }
  }

  lemma SeenTimeouts(c: Context, rs: set<Record>)
    ensures TimeoutAfterDispatch(c, rs) <==> exists d, t :: Saw(c, rs, Dispatch(d)) && Saw(c, rs, Timeout(t)) && d <= t
  {
    if TimeoutAfterDispatch(c, rs) {
      var t, d :| t in rs && d in rs && BoundEvent(c, t) && BoundEvent(c, d) && t.body.Timeout? && d.body.Dispatch?
                  && d.body.dispatchedAt <= t.body.timedOutAt;
      EventIsSeen(c, rs, d);
      EventIsSeen(c, rs, t);
      assert Saw(c, rs, Dispatch(d.body.dispatchedAt)) && Saw(c, rs, Timeout(t.body.timedOutAt));
    }
    if d, t :| Saw(c, rs, Dispatch(d)) && Saw(c, rs, Timeout(t)) && d <= t {
      SeenIsEvent(c, rs, Dispatch(d));
      SeenIsEvent(c, rs, Timeout(t));
    }
  }

  /** What is reported of the transfer itself: an absence only from complete statements of a
      managed route that report no dispatch. */
  lemma ReportedOfTransfer(c: Context, rs: set<Record>)
    requires c.operationAt <= c.asOf
    ensures var a := Assess(c, rs);
      var egress, dispatch := exists t :: Saw(c, rs, Egress(t)), exists t :: Saw(c, rs, Dispatch(t));
      && (a.observation == Observed <==> egress)
      && (a.observation == DispatchObserved <==> !egress && dispatch)
      && (a.declaredCoverage <==>
            && c.managedRoute && (exists r :: r in rs && Covers(c, r))
            && forall r :: r in rs && Covers(c, r) ==> r.body.complete)
      && (a.observation == NotObserved <==>
            && !egress && !dispatch && a.declaredCoverage
            && forall r :: r in rs && Covers(c, r) ==> !r.body.dispatchObserved)
      && (a.reconcileBeforeRetry <==> exists d, t :: Saw(c, rs, Dispatch(d)) && Saw(c, rs, Timeout(t)) && d <= t)
  {
    SeenTransfers(c, rs);
    SeenTimeouts(c, rs);
    assert forall r :: Covers(c, r) <==> Covering(c, r);
  }

  /** Before the operation time nothing is assessed. */
  lemma NothingTooEarly(c: Context, rs: set<Record>)
    requires c.asOf < c.operationAt
    ensures var a := Assess(c, rs);
      && a.authorization == UNKNOWN && a.proposed == UNKNOWN && a.observedAuthorization == UNKNOWN
      && a.dispatchAction == Hold && a.routeAction == ReviewRoute && !a.violation && !a.reconcileBeforeRetry
      && a.observation == NotKnown && a.health == HealthUnknown && a.binding == Unresolved
  {
  }

  // ----- the binding

  /** The dimensions in which a grant differs from the target. */
  function Differs(h: Grant, g: Grant): set<BindingAssessment> {
    (if h.tenant != g.tenant then {TenantMismatch} else {})
    + (if h.account != g.account then {AccountMismatch} else {})
    + (if h.actor != g.actor then {ActorMismatch} else {})
    + (if h.purpose != g.purpose then {PurposeMismatch} else {})
    + (if h.route != g.route then {RouteMismatch} else {})
    + (if h.endpoint != g.endpoint then {EndpointNotApproved} else {})
    + (if h.provider != g.provider then {ProviderNotApproved} else {})
  }

  lemma MissesOne(h: Grant, g: Grant, failure: BindingAssessment)
    ensures JustMisses(h, g, failure) <==> Differs(h, g) == {failure}
  {
  }

  /** A near miss is a grant that differs in exactly the one dimension. */
  lemma NearMissMeans(grants: seq<Grant>, g: Grant, failure: BindingAssessment)
    ensures NearMiss(grants, g, failure) <==> exists h :: h in grants && Differs(h, g) == {failure}
  {
    if h :| h in grants && JustMisses(h, g, failure) { MissesOne(h, g, failure); }
    if h :| h in grants && Differs(h, g) == {failure} { MissesOne(h, g, failure); }
  }

  /** The order in which failures are looked for. */
  function Order(failure: BindingAssessment): nat {
    match failure
    case TenantMismatch => 0 case AccountMismatch => 1 case ActorMismatch => 2 case PurposeMismatch => 3
    case RouteMismatch => 4 case EndpointNotApproved => 5 case ProviderNotApproved => 6 case _ => 7
  }

  /** The failure named is the first one in that order which some grant shows. */
  lemma FailureIsFirstMiss(grants: seq<Grant>, g: Grant)
    ensures var failure := GrantFailure(grants, g);
      && (failure == NoMatchingApproval || NearMiss(grants, g, failure))
      && forall d :: NearMiss(grants, g, d) ==> Order(failure) <= Order(d) < 7
  {
  }

  /** What the binding says: a match when there is nothing to explain, or else why not. */
  lemma BindingMeans(c: Context, rs: set<Record>)
    requires c.operationAt <= c.asOf
    ensures var s, at, binding := c.subject, c.operationAt, Assess(c, rs).binding;
      var stands, disputed := Stands(s, rs, at), OtherBytesPermitted(s, rs, at);
      var ungranted := InForce(s, rs, at) && s.grant !in s.policy.pinned.grants;
      && (binding == PayloadMismatch <==> !stands && disputed)
      && (binding == Match <==> stands || (!disputed && !ungranted && LastWord(s, rs, at, false)))
      && (binding == Unresolved <==> !stands && !disputed && !ungranted && !LastWord(s, rs, at, false))
      && (!disputed && ungranted ==> binding == GrantFailure(s.policy.pinned.grants, s.grant))
  {
    InForceIsBound(c.subject, rs, c.operationAt);
    DisputeMeans(c.subject, rs, c.operationAt);
    LastWordDecides(c.subject, rs, c.operationAt, false);
  }
}
