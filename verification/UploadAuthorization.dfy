/** The upload gate with the transfer assessor behind it: the permits that the gate compares are
    the ones the assessor's verdicts rest on. */
module UploadAuthorization {
  import opened Wrappers
  import opened TransferAssessment
  import UploadGate

  /** Initial inputs may contain policies and decisions only. */
  predicate AuthorityOnly(records: seq<Record>) {
    forall i :: 0 <= i < |records| ==> records[i].body.Policy? || records[i].body.Decision?
  }

  /** The gateway's own record of a check that found the collector up and its receipt durable. */
  function GoodCheck(s: Subject, id: string, at: int): Record {
    Record(id, at, s, Health(at, true, true))
  }

  /** The permit that a frame's assessment rests on.  While the collector is still unchecked the
      assessment has to ask for review, and afterwards it has to allow. */
  ghost predicate RestsOnPermit(s: Subject, rs: set<Record>, at: int, d: Record) {
    s.policy.pinned.requireCollector && PermitStands(s, rs, at) && LatestDecision(s, rs, d, at) && d.body.permit
  }

  method Authorize(c: Context, records: seq<Record>, pending: bool) returns (permit: Option<Record>)
    requires c.operationAt == c.asOf
    ensures permit.Some? ==> RestsOnPermit(c.subject, Elements(records), c.asOf, permit.value)
    ensures permit.Some? ==> forall q :: LatestDecision(c.subject, Elements(records), q, c.asOf) ==>
              !StringLess(q.id, permit.value.id)
    ensures permit.Some? <==>
              && c.subject.policy.pinned.requireCollector && PermitStands(c.subject, Elements(records), c.asOf)
              && Assess(c, Elements(records)).authorization == (if pending then REVIEW else ALLOW)
              && Assess(c, Elements(records)).proposed == (if pending then REVIEW else ALLOW)
              && Assess(c, Elements(records)).health == (if pending then HealthUnknown else AvailableDurable)
  {
    var a := Evaluate(c, records);
    var expected := if pending then REVIEW else ALLOW;
    if a.authorization != expected || a.proposed != expected || a.binding != Match || !a.policyBound
       || a.health != (if pending then HealthUnknown else AvailableDurable) {
      return None;
    }
    MatchRestsOnPermit(c, Elements(records));
    var selected := SelectDecision(c, records, c.operationAt);
    AuthorityIsConsistent(c.subject, Elements(records), c.operationAt);
    if !c.subject.policy.pinned.requireCollector || !selected.record.body.permit { return None; }
    return Some(selected.record);
  }

  /** A matching binding without a denial comes from a permit that stands. */
  lemma MatchRestsOnPermit(c: Context, rs: set<Record>)
    requires c.operationAt <= c.asOf && Assess(c, rs).binding == Match && Assess(c, rs).proposed != DENY
    ensures PermitStands(c.subject, rs, c.operationAt)
  {
  }

  // ----- what a gate's own check adds

  lemma CheckChangesNoAuthority(s: Subject, rs: set<Record>, check: Record, at: int)
    requires check.body.Health?
    ensures forall d :: LatestDecision(s, rs + {check}, d, at) <==> LatestDecision(s, rs, d, at)
    ensures PermitStands(s, rs + {check}, at) <==> PermitStands(s, rs, at)
  {
    var more := rs + {check};
    assert forall r :: r in rs ==> r in more;
    forall d ensures LatestDecision(s, more, d, at) <==> LatestDecision(s, rs, d, at) {
      assert forall q :: CurrentDecision(s, q, at) ==> (q in more <==> q in rs);
    }
    assert Decided(s, more, at, true) <==> Decided(s, rs, at, true);
    assert HasPolicy(s, more, at) <==> HasPolicy(s, rs, at) by {
      if r :| r in more && CurrentPolicy(s, r, at) { assert r in rs; }
      if r :| r in rs && CurrentPolicy(s, r, at) { assert r in more; }
    }
  }

  /** With a good check at the time, policies and decisions allow exactly when a permit stands. */
  lemma GoodCheckAllows(s: Subject, records: seq<Record>, id: string, at: int, managed: bool)
    requires AuthorityOnly(records) && s.policy.pinned.requireCollector
    ensures var rs := Elements(records) + {GoodCheck(s, id, at)};
            var a := Assess(Context(s, at, at, managed), rs);
            && (a.authorization == ALLOW <==> PermitStands(s, Elements(records), at))
            && (a.authorization == ALLOW ==> a.proposed == ALLOW && a.health == AvailableDurable)
  {
    var check := GoodCheck(s, id, at);
    var rs := Elements(records) + {check};
    var c := Context(s, at, at, managed);
    CheckChangesNoAuthority(s, Elements(records), check, at);
    AuthorityIsConsistent(s, rs, at);
    assert HealthCheck(s, check, at, at) && check in rs;
    forall r | r in rs ensures !Action(c, r) && (r.body.Health? ==> r == check) {
      if r in Elements(records) {
        var i :| 0 <= i < |records| && records[i] == r;
      }
    }
    AllowsExactly(c, rs);
    NeverUpgraded(c, rs);
  }

  /** Without any check, they ask for review exactly when a permit stands, and never allow. */
  lemma NoCheckReviews(s: Subject, records: seq<Record>, at: int, managed: bool)
    requires AuthorityOnly(records) && s.policy.pinned.requireCollector && PermitStands(s, Elements(records), at)
    ensures var a := Assess(Context(s, at, at, managed), Elements(records));
            a.authorization == REVIEW && a.proposed == REVIEW && a.health == HealthUnknown
  {
    var rs, c := Elements(records), Context(s, at, at, managed);
    AuthorityIsConsistent(s, rs, at);
    forall r | r in rs ensures !Action(c, r) && !r.body.Health? {
      var i :| 0 <= i < |records| && records[i] == r;
    }
  }

  // ----- the composed gate

  function Named(digest: Record -> string, permit: Option<Record>): Option<string> {
    if permit.Some? then Some(digest(permit.value)) else None
  }

  /** The subject is the target's, and the caller's records are policies and decisions. */
  method ExecuteAssessed(cfg: UploadGate.Config, t: UploadGate.Target, env: UploadGate.Environment, s: Subject,
                         records: seq<Record>, checkId: string, digest: Record -> string, managed: bool)
    returns (r: UploadGate.Report)
    requires AuthorityOnly(records)
    ensures r.attempted ==> SendAllowed(env, s, records, checkId, digest, managed, r)
    ensures r.attempted ==> s.policy.pinned.requireCollector
  {
    var admission := Authorize(Context(s, env.at, env.at, managed), records, true);
    var check := GoodCheck(s, checkId, env.finalAt);
    var final := Authorize(Context(s, env.finalAt, env.finalAt, managed), records + [check], false);
    assert Elements(records + [check]) == Elements(records) + {check};
    var assessed := env.(permit := Named(digest, admission), finalPermit := Named(digest, final));
    r := UploadGate.Execute(cfg, t, assessed);
    if r.attempted {
      CheckChangesNoAuthority(s, Elements(records), check, env.finalAt);
      assert r.intent == Some(cfg.IntentFor(t, assessed));
      assert CollectedPermit(s, records, env.at, digest, r, admission.value);
      assert CollectedPermit(s, records, env.finalAt, digest, r, final.value);
    }
  }

  /** The permit named in the collected intent is one that stands as the latest word. */
  ghost predicate CollectedPermit(s: Subject, records: seq<Record>, at: int, digest: Record -> string,
                                  r: UploadGate.Report, d: Record)
  {
    && PermitStands(s, Elements(records), at) && LatestDecision(s, Elements(records), d, at) && d.body.permit
    && r.intent.Some? && digest(d) == r.intent.value.permit
  }

  /** At the final time the assessor allows on the gate's own check of the collector, and the
      permit it rests on is the one collected at admission, which stood then too. */
  ghost predicate SendAllowed(env: UploadGate.Environment, s: Subject, records: seq<Record>, checkId: string,
                              digest: Record -> string, managed: bool, r: UploadGate.Report)
  {
    && Assess(Context(s, env.finalAt, env.finalAt, managed),
              Elements(records) + {GoodCheck(s, checkId, env.finalAt)}).authorization == ALLOW
    && (exists d :: CollectedPermit(s, records, env.at, digest, r, d))
    && (exists d :: CollectedPermit(s, records, env.finalAt, digest, r, d))
  }
}
