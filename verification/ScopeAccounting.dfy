/** Accounting for the obligations of a declared scope: from the authenticated sidecars to the
    verdict "met", "not met" or "indeterminate".  What precedes (signatures, bindings, receipt
    timing) enters as flags and as the violations and open points already recorded. */
module ScopeAccounting {
  import opened Wrappers
  import InclusionVerifiers

  datatype Disclosure = Full | Commitment | Unsupported(name: string)
  datatype Notification = Notification(trigger: string, recipient: string, stage: string, deadline: nat)
  const STAGES: set<string> := {"attempted", "transport_accepted", "delivered_endpoint", "human_acknowledged"}

  /** A notification is present exactly for obligations of type "notification_receipt". */
  datatype Obligation = Obligation(id: string, source: string, eventType: string, disclosure: Disclosure,
                                   notification: Option<Notification>)

  datatype Observed = Observed(trigger: string, recipient: string, stage: string, at: Option<nat>)
  /** `valid`: signature, hash, inclusion, index and anchor all check out. */
  datatype Record = Record(source: string, eventType: string, value: string, observed: Observed, valid: bool)
  datatype Proof = Proof(source: string, eventType: string, valid: bool)

  datatype Presentation = Included | Withheld | Unavailable | Unaccounted | NoSuchState
  datatype Entry = Entry(id: string, state: Presentation)
  datatype Manifest = Manifest(entries: seq<Entry>, final: bool, finalizedAt: nat)
  datatype Closure = Closure(closed: bool, closedAt: nat, gaps: seq<string>, sources: set<string>)
  datatype Relation = Relation(rule: string, left: string, right: string)
  datatype CheckState = CheckVerified | CheckFailed | CheckOpen

  /** The declared scope and its sidecars; a sidecar is present once authenticated and bound. */
  datatype Scene = Scene(at: nat, deadline: nat, timeSupported: bool, expected: Option<seq<Obligation>>,
                         individuals: seq<Obligation>, closure: Option<Closure>, manifest: Option<Manifest>,
                         records: map<string, seq<Record>>, proofs: map<string, seq<Proof>>, relations: seq<Relation>,
                         checks: seq<CheckState>, violations: seq<string>, unresolved: seq<string>)
  {
    predicate Closed() { closure.Some? && timeSupported && closure.value.closed && closure.value.closedAt <= at }

    predicate SourceReady() { Closed() && closure.value.gaps == [] }

    predicate SourceClosed(source: string) { SourceReady() && source in closure.value.sources }

    predicate Final() {
      timeSupported && manifest.Some? && manifest.value.final && deadline <= manifest.value.finalizedAt <= at
    }

    function Entries(): seq<Entry> { if manifest.Some? then manifest.value.entries else [] }

    function RecordsOf(id: string): seq<Record> { if id in records then records[id] else [] }

    function ProofsOf(id: string): seq<Proof> { if id in proofs then proofs[id] else [] }
  }

  predicate DistinctIds(os: seq<Obligation>) {
    forall i, j :: 0 <= i < j < |os| ==> os[i].id != os[j].id
  }

  predicate HasEntry(entries: seq<Entry>, id: string) { exists k :: 0 <= k < |entries| && entries[k].id == id }

  function StateOf(entries: seq<Entry>, id: string): Presentation {
    if entries == [] then Unaccounted
    else if entries[0].id == id then entries[0].state
    else StateOf(entries[1..], id)
  }

  // ----- one obligation

  datatype Disposition = Satisfied | Violation | Unresolved

  /** The obligation can be judged at all at this time. */
  predicate Judgeable(s: Scene, o: Obligation) {
    && !o.disclosure.Unsupported?
    && (o.notification.Some? ==>
          o.notification.value.stage in STAGES && s.timeSupported && o.notification.value.deadline <= s.at)
  }

  predicate NotificationMatches(r: Record, n: Notification) {
    && r.observed.trigger == n.trigger && r.observed.recipient == n.recipient && r.observed.stage == n.stage
    && r.observed.at.Some? && r.observed.at.value <= n.deadline
  }

  predicate RecordMatches(r: Record, o: Obligation) {
    && r.source == o.source && r.eventType == o.eventType
    && (o.notification.Some? ==> NotificationMatches(r, o.notification.value))
  }

  /** Exactly one valid record, or for a withheld commitment exactly one valid proof. */
  predicate OneRecord(s: Scene, o: Obligation) { |s.RecordsOf(o.id)| == 1 && s.RecordsOf(o.id)[0].valid }
  predicate OneProof(s: Scene, o: Obligation) { |s.ProofsOf(o.id)| == 1 && s.ProofsOf(o.id)[0].valid }

  predicate AllValid(records: seq<Record>) { forall i :: 0 <= i < |records| ==> records[i].valid }

  predicate Fulfilled(s: Scene, o: Obligation) {
    Judgeable(s, o) &&
    match StateOf(s.Entries(), o.id)
    case Included => OneRecord(s, o) && RecordMatches(s.RecordsOf(o.id)[0], o)
    case Withheld => && o.disclosure == Commitment && s.RecordsOf(o.id) == [] && OneProof(s, o)
                     && s.ProofsOf(o.id)[0].source == o.source && s.ProofsOf(o.id)[0].eventType == o.eventType
    case _ => false
  }

  /** Nothing was delivered, and for a notification the source is known to be closed. */
  predicate Missing(s: Scene, o: Obligation) {
    s.Final() && s.RecordsOf(o.id) == [] && (o.notification.Some? ==> s.SourceClosed(o.source))
  }

  predicate Violated(s: Scene, o: Obligation) {
    Judgeable(s, o) &&
    match StateOf(s.Entries(), o.id)
    case Included => || (OneRecord(s, o) && !RecordMatches(s.RecordsOf(o.id)[0], o))
                     || (|s.RecordsOf(o.id)| > 1 && AllValid(s.RecordsOf(o.id)) && s.Final())
                     || Missing(s, o)
    case Withheld => s.RecordsOf(o.id) == [] &&
                     if o.disclosure == Full then s.Final()
                     else && OneProof(s, o)
                          && (s.ProofsOf(o.id)[0].source != o.source || s.ProofsOf(o.id)[0].eventType != o.eventType)
    case Unavailable => s.RecordsOf(o.id) == [] && o.disclosure == Full && s.Final()
    case Unaccounted => Missing(s, o)
    case NoSuchState => false
  }

  function DispositionOf(s: Scene, o: Obligation): Disposition {
    if Fulfilled(s, o) then Satisfied else if Violated(s, o) then Violation else Unresolved
  }

  /** The branches on one obligation, with the code of the entry they leave behind. */
  method Judge(s: Scene, o: Obligation, state: Presentation) returns (d: Disposition, code: string)
    requires state == StateOf(s.Entries(), o.id) && state != NoSuchState
    ensures d == DispositionOf(s, o)
  {
    var records, full := s.RecordsOf(o.id), o.disclosure == Full;
    if o.notification.Some? {
      if o.notification.value.stage !in STAGES { return Unresolved, "notification_stage_unsupported"; }
      if !s.timeSupported || o.notification.value.deadline > s.at { return Unresolved, "notification_pending"; }
    }
    if o.disclosure.Unsupported? { return Unresolved, "disclosure_unsupported"; }
    if state != Included && records != [] { return Unresolved, "manifest_disposition_conflict"; }
    if state in {Withheld, Unavailable} && full && s.Final() {
      return Violation, if state == Withheld then "required_evidence_withheld" else "required_evidence_unavailable";
    }
    if state == Withheld && !full {
      var proofs := s.ProofsOf(o.id);
      if |proofs| != 1 || !proofs[0].valid { return Unresolved, "commitment_unverified"; }
      if proofs[0].source == o.source && proofs[0].eventType == o.eventType { return Satisfied, ""; }
      return Violation, "commitment_type_mismatch";
    }
    if state == Included {
      d, code := JudgeIncluded(s, o, records);
    } else if state == Unaccounted && s.Final() {
      if o.notification.Some? && !s.SourceClosed(o.source) { return Unresolved, "notification_evidence_unclosed"; }
      return Violation, "missing_delivery";
    } else {
      return Unresolved, "delivery_unresolved";
    }
  }

  method JudgeIncluded(s: Scene, o: Obligation, records: seq<Record>) returns (d: Disposition, code: string)
    requires records == s.RecordsOf(o.id) && StateOf(s.Entries(), o.id) == Included && Judgeable(s, o)
    ensures d == DispositionOf(s, o)
  {
    if |records| == 1 && AllValid(records) {
      var record := records[0];
      if record.source != o.source || record.eventType != o.eventType { return Violation, "record_type_mismatch"; }
      if o.notification.Some? && !NotificationMatches(record, o.notification.value) {
        return Violation, "notification_receipt_mismatch";
      }
      return Satisfied, "";
    } else if |records| > 1 && AllValid(records) && s.Final() {
      return Violation, "duplicate_delivery";
    } else if records == [] && s.Final() {
      if o.notification.Some? && !s.SourceClosed(o.source) { return Unresolved, "notification_evidence_unclosed"; }
      return Violation, "missing_delivery";
    } else {
      return Unresolved, "included_record_unverified";
    }
  }

  // ----- which obligations there are

  /** Pinned individual obligations apply besides the inventory; None: two of them conflict. */
  method Combine(expected: seq<Obligation>, individuals: seq<Obligation>) returns (all: Option<seq<Obligation>>)
    requires DistinctIds(expected) && DistinctIds(individuals)
    ensures all.None? <==> exists o, p :: o in expected && p in individuals && o.id == p.id && o != p
    ensures all.Some? ==> DistinctIds(all.value) && forall o :: o in all.value <==> o in expected || o in individuals
  {
    var combined := expected;
    for i := 0 to |individuals|
      invariant DistinctIds(combined)
      invariant forall o :: o in combined <==> o in expected || o in individuals[..i]
      invariant forall o, p :: o in expected && p in individuals[..i] && o.id == p.id ==> o == p
    {
      var item := individuals[i];
      assert individuals[..i + 1] == individuals[..i] + [item];
      assert item in individuals;
      forall p | p in individuals[..i] ensures p.id != item.id { }
      if same :| 0 <= same < |combined| && combined[same].id == item.id {
        var found := combined[same];
        assert found in combined && found in expected;
        if found != item { return None; }
      } else {
        forall o | o in expected ensures o.id != item.id {
          assert o in combined;
          var k :| 0 <= k < |combined| && combined[k] == o;
          assert combined[k].id != item.id;
        }
        combined := combined + [item];
      }
    }
    assert individuals[..|individuals|] == individuals;
    return Some(combined);
  }

  // ----- the report

  datatype Verdict = Met | NotMet | Indeterminate
  datatype Report = Report(result: Verdict, expected: Option<nat>, satisfied: nat, accounted: bool,
                           states: map<Presentation, nat>, violations: seq<string>, unresolved: seq<string>)

  function Count<T(==)>(xs: seq<T>, x: T): nat {
    if xs == [] then 0 else Count(xs[..|xs| - 1], x) + (if xs[|xs| - 1] == x then 1 else 0)
  }

  function Dispositions(s: Scene, os: seq<Obligation>): (ds: seq<Disposition>)
    ensures |ds| == |os| && forall i :: 0 <= i < |os| ==> ds[i] == DispositionOf(s, os[i])
  {
    seq(|os|, i requires 0 <= i < |os| => DispositionOf(s, os[i]))
  }

  function States(s: Scene, os: seq<Obligation>): (xs: seq<Presentation>)
    ensures |xs| == |os| && forall i :: 0 <= i < |os| ==> xs[i] == StateOf(s.Entries(), os[i].id)
  {
    seq(|os|, i requires 0 <= i < |os| => StateOf(s.Entries(), os[i].id))
  }

  /** One relationship between two obligations' records. */
  function RelationOf(s: Scene, r: Relation): Disposition {
    if r.rule != "payload-value-equality-v1" then Unresolved
    else
      var left, right := s.RecordsOf(r.left), s.RecordsOf(r.right);
      if |left| == 1 && |right| == 1 && left[0].valid && right[0].valid
      then (if left[0].value == right[0].value then Satisfied else Violation)
      else Unresolved
  }

  function RelationsOf(s: Scene): (ds: seq<Disposition>)
    ensures |ds| == |s.relations| && forall i :: 0 <= i < |ds| ==> ds[i] == RelationOf(s, s.relations[i])
  {
    seq(|s.relations|, i requires 0 <= i < |s.relations| => RelationOf(s, s.relations[i]))
  }

  /** A list of check results is verified when it is not empty and every one is. */
  predicate AllVerified(checks: seq<CheckState>) {
    checks != [] && forall i :: 0 <= i < |checks| ==> checks[i] == CheckVerified
  }

  /** Open points about the sidecars themselves. */
  function OpenSidecars(s: Scene): nat {
    (if s.expected.None? then 1 else 0) + (if !s.SourceReady() then 1 else 0)
    + (if s.manifest.None? then 1 else 0) + (if !s.Final() then 1 else 0)
  }

  /** The report is exactly the books over these obligations. */
  ghost predicate Accounts(s: Scene, os: seq<Obligation>, r: Report) {
    var ds, rs := Dispositions(s, os), RelationsOf(s);
    && r.satisfied == Count(ds, Satisfied)
    && |r.violations| == |s.violations| + Count(ds, Violation) + Count(rs, Violation)
    && |r.unresolved| == |s.unresolved| + OpenSidecars(s) + Count(ds, Unresolved) + Count(rs, Unresolved)
                         + (if AllVerified(s.checks) then 0 else 1)
    && r.expected == (if s.expected.Some? then Some(|os|) else None)
    && (r.accounted <==> && s.expected.Some? && s.manifest.Some?
                         && forall i :: 0 <= i < |os| ==> HasEntry(s.Entries(), os[i].id))
    && (forall x :: Counted(r.states, x) == Count(States(s, os), x))
    && r.result == if r.violations != [] then NotMet else if r.unresolved != [] then Indeterminate else Met
  }

  function Counted(states: map<Presentation, nat>, x: Presentation): nat {
    if x in states then states[x] else 0
  }

  lemma CountLonger<T>(xs: seq<T>, x: T)
    ensures forall y :: Count(xs + [x], y) == Count(xs, y) + if x == y then 1 else 0
  {
  }

  predicate DistinctEntries(entries: seq<Entry>) {
    forall i, j :: 0 <= i < j < |entries| ==> entries[i].id != entries[j].id
  }

  method JudgeAll(s: Scene, os: seq<Obligation>)
    returns (ok: bool, satisfied: nat, accounted: bool, states: map<Presentation, nat>, violations: seq<string>,
             unresolved: seq<string>)
    ensures ok <==> NoSuchState !in States(s, os)
    ensures ok ==>
      && satisfied == Count(Dispositions(s, os), Satisfied) && |violations| == Count(Dispositions(s, os), Violation)
      && |unresolved| == Count(Dispositions(s, os), Unresolved)
      && (accounted <==> forall i :: 0 <= i < |os| ==> HasEntry(s.Entries(), os[i].id))
      && forall x :: Counted(states, x) == Count(States(s, os), x)
  {
    satisfied, accounted, states, violations, unresolved := 0, true, map[], [], [];
    ghost var ds, xs := Dispositions(s, os), States(s, os);
    for i := 0 to |os|
      invariant NoSuchState !in xs[..i]
      invariant Marks(ds[..i], satisfied, |violations|, |unresolved|)
      invariant accounted <==> forall k :: 0 <= k < i ==> HasEntry(s.Entries(), os[k].id)
      invariant Tallies(states, xs[..i])
    {
      var o := os[i];
      var state := StateOf(s.Entries(), o.id);
      assert state == xs[i] && xs[..i + 1] == xs[..i] + [state];
      if state == NoSuchState { return false, 0, false, map[], [], []; }
      TallyLonger(states, xs[..i], state);
      states := states[state := Counted(states, state) + 1];
      accounted := accounted && HasEntry(s.Entries(), o.id);
      var d, code := Judge(s, o, state);
      assert ds[..i + 1] == ds[..i] + [d];
      MarksLonger(ds[..i], d, satisfied, |violations|, |unresolved|);
      assert d == DispositionOf(s, o) == ds[i];
      match d {
        case Satisfied => satisfied := satisfied + 1;
        case Violation => violations := violations + [code];
        case Unresolved => unresolved := unresolved + [code];
      }
    }
    assert ds[..|os|] == ds && xs[..|os|] == xs;
    ok := true;
  }

  ghost predicate Marks(ds: seq<Disposition>, satisfied: nat, violations: nat, unresolved: nat) {
    satisfied == Count(ds, Satisfied) && violations == Count(ds, Violation) && unresolved == Count(ds, Unresolved)
  }

  lemma MarksLonger(ds: seq<Disposition>, d: Disposition, satisfied: nat, violations: nat, unresolved: nat)
    requires Marks(ds, satisfied, violations, unresolved)
    ensures Marks(ds + [d], if d == Satisfied then satisfied + 1 else satisfied,
                  if d == Violation then violations + 1 else violations, if d == Unresolved then unresolved + 1
                  else unresolved)
  {
  }

  ghost predicate Tallies(states: map<Presentation, nat>, xs: seq<Presentation>) {
    forall x :: Counted(states, x) == Count(xs, x)
  }

  lemma TallyLonger(states: map<Presentation, nat>, xs: seq<Presentation>, x: Presentation)
    requires Tallies(states, xs)
    ensures Tallies(states[x := Counted(states, x) + 1], xs + [x])
  {
    CountLonger(xs, x);
  }

  method CompareRelations(s: Scene) returns (violations: seq<string>, unresolved: seq<string>)
    ensures |violations| == Count(RelationsOf(s), Violation) && |unresolved| == Count(RelationsOf(s), Unresolved)
  {
    violations, unresolved := [], [];
    ghost var all := RelationsOf(s);
    for i := 0 to |s.relations|
      invariant |violations| == Count(all[..i], Violation) && |unresolved| == Count(all[..i], Unresolved)
    {
      var relation := s.relations[i];
      CountLonger(all[..i], all[i]);
      assert all[..i + 1] == all[..i] + [all[i]];
      if relation.rule != "payload-value-equality-v1" {
        unresolved := unresolved + ["relationship_unsupported"];
      } else {
        var left, right := s.RecordsOf(relation.left), s.RecordsOf(relation.right);
        if |left| == 1 && |right| == 1 && AllValid(left) && AllValid(right) {
          if left[0].value != right[0].value { violations := violations + ["source_disagreement"]; }
        } else {
          unresolved := unresolved + ["relationship_unverified"];
        }
      }
    }
    assert all[..|s.relations|] == all;
  }

  method OpenPoints(s: Scene) returns (open: seq<string>)
    ensures |open| == OpenSidecars(s)
  {
    open := [];
    if s.expected.None? { open := open + ["expected_set_unknown"]; }
    if !s.Closed() {
      open := open + ["source_unclosed"];
    } else if s.closure.value.gaps != [] {
      open := open + ["observation_gap"];
    }
    if s.manifest.None? { open := open + ["manifest_unknown"]; }
    if !s.Final() { open := open + ["delivery_pending"]; }
  }

  function Inventory(s: Scene): seq<Obligation> { if s.expected.Some? then s.expected.value else [] }

  /** Ids are distinct within each list, and one id never names two different obligations. */
  ghost predicate Consistent(s: Scene) {
    && DistinctIds(s.individuals) && DistinctIds(Inventory(s)) && DistinctEntries(s.Entries())
    && forall o, p :: o in Inventory(s) && p in s.individuals && o.id == p.id ==> o == p
  }

  /** None: the input is rejected.  `os` are the obligations that the report is about. */
  method Account(s: Scene) returns (r: Option<Report>, os: seq<Obligation>)
    ensures r.Some? <==> Consistent(s) && |os| <= InclusionVerifiers.MAX_ITEMS && NoSuchState !in States(s, os)
    ensures Consistent(s) ==> DistinctIds(os) && forall o :: o in os <==> o in Inventory(s) || o in s.individuals
    ensures r.Some? ==> Accounts(s, os, r.value)
  {
    r, os := None, [];
    if !DistinctIds(s.individuals) || !DistinctIds(Inventory(s)) || !DistinctEntries(s.Entries()) { return; }
    var open := OpenPoints(s);
    var combined := Combine(Inventory(s), s.individuals);
    if combined.None? { return; }
    os := combined.value;
    if |os| > InclusionVerifiers.MAX_ITEMS { return; }
    var ok, satisfied, accounted, states, violations, unresolved := JudgeAll(s, os);
    if !ok { return; }
    var disagreements, uncompared := CompareRelations(s);
    var findings := s.violations + violations + disagreements;
    var unknowns := s.unresolved + open + unresolved + uncompared;
    if !AllVerified(s.checks) { unknowns := unknowns + ["cryptographic_prerequisite"]; }
    r := Some(Report(if findings != [] then NotMet else if unknowns != [] then Indeterminate else Met,
                     if s.expected.Some? then Some(|os|) else None, satisfied,
                     s.expected.Some? && s.manifest.Some? && accounted, states, findings, unknowns));
  }

  // ----- what the books promise

  lemma {:induction false} CountsAddUp(ds: seq<Disposition>)
    ensures Count(ds, Satisfied) + Count(ds, Violation) + Count(ds, Unresolved) == |ds|
  {
    if ds != [] {
      CountsAddUp(ds[..|ds| - 1]);
      match ds[|ds| - 1] case Satisfied => case Violation => case Unresolved =>
    }
  }

  lemma {:induction false} StatesAddUp(xs: seq<Presentation>)
    ensures Count(xs, Included) + Count(xs, Withheld) + Count(xs, Unavailable) + Count(xs, Unaccounted)
            + Count(xs, NoSuchState) == |xs|
  {
    if xs != [] {
      StatesAddUp(xs[..|xs| - 1]);
      match xs[|xs| - 1] case Included => case Withheld => case Unavailable => case Unaccounted => case NoSuchState =>
    }
  }

  lemma {:induction false} CountZero<T>(xs: seq<T>, x: T)
    ensures Count(xs, x) == 0 <==> x !in xs
  {
    if xs != [] {
      CountZero(xs[..|xs| - 1], x);
      assert xs == xs[..|xs| - 1] + [xs[|xs| - 1]];
    }
  }

  /** Every obligation leaves exactly one mark, and the presentation states add up. */
  lemma EveryObligationCountsOnce(s: Scene, os: seq<Obligation>, r: Report)
    requires Accounts(s, os, r) && NoSuchState !in States(s, os)
    ensures r.satisfied + Count(Dispositions(s, os), Violation) + Count(Dispositions(s, os), Unresolved) == |os|
    ensures Counted(r.states, Included) + Counted(r.states, Withheld) + Counted(r.states, Unavailable)
            + Counted(r.states, Unaccounted) == |os|
  {
    CountsAddUp(Dispositions(s, os));
    StatesAddUp(States(s, os));
    CountZero(States(s, os), NoSuchState);
  }

  /** Everything besides the obligations themselves that "met" needs. */
  predicate NothingElseOpen(s: Scene) {
    && s.violations == [] && s.unresolved == [] && s.expected.Some? && s.SourceReady() && s.Final()
    && AllVerified(s.checks)
    && forall i :: 0 <= i < |s.relations| ==> RelationOf(s, s.relations[i]) == Satisfied
  }

  /** "met" exactly when every single obligation is fulfilled and nothing else is open. */
  lemma MetExactly(s: Scene, os: seq<Obligation>, r: Report)
    requires Accounts(s, os, r)
    ensures r.result == Met <==> NothingElseOpen(s) && forall i :: 0 <= i < |os| ==> Fulfilled(s, os[i])
  {
    var ds, rs := Dispositions(s, os), RelationsOf(s);
    CountZero(ds, Violation);
    CountZero(ds, Unresolved);
    CountZero(rs, Violation);
    CountZero(rs, Unresolved);
    AllSatisfied(ds);
    AllSatisfied(rs);
    assert (forall i :: 0 <= i < |os| ==> Fulfilled(s, os[i])) <==> (forall i :: 0 <= i < |ds| ==> ds[i] == Satisfied);
    assert (forall i :: 0 <= i < |rs| ==> RelationOf(s, s.relations[i]) == Satisfied) <==>
        (forall i :: 0 <= i < |rs| ==> rs[i] == Satisfied);
  }

  lemma AllSatisfied(ds: seq<Disposition>)
    ensures Violation !in ds && Unresolved !in ds <==> forall i :: 0 <= i < |ds| ==> ds[i] == Satisfied
  {
  }

  /** "met" leaves no obligation out: as many satisfied as expected, all in the manifest, and
      each with exactly one authentic record or commitment proof of the required kind. */
  lemma MetLeavesNothingOut(s: Scene, os: seq<Obligation>, r: Report)
    requires Accounts(s, os, r) && r.result == Met
    ensures r.expected == Some(|os|) && r.satisfied == |os| && r.accounted
    ensures forall i :: 0 <= i < |os| ==>
              || (OneRecord(s, os[i]) && s.RecordsOf(os[i].id)[0].source == os[i].source)
              || (s.RecordsOf(os[i].id) == [] && OneProof(s, os[i]) && s.ProofsOf(os[i].id)[0].source == os[i].source)
  {
    MetExactly(s, os, r);
    CountsAddUp(Dispositions(s, os));
    forall i | 0 <= i < |os| ensures HasEntry(s.Entries(), os[i].id) {
      assert Fulfilled(s, os[i]);
      NoEntryNoState(s.Entries(), os[i].id);
    }
  }

  lemma {:induction false} NoEntryNoState(entries: seq<Entry>, id: string)
    ensures !HasEntry(entries, id) ==> StateOf(entries, id) == Unaccounted
  {
    if entries != [] {
      NoEntryNoState(entries[1..], id);
      assert HasEntry(entries[1..], id) ==> HasEntry(entries, id) by {
        if k :| 0 <= k < |entries| - 1 && entries[1..][k].id == id { assert entries[k + 1].id == id; }
      }
      assert entries[0].id == id ==> HasEntry(entries, id);
    }
  }

  // ----- the same in plain records and dates

  /** The manifest's word on an obligation is that of its one entry, if it has one. */
  lemma StateIsShown(entries: seq<Entry>, k: nat)
    requires DistinctEntries(entries) && k < |entries|
    ensures StateOf(entries, entries[k].id) == entries[k].state
  {
    if k > 0 {
      assert entries[0].id != entries[k].id;
      StateIsShown(entries[1..], k - 1);
    }
  }

  /** When a delivery is over, and when a source has nothing more to say. */
  lemma OverWhen(s: Scene, source: string)
    ensures s.Final() <==>
      && s.timeSupported && s.manifest.Some? && s.manifest.value.final
      && s.deadline <= s.manifest.value.finalizedAt && s.manifest.value.finalizedAt <= s.at
    ensures s.SourceClosed(source) <==>
      && s.timeSupported && s.closure.Some? && s.closure.value.closed && s.closure.value.closedAt <= s.at
      && s.closure.value.gaps == [] && source in s.closure.value.sources
  {
  }

  /** The obligation demands something that can be judged, and a notification is due. */
  predicate Due(s: Scene, o: Obligation) {
    && (o.disclosure == Full || o.disclosure == Commitment)
    && (o.notification.Some? ==>
          var n := o.notification.value;
          && s.timeSupported && n.deadline <= s.at
          && (n.stage == "attempted" || n.stage == "transport_accepted" || n.stage == "delivered_endpoint"
              || n.stage == "human_acknowledged"))
  }

  /** The record is what the obligation asks for, and a notification came in time. */
  predicate Serves(r: Record, o: Obligation) {
    && r.source == o.source && r.eventType == o.eventType
    && (o.notification.Some? ==>
          var n := o.notification.value;
          && r.observed == Observed(n.trigger, n.recipient, n.stage, r.observed.at)
          && r.observed.at.Some? && r.observed.at.value <= n.deadline)
  }

  /** An obligation is fulfilled exactly by the one valid record it asks for, shown as included,
      or, where a commitment will do, by the one valid proof of it, shown as withheld. */
  lemma FulfilledWhen(s: Scene, o: Obligation)
    ensures var state, records, proofs := StateOf(s.Entries(), o.id), s.RecordsOf(o.id), s.ProofsOf(o.id);
      Fulfilled(s, o) <==>
        && Due(s, o)
        && (|| (state == Included && |records| == 1 && records[0].valid && Serves(records[0], o))
            || (state == Withheld && o.disclosure == Commitment && |records| == 0
                && proofs == [Proof(o.source, o.eventType, true)]))
  {
  }

  /** An obligation is violated exactly by one valid but wrong record or proof, or, once the
      delivery is over, by valid repetitions, by withholding what has to be disclosed in full, or
      by silence, which for a notification has to be its closed source's. */
  lemma ViolatedWhen(s: Scene, o: Obligation)
    ensures var state, records, proofs := StateOf(s.Entries(), o.id), s.RecordsOf(o.id), s.ProofsOf(o.id);
      var silent := s.Final() && |records| == 0 && (o.notification.Some? ==> s.SourceClosed(o.source));
      Violated(s, o) <==>
        && Due(s, o)
        && (|| (state == Included && |records| == 1 && records[0].valid && !Serves(records[0], o))
            || (state == Included && |records| > 1 && s.Final() && forall i :: 0 <= i < |records| ==> records[i].valid)
            || ((state == Included || state == Unaccounted) && silent)
            || ((state == Withheld || state == Unavailable) && o.disclosure == Full && |records| == 0 && s.Final())
            || (state == Withheld && o.disclosure == Commitment && |records| == 0 && |proofs| == 1 && proofs[0].valid
                && proofs[0] != Proof(o.source, o.eventType, true)))
    ensures !(Fulfilled(s, o) && Violated(s, o))
  {
  }

  /** Two records related by equality agree or disagree exactly when each side is one valid record. */
  lemma RelationWhen(s: Scene, r: Relation)
    ensures var left, right := s.RecordsOf(r.left), s.RecordsOf(r.right);
      var comparable := && r.rule == "payload-value-equality-v1" && |left| == 1 && |right| == 1
                        && left[0].valid && right[0].valid;
      && (RelationOf(s, r) == Satisfied <==> comparable && left[0].value == right[0].value)
      && (RelationOf(s, r) == Violation <==> comparable && left[0].value != right[0].value)
  {
  }

  /** "met" needs the inventory, a closed source without gaps, a final manifest, every check
      verified, every relation in agreement, and nothing recorded against it. */
  lemma NothingElseOpenWhen(s: Scene)
    ensures NothingElseOpen(s) <==>
      && s.violations == [] && s.unresolved == [] && s.expected.Some? && s.Final()
      && s.closure.Some? && s.closure.value.closed && s.closure.value.closedAt <= s.at && s.closure.value.gaps == []
      && |s.checks| > 0 && (forall i :: 0 <= i < |s.checks| ==> s.checks[i] == CheckVerified)
      && forall i :: 0 <= i < |s.relations| ==> RelationOf(s, s.relations[i]) == Satisfied
  {
  }

  /** "not met" exactly when something was recorded, an obligation is violated or related records
      disagree; whatever else is missing only leaves the report indeterminate. */
  lemma NotMetExactly(s: Scene, os: seq<Obligation>, r: Report)
    requires Accounts(s, os, r)
    ensures r.result == NotMet <==>
      || s.violations != [] || (exists i :: 0 <= i < |os| && Violated(s, os[i]))
      || exists i :: 0 <= i < |s.relations| && RelationOf(s, s.relations[i]) == Violation
  {
    var ds, rs := Dispositions(s, os), RelationsOf(s);
    CountZero(ds, Violation);
    CountZero(rs, Violation);
    forall i | 0 <= i < |os| ensures ds[i] == Violation <==> Violated(s, os[i]) { ViolatedWhen(s, os[i]); }
    assert Violation in ds <==> exists i :: 0 <= i < |os| && Violated(s, os[i]) by {
      if Violation in ds {
        var i :| 0 <= i < |ds| && ds[i] == Violation;
        assert Violated(s, os[i]);
      }
      if i :| 0 <= i < |os| && Violated(s, os[i]) { assert ds[i] == Violation; }
    }
    assert Violation in rs <==> exists i :: 0 <= i < |s.relations| && RelationOf(s, s.relations[i]) == Violation by {
      if i :| 0 <= i < |s.relations| && RelationOf(s, s.relations[i]) == Violation { assert rs[i] == Violation; }
    }
  }

  /** The rest of the report: how many obligations are expected, if the inventory is known, and
      whether the manifest has an entry for each of them. */
  lemma AccountedWhen(s: Scene, os: seq<Obligation>, r: Report)
    requires Accounts(s, os, r)
    ensures r.expected == if s.expected.None? then None else Some(|os|)
    ensures r.accounted <==>
      && s.expected.Some? && s.manifest.Some?
      && forall o :: o in os ==> exists e :: e in s.manifest.value.entries && e.id == o.id
    ensures r.result == Indeterminate <==> r.violations == [] && r.unresolved != []
  {
    if s.manifest.Some? {
      var entries := s.manifest.value.entries;
      forall o: Obligation ensures HasEntry(entries, o.id) <==> exists e :: e in entries && e.id == o.id {
        if e :| e in entries && e.id == o.id {
          var k :| 0 <= k < |entries| && entries[k] == e;
        }
        if k :| 0 <= k < |entries| && entries[k].id == o.id { assert entries[k] in entries; }
      }
    }
  }

  /** An input is consistent exactly when no id is listed twice and no id means two things. */
  lemma ConsistentWhen(s: Scene)
    ensures Consistent(s) <==>
      && (forall i, j :: 0 <= i < |s.individuals| && 0 <= j < |s.individuals| && i != j ==>
            s.individuals[i].id != s.individuals[j].id)
      && (s.expected.Some? ==> forall i, j :: 0 <= i < |s.expected.value| && 0 <= j < |s.expected.value| && i != j ==>
            s.expected.value[i].id != s.expected.value[j].id)
      && (s.manifest.Some? ==>
            var entries := s.manifest.value.entries;
            forall i, j :: 0 <= i < |entries| && 0 <= j < |entries| && i != j ==> entries[i].id != entries[j].id)
      && (s.expected.Some? ==>
            forall o, p :: o in s.expected.value && p in s.individuals && o != p ==> o.id != p.id)
  {
  }
}
