/** One-shot local erasure: the provider's `delete` procedure with all its exits, and the
    offline checker that later reads its result.  Everything outside the procedure's control
    (clock readings, measurements, journal replies, failing calls) is a parameter. */
module ErasureProvider {
  import opened Wrappers

  datatype Measurement = Absent | Present(sha256: string, byteLength: nat)
  datatype Manifest = Manifest(provider: string, tenant: string, objectId: string, versionId: string, sha256: string,
                               byteLength: nat)

  /** `genuine`: shape, signatures and bindings of request and authorization check out.  A
      digest of an erasure task is modelled by its value. */
  datatype Task = Task(requestId: string, evaluationId: string, requestRecordId: string, manifest: Manifest,
                       requestedAt: int, validUntil: int, genuine: bool)

  datatype Key = Key(notBefore: int, notAfter: int)
  datatype Pins = Pins(requester: Key, provider: Key)

  predicate KeyValid(k: Key, at: int) { k.notBefore <= at < k.notAfter }

  /** The erasure task authorizes an action at this time. */
  predicate ValidTask(pins: Pins, t: Task, at: int) {
    && t.genuine && t.requestedAt <= at < t.validUntil
    && KeyValid(pins.requester, t.requestedAt) && KeyValid(pins.requester, at)
  }

  const LOCATION := "active-object-namespace"
  const EXCLUSIONS: seq<string> := ["backups", "replicas", "downstream-copies", "training-derivatives",
                                    "open-handles-and-memory", "storage-media"]

  datatype Ack = Ack(task: Task, requestRecordId: string, acknowledgedAt: int, recordedAt: int, queueState: string)
  datatype Attestation = Attestation(task: Task, requestRecordId: string, completedAt: int, recordedAt: int,
                                     locations: seq<string>, exclusions: seq<string>)
  datatype Receipt = Receipt(task: Task, manifest: Manifest, requestId: string, before: Measurement,
                             unlinkedAt: int, observedAt: int, after: Measurement)

  datatype State =
    LocalUnlinkConfirmed | AcknowledgedOnly | Blocked | OutcomeUnknown | ReplayNoAction | RequestIdConflict
  datatype JournalState = Intent | Terminal(state: State) | NotClaimed | Unavailable

  predicate IsTerminal(s: State) { s != ReplayNoAction && s != RequestIdConflict }

  datatype Result = Result(state: State, attempted: bool, ack: Option<Ack>, attestation: Option<Attestation>,
                           receipt: Option<Receipt>, journal: JournalState, reason: string)

  // ----- the provider's own journal

  datatype Row = Row(requestId: string, fingerprint: Task, terminal: Option<State>, snapshot: Task,
                     result: Option<Result>)
  datatype ClaimStatus = CLAIMED | REPLAY | CONFLICT

  /** What the provider itself demands of a result before it persists one. */
  predicate ResultValid(r: Result) {
    && r.reason != ""
    && (r.journal.Terminal? ==> IsTerminal(r.journal.state))
    && (if r.state == LocalUnlinkConfirmed then r.attempted && r.ack.Some? && r.attestation.Some? && r.receipt.Some?
        else r.attestation.None? && r.receipt.None?)
    && (r.state in {Blocked, AcknowledgedOnly, ReplayNoAction, RequestIdConflict} ==> !r.attempted)
    && (r.state == AcknowledgedOnly ==> r.ack.Some?)
    && (r.state in {ReplayNoAction, RequestIdConflict} ==> r.ack.None?)
  }

  predicate RowValid(pins: Pins, row: Row) {
    && ValidTask(pins, row.snapshot, row.snapshot.requestedAt)
    && row.requestId == row.snapshot.requestId && row.fingerprint == row.snapshot
    && match row.terminal
       case None => row.result.None?
       case Some(s) => IsTerminal(s) && row.result.Some? && ResultValid(row.result.value)
                       && row.result.value.state == s && row.result.value.journal == Terminal(s)
  }

  function RowState(row: Row): JournalState {
    if row.terminal.None? then Intent else Terminal(row.terminal.value)
  }

  /** Replies of the world to one `delete` call, in the order in which they are asked for. */
  datatype Lookup = LookupFails | NoRow | FoundRow(row: Row)
  datatype Environment = Environment(
    firstLookup: Lookup, proposedAt: Option<int>, directoryOpens: bool,
    measured: Option<(Measurement, int)>, secondLookup: Lookup,
    claim: Option<(Row, ClaimStatus)>, stateAfterClaim: JournalState,
    acknowledgedAt: Option<int>, acknowledgeOnly: bool, hookFails: bool,
    finalAt: Option<int>, finalMeasured: Option<(Measurement, int)>, unlinkedAt: Option<int>,
    entryUnchanged: bool, namespaceOk: bool,
    unlinkFails: bool, absence: Option<Measurement>, observedAt: Option<int>, signingFails: bool,
    finished: Option<Row>, stateAfterFinish: JournalState, directoryCloses: bool, stateAfterClose: JournalState)

  /** A state read back from the journal is one that the journal can be in. */
  predicate Readable(s: JournalState) { s.Terminal? ==> IsTerminal(s.state) }

  predicate Plausible(env: Environment) {
    Readable(env.stateAfterClaim) && Readable(env.stateAfterFinish) && Readable(env.stateAfterClose)
  }

  /** A clock reading counts only if time has not gone back and the signing key is valid. */
  predicate ClockOk(pins: Pins, reading: Option<int>, earliest: int) {
    reading.Some? && earliest <= reading.value && KeyValid(pins.provider, reading.value)
  }

  function Expected(m: Manifest): Measurement { Present(m.sha256, m.byteLength) }

  // ----- the checker

  predicate CheckAck(pins: Pins, t: Task, a: Ack, cutoff: int) {
    && KeyValid(pins.provider, a.recordedAt) && a.recordedAt <= cutoff && a.task == t
    && a.requestRecordId == t.requestRecordId && a.queueState == "received"
    && a.acknowledgedAt == a.recordedAt && a.acknowledgedAt >= t.requestedAt
  }

  predicate CheckCompletion(pins: Pins, t: Task, a: Ack, b: Attestation, r: Receipt, cutoff: int) {
    && KeyValid(pins.provider, b.recordedAt) && b.recordedAt <= cutoff && b.task == t
    && b.requestRecordId == t.requestRecordId && b.locations == [LOCATION]
    && (set x | x in b.exclusions) == (set x | x in EXCLUSIONS) && b.completedAt == b.recordedAt
    && r.task == t && r.manifest == t.manifest && r.requestId == t.requestId && r.after == Absent
    && r.before == Expected(t.manifest)
    && a.acknowledgedAt <= r.unlinkedAt <= r.observedAt <= cutoff && r.observedAt == b.completedAt
    && KeyValid(pins.provider, r.unlinkedAt) && KeyValid(pins.provider, r.observedAt)
    && ValidTask(pins, t, r.unlinkedAt)
  }

  /** The offline check of a provider result against its erasure task and a cutoff. */
  predicate CheckResult(pins: Pins, t: Task, r: Result, cutoff: int) {
    && (r.journal.Terminal? ==> IsTerminal(r.journal.state))
    && 0 < |r.reason| <= 256
    && (if r.state == LocalUnlinkConfirmed
        then r.attempted && r.journal == Terminal(r.state) && r.ack.Some? && r.attestation.Some? && r.receipt.Some?
        else && r.attestation.None? && r.receipt.None?
             && (r.state != OutcomeUnknown ==> !r.attempted)
             && (r.state == AcknowledgedOnly ==> r.ack.Some? && r.journal == Terminal(r.state))
             && (r.state in {ReplayNoAction, RequestIdConflict} ==> r.ack.None?))
    && (r.ack.Some? ==> CheckAck(pins, t, r.ack.value, cutoff))
    && (r.attestation.Some? ==> r.ack.Some? && r.receipt.Some?
                                && CheckCompletion(pins, t, r.ack.value, r.attestation.value, r.receipt.value, cutoff))
  }

  /** A cutoff not earlier than any event of the call. */
  predicate CoversCall(env: Environment, cutoff: int) {
    && (env.acknowledgedAt.Some? ==> env.acknowledgedAt.value <= cutoff)
    && (env.observedAt.Some? ==> env.observedAt.value <= cutoff)
  }

  // ----- delete

  function Replay(r: Result, row: Row, t: Task): Result {
    if row.fingerprint == t
    then r.(state := ReplayNoAction, journal := RowState(row),
            reason := "REQUEST_ALREADY_CLAIMED_NO_EVIDENCE_REASSERTED")
    else r.(state := RequestIdConflict, journal := RowState(row), reason := "REQUEST_ID_BINDS_DIFFERENT_TASK")
  }

  /** None: the request is not claimed yet and the caller goes on. */
  function ReplayIfClaimed(pins: Pins, r: Result, t: Task, lookup: Lookup): Option<Result> {
    match lookup
    case NoRow => None
    case LookupFails => Some(r.(reason := "JOURNAL_UNAVAILABLE_BEFORE_CLAIM", journal := Unavailable))
    case FoundRow(row) =>
      if RowValid(pins, row) && row.requestId == t.requestId then Some(Replay(r, row, t))
      else Some(r.(reason := "JOURNAL_UNAVAILABLE_BEFORE_CLAIM", journal := Unavailable))
  }

  /** The claim was acknowledged as new and holds exactly this task's unfinished intent. */
  predicate ClaimedByThisCall(pins: Pins, t: Task, env: Environment) {
    env.claim.Some? && env.claim.value.1 == CLAIMED &&
    var row := env.claim.value.0;
    && RowValid(pins, row) && row.requestId == t.requestId && row.fingerprint == t && row.snapshot == t
    && row.terminal.None?
  }

  /** The result left when the journal did not acknowledge exactly what was to be persisted. */
  function Unestablished(r: Result, env: Environment): Result {
    r.(state := OutcomeUnknown, reason := "RESULT_PERSISTENCE_NOT_ESTABLISHED", attestation := None, receipt := None,
       journal := env.stateAfterFinish)
  }

  /** Persist a terminal result; without an exact acknowledgement nothing stays asserted. */
  method Persist(pins: Pins, t: Task, r: Result, env: Environment) returns (p: Result)
    requires IsTerminal(r.state) && Plausible(env)
    requires ResultValid(r.(journal := Terminal(r.state)))
    ensures var persisted := r.(journal := Terminal(r.state));
            if Holds(t, env, persisted) && ValidTask(pins, t, t.requestedAt)
            then p == persisted else p == Unestablished(r, env)
  {
    p := r.(journal := Terminal(r.state));
    if env.finished.None? || !RowValid(pins, env.finished.value) || env.finished.value.requestId != t.requestId
       || env.finished.value.fingerprint != t || env.finished.value.terminal != Some(r.state)
       || env.finished.value.snapshot != t || env.finished.value.result != Some(p) {
      p := Unestablished(r, env);
    }
  }

  // ----- how far a call gets

  /** The lookup gives a valid row of this request. */
  predicate OwnRow(pins: Pins, t: Task, lookup: Lookup) {
    lookup.FoundRow? && RowValid(pins, lookup.row) && lookup.row.requestId == t.requestId
  }

  /** Nothing is claimed yet, the erasure task authorizes now, and the directory opens. */
  predicate Entered(pins: Pins, t: Task, env: Environment) {
    && env.firstLookup == NoRow && ClockOk(pins, env.proposedAt, t.requestedAt)
    && ValidTask(pins, t, env.proposedAt.value) && env.directoryOpens
  }

  /** The object is there as the manifest binds it. */
  predicate Measured(pins: Pins, t: Task, env: Environment) {
    Entered(pins, t, env) && env.measured.Some? && env.measured.value.0 == Expected(t.manifest)
  }

  /** The journal acknowledges that an earlier call made the claim. */
  predicate ClaimedBefore(pins: Pins, t: Task, env: Environment) {
    && Measured(pins, t, env) && env.claim.Some? && RowValid(pins, env.claim.value.0)
    && env.claim.value.0.requestId == t.requestId
    && env.claim.value.1 == (if env.claim.value.0.fingerprint == t then REPLAY else CONFLICT)
  }

  predicate Claimed(pins: Pins, t: Task, env: Environment) {
    Measured(pins, t, env) && ClaimedByThisCall(pins, t, env)
  }

  predicate Acknowledged(pins: Pins, t: Task, env: Environment) {
    Claimed(pins, t, env) && ClockOk(pins, env.acknowledgedAt, env.proposedAt.value)
  }

  /** What has to hold at the boundary before the unlink call is entered. */
  predicate MayUnlink(pins: Pins, t: Task, env: Environment) {
    && Acknowledged(pins, t, env) && !env.acknowledgeOnly && !env.hookFails
    && ClockOk(pins, env.finalAt, env.acknowledgedAt.value) && ValidTask(pins, t, env.finalAt.value)
    && env.finalMeasured == env.measured
    && ClockOk(pins, env.unlinkedAt, env.finalAt.value) && ValidTask(pins, t, env.unlinkedAt.value)
    && env.entryUnchanged && env.namespaceOk
  }

  /** The entry was seen to be gone, in time, and both statements about it could be signed. */
  predicate Removed(pins: Pins, t: Task, env: Environment) {
    && MayUnlink(pins, t, env) && !env.unlinkFails && env.absence == Some(Absent)
    && ClockOk(pins, env.observedAt, env.unlinkedAt.value) && !env.signingFails
  }

  function AckAt(t: Task, at: int): Ack { Ack(t, t.requestRecordId, at, at, "received") }

  function Confirmation(pins: Pins, t: Task, env: Environment): Result
    requires Removed(pins, t, env)
  {
    var observedAt := env.observedAt.value;
    Result(LocalUnlinkConfirmed, true, Some(AckAt(t, env.acknowledgedAt.value)),
           Some(Attestation(t, t.requestRecordId, observedAt, observedAt, [LOCATION], EXCLUSIONS)),
           Some(Receipt(t, t.manifest, t.requestId, env.measured.value.0, env.unlinkedAt.value, observedAt, Absent)),
           Terminal(LocalUnlinkConfirmed), "EXACT_NAMESPACE_ENTRY_REMOVAL_CONFIRMED")
  }

  /** The terminal result that a call hands to the journal after a claim of its own. */
  function Handed(pins: Pins, t: Task, env: Environment): Result
    requires Claimed(pins, t, env)
  {
    if !Acknowledged(pins, t, env)
    then Result(OutcomeUnknown, false, None, None, None, Terminal(OutcomeUnknown), "ACKNOWLEDGEMENT_NOT_ESTABLISHED")
    else if Removed(pins, t, env) then Confirmation(pins, t, env)
    else
      var state := if env.acknowledgeOnly then AcknowledgedOnly
                   else if env.hookFails || MayUnlink(pins, t, env) then OutcomeUnknown else Blocked;
      Result(state, MayUnlink(pins, t, env), Some(AckAt(t, env.acknowledgedAt.value)), None, None, Terminal(state),
             match state
             case AcknowledgedOnly => "REQUEST_RECEIVED_WITHOUT_DELETION"
             case Blocked => "FINAL_AUTHORIZATION_OR_OBJECT_NOT_ESTABLISHED"
             case _ => if env.hookFails then "BEFORE_UNLINK_CALLBACK_FAILED"
                       else "UNLINK_OR_SCOPED_COMPLETION_NOT_ESTABLISHED")
  }

  /** The journal acknowledged exactly this terminal result of this task. */
  predicate Holds(t: Task, env: Environment, r: Result) {
    env.finished == Some(Row(t.requestId, t, Some(r.state), t, Some(r)))
  }

  /** What stays of it. */
  function Left(pins: Pins, t: Task, env: Environment): Result
    requires Claimed(pins, t, env)
  {
    var handed := Handed(pins, t, env);
    if Holds(t, env, handed) then handed else Unestablished(handed, env)
  }

  /** The answer of a call that finds the request claimed by another. */
  predicate Answers(r: Result, row: Row, t: Task) {
    && r.state == (if row.fingerprint == t then ReplayNoAction else RequestIdConflict)
    && r.journal == (if row.terminal.None? then Intent else Terminal(row.terminal.value))
    && !r.attempted && r.ack.None? && r.attestation.None? && r.receipt.None?
  }

  /** The call ends blocked without a claim of its own, and says nothing but what it saw of the journal. */
  predicate Stopped(r: Result, journal: JournalState) {
    && r.state == Blocked && r.journal == journal
    && !r.attempted && r.ack.None? && r.attestation.None? && r.receipt.None?
  }

  /** What a call that entered the directory has to report when it leaves it. */
  ghost predicate ReportsInDirectory(pins: Pins, t: Task, env: Environment, r: Result) {
    if Claimed(pins, t, env) then r == Left(pins, t, env)
    else if ClaimedBefore(pins, t, env) then Answers(r, env.claim.value.0, t)
    else if Measured(pins, t, env) then Stopped(r, env.stateAfterClaim)
    else if OwnRow(pins, t, env.secondLookup) then Answers(r, env.secondLookup.row, t)
    else Stopped(r, if env.secondLookup == NoRow then NotClaimed else Unavailable)
  }

  /** The checker accepts the result at any cutoff after the call; an attempt was allowed to
      happen; and a confirmed removal is one whose exact result the journal holds. */
  ghost predicate Accountable(pins: Pins, t: Task, env: Environment, r: Result) {
    && (forall cutoff :: CoversCall(env, cutoff) ==> CheckResult(pins, t, r, cutoff))
    && (r.attempted ==> MayUnlink(pins, t, env))
    && (r.state == LocalUnlinkConfirmed ==>
          Holds(t, env, r) && env.absence == Some(Absent))
  }

  /** A result that claims nothing is always acceptable. */
  lemma ClaimsNothing(pins: Pins, t: Task, env: Environment, r: Result)
    requires !r.attempted && r.ack.None? && r.attestation.None? && r.receipt.None? && Readable(r.journal)
    requires r.state in {Blocked, OutcomeUnknown, ReplayNoAction, RequestIdConflict} && 0 < |r.reason| <= 256
    ensures Accountable(pins, t, env, r)
    ensures !Entered(pins, t, env) ==> !MayUnlink(pins, t, env) && !Removed(pins, t, env)
  {
  }

  /** The acknowledgement is this call's own, if there is one. */
  predicate OwnAck(pins: Pins, t: Task, env: Environment, ack: Option<Ack>) {
    ack.Some? ==>
      && env.acknowledgedAt.Some? && KeyValid(pins.provider, env.acknowledgedAt.value)
      && t.requestedAt <= env.acknowledgedAt.value
      && ack.value == Ack(t, t.requestRecordId, env.acknowledgedAt.value, env.acknowledgedAt.value, "received")
  }

  /** A result that claims at most the receipt of the request, and no removal. */
  predicate Modest(pins: Pins, t: Task, env: Environment, r: Result) {
    && r.state in {Blocked, AcknowledgedOnly, OutcomeUnknown} && 0 < |r.reason| <= 256
    && r.attestation.None? && r.receipt.None? && OwnAck(pins, t, env, r.ack)
    && (r.attempted ==> r.state == OutcomeUnknown && MayUnlink(pins, t, env))
    && (r.state == AcknowledgedOnly ==> r.ack.Some?)
  }

  lemma ModestIsAccountable(pins: Pins, t: Task, env: Environment, r: Result)
    requires Modest(pins, t, env, r) && Readable(r.journal)
    requires r.state == AcknowledgedOnly ==> r.journal == Terminal(r.state)
    ensures Accountable(pins, t, env, r)
  {
  }

  /** Persist a modest result: whatever the journal answers, the outcome is acceptable. */
  method PersistModest(pins: Pins, t: Task, r: Result, env: Environment) returns (p: Result)
    requires Plausible(env) && Modest(pins, t, env, r) && ValidTask(pins, t, t.requestedAt)
    ensures Accountable(pins, t, env, p)
    ensures var handed := r.(journal := Terminal(r.state));
            p == if Holds(t, env, handed) then handed else Unestablished(handed, env)
  {
    p := Persist(pins, t, r, env);
    ModestIsAccountable(pins, t, env, p);
  }

  /** From inside the directory, an attempt and a confirmation are reported exactly when due. */
  lemma ReportedWhenDue(pins: Pins, t: Task, env: Environment, r: Result)
    requires Entered(pins, t, env) && ReportsInDirectory(pins, t, env, r)
    ensures r.attempted <==> MayUnlink(pins, t, env)
    ensures r.state == LocalUnlinkConfirmed <==> Removed(pins, t, env) && Holds(t, env, Confirmation(pins, t, env))
    ensures r.state == LocalUnlinkConfirmed ==> r == Confirmation(pins, t, env)
  {
  }

  /** What a call that entered the directory reports after leaving it: that, if the directory
      closes, and otherwise no more than that something may have been done. */
  ghost predicate ReportsAfterDirectory(pins: Pins, t: Task, env: Environment, r: Result) {
    if env.directoryCloses then ReportsInDirectory(pins, t, env, r)
    else exists q :: && ReportsInDirectory(pins, t, env, q)
                     && r == Result(if q.attempted || q.journal == Intent then OutcomeUnknown else Blocked,
                                    q.attempted, q.ack, None, None, env.stateAfterClose,
                                    "CONTROLLER_STORAGE_UNAVAILABLE")
  }

  method Delete(pins: Pins, t: Task, env: Environment) returns (r: Result)
    requires ValidTask(pins, t, t.requestedAt) && Plausible(env)
    ensures Accountable(pins, t, env, r)
    // an earlier claim answers for itself
    ensures OwnRow(pins, t, env.firstLookup) ==> Answers(r, env.firstLookup.row, t)
    ensures env.firstLookup.FoundRow? && RowValid(pins, env.firstLookup.row)
            && env.firstLookup.row.requestId == t.requestId ==>
              r.state == if env.firstLookup.row.fingerprint == t then ReplayNoAction else RequestIdConflict
    ensures env.firstLookup != NoRow && !OwnRow(pins, t, env.firstLookup) ==> Stopped(r, Unavailable)
    ensures env.firstLookup == NoRow && !Entered(pins, t, env) ==>
              Stopped(r, NotClaimed) || (!env.directoryOpens && Stopped(r, env.stateAfterClose))
    ensures Entered(pins, t, env) ==> ReportsAfterDirectory(pins, t, env, r)
    // the unlink and its confirmation
    ensures r.attempted <==> MayUnlink(pins, t, env)
    ensures r.state == LocalUnlinkConfirmed <==>
              Removed(pins, t, env) && env.directoryCloses && Holds(t, env, Confirmation(pins, t, env))
    ensures r.state == LocalUnlinkConfirmed ==> r == Confirmation(pins, t, env)
  {
    r := Result(Blocked, false, None, None, None, NotClaimed, "NOT_PREPARED");
    var prior := ReplayIfClaimed(pins, r, t, env.firstLookup);
    if prior.Some? {
      r := prior.value;
      ClaimsNothing(pins, t, env, r);
      return;
    }
    if !ClockOk(pins, env.proposedAt, t.requestedAt) || !ValidTask(pins, t, env.proposedAt.value) {
      r := r.(reason := "AUTHORIZATION_NOT_CURRENT");
      ClaimsNothing(pins, t, env, r);
      return;
    }
    if !env.directoryOpens {
      r := r.(reason := "CONTROLLER_STORAGE_UNAVAILABLE", journal := env.stateAfterClose);
      ClaimsNothing(pins, t, env, r);
      return;
    }
    r := DeleteAndClose(pins, t, env, r);
  }

  method DeleteAndClose(pins: Pins, t: Task, env: Environment, start: Result) returns (r: Result)
    requires ValidTask(pins, t, t.requestedAt) && Plausible(env)
    requires start == Result(Blocked, false, None, None, None, NotClaimed, "NOT_PREPARED")
    requires Entered(pins, t, env)
    ensures Accountable(pins, t, env, r) && ReportsAfterDirectory(pins, t, env, r)
    ensures r.attempted <==> MayUnlink(pins, t, env)
    ensures r.state == LocalUnlinkConfirmed <==>
              Removed(pins, t, env) && env.directoryCloses && Holds(t, env, Confirmation(pins, t, env))
    ensures r.state == LocalUnlinkConfirmed ==> r == Confirmation(pins, t, env)
  {
    r := DeleteInDirectory(pins, t, env, start);
    ReportedWhenDue(pins, t, env, r);
    if !env.directoryCloses {
      r := StorageLost(pins, t, env, r);
    }
  }

  /** The directory cannot be left in order: what was done in it is not known any more. */
  method StorageLost(pins: Pins, t: Task, env: Environment, inside: Result) returns (r: Result)
    requires Plausible(env) && Accountable(pins, t, env, inside)
    ensures Accountable(pins, t, env, r)
    ensures r == Result(if inside.attempted || inside.journal == Intent then OutcomeUnknown else Blocked,
                        inside.attempted, inside.ack, None, None, env.stateAfterClose, "CONTROLLER_STORAGE_UNAVAILABLE")
  {
    r := inside.(state := if inside.attempted || inside.journal == Intent then OutcomeUnknown else Blocked,
                 reason := "CONTROLLER_STORAGE_UNAVAILABLE", attestation := None, receipt := None,
                 journal := env.stateAfterClose);
  }

  /** The part of the procedure that runs with the object directory open. */
  method DeleteInDirectory(pins: Pins, t: Task, env: Environment, start: Result) returns (r: Result)
    requires ValidTask(pins, t, t.requestedAt) && Plausible(env)
    requires start == Result(Blocked, false, None, None, None, NotClaimed, "NOT_PREPARED")
    requires Entered(pins, t, env)
    ensures Accountable(pins, t, env, r) && ReportsInDirectory(pins, t, env, r)
  {
    r := start;
    if env.measured.None? || env.measured.value.0 != Expected(t.manifest) {
      r := r.(reason := if env.measured.None? then "REQUESTED_OBJECT_NOT_SAFELY_ESTABLISHED"
                        else "REQUESTED_OBJECT_NOT_PRESENT_AS_BOUND");
      var prior := ReplayIfClaimed(pins, r, t, env.secondLookup);
      if prior.Some? { r := prior.value; }
      ClaimsNothing(pins, t, env, r);
      return;
    }
    r := ClaimAndAct(pins, t, env, r);
  }

  /** Claim the request; only an acknowledged new intent of exactly this task goes on. */
  method ClaimAndAct(pins: Pins, t: Task, env: Environment, start: Result) returns (r: Result)
    requires ValidTask(pins, t, t.requestedAt) && Plausible(env)
    requires start == Result(Blocked, false, None, None, None, NotClaimed, "NOT_PREPARED")
    requires Measured(pins, t, env)
    ensures Accountable(pins, t, env, r) && ReportsInDirectory(pins, t, env, r)
  {
    r := start.(reason := "INTENT_ACKNOWLEDGEMENT_NOT_ESTABLISHED", journal := env.stateAfterClaim);
    ClaimsNothing(pins, t, env, r);
    if env.claim.None? || !RowValid(pins, env.claim.value.0) || env.claim.value.0.requestId != t.requestId { return; }
    var row, status := env.claim.value.0, env.claim.value.1;
    var matches := row.fingerprint == t && row.snapshot == t;
    if status == CLAIMED {
      if !matches || row.terminal.Some? || row.result.Some? { return; }
      r := ActOnIntent(pins, t, env, start.(journal := Intent));
    } else if status == (if matches then REPLAY else CONFLICT) {
      r := Replay(start, row, t);
      ClaimsNothing(pins, t, env, r);
    }
  }

  /** From the committed intent to the boundary of the unlink call. */
  method ActOnIntent(pins: Pins, t: Task, env: Environment, start: Result) returns (r: Result)
    requires ValidTask(pins, t, t.requestedAt) && Plausible(env)
    requires start == Result(Blocked, false, None, None, None, Intent, "NOT_PREPARED")
    requires Claimed(pins, t, env)
    ensures Accountable(pins, t, env, r) && r == Left(pins, t, env)
  {
    r := start;
    if !ClockOk(pins, env.acknowledgedAt, env.proposedAt.value) {
      r := PersistModest(pins, t, r.(state := OutcomeUnknown, reason := "ACKNOWLEDGEMENT_NOT_ESTABLISHED"), env);
      return;
    }
    var acknowledgedAt := env.acknowledgedAt.value;
    r := r.(ack := Some(Ack(t, t.requestRecordId, acknowledgedAt, acknowledgedAt, "received")));
    if env.acknowledgeOnly {
      r := PersistModest(pins, t, r.(state := AcknowledgedOnly, reason := "REQUEST_RECEIVED_WITHOUT_DELETION"), env);
      return;
    }
    if env.hookFails {
      r := PersistModest(pins, t, r.(state := OutcomeUnknown, reason := "BEFORE_UNLINK_CALLBACK_FAILED"), env);
      return;
    }
    r := CheckAndUnlink(pins, t, env, r);
  }

  /** The final check, right before the unlink call. */
  method CheckAndUnlink(pins: Pins, t: Task, env: Environment, start: Result) returns (r: Result)
    requires ValidTask(pins, t, t.requestedAt) && Plausible(env)
    requires Acknowledged(pins, t, env) && !env.acknowledgeOnly && !env.hookFails
    requires start == Result(Blocked, false, Some(AckAt(t, env.acknowledgedAt.value)), None, None, Intent,
                             "NOT_PREPARED")
    ensures Accountable(pins, t, env, r) && r == Left(pins, t, env)
  {
    r := start;
    if !ClockOk(pins, env.finalAt, env.acknowledgedAt.value) || !ValidTask(pins, t, env.finalAt.value)
       || env.finalMeasured.None? || env.finalMeasured.value.0 != Expected(t.manifest)
       || env.finalMeasured.value.1 != env.measured.value.1
       || !ClockOk(pins, env.unlinkedAt, env.finalAt.value) || !ValidTask(pins, t, env.unlinkedAt.value)
       || !env.entryUnchanged || !env.namespaceOk {
      r := PersistModest(pins, t, r.(reason := "FINAL_AUTHORIZATION_OR_OBJECT_NOT_ESTABLISHED"), env);
      return;
    }
    r := EnterUnlink(pins, t, env, r.(attempted := true));
  }

  method EnterUnlink(pins: Pins, t: Task, env: Environment, start: Result) returns (r: Result)
    requires ValidTask(pins, t, t.requestedAt) && Plausible(env) && MayUnlink(pins, t, env)
    requires start == Result(Blocked, true, Some(AckAt(t, env.acknowledgedAt.value)), None, None, Intent,
                             "NOT_PREPARED")
    ensures Accountable(pins, t, env, r) && r == Left(pins, t, env)
  {
    r := start;
    if env.unlinkFails || env.absence != Some(Absent) || !ClockOk(pins, env.observedAt, env.unlinkedAt.value)
       || env.signingFails {
      r := PersistModest(pins, t, r.(state := OutcomeUnknown, reason := "UNLINK_OR_SCOPED_COMPLETION_NOT_ESTABLISHED"),
                         env);
      return;
    }
    r := ConfirmRemoval(pins, t, env, r);
  }

  /** The entry is gone: attest to it, and let the journal have the last word. */
  method ConfirmRemoval(pins: Pins, t: Task, env: Environment, start: Result) returns (r: Result)
    requires ValidTask(pins, t, t.requestedAt) && Plausible(env) && Removed(pins, t, env)
    requires start == Result(Blocked, true, Some(AckAt(t, env.acknowledgedAt.value)), None, None, Intent,
                             "NOT_PREPARED")
    ensures Accountable(pins, t, env, r) && r == Left(pins, t, env)
  {
    var observedAt := env.observedAt.value;
    var receipt := Receipt(t, t.manifest, t.requestId, env.measured.value.0, env.unlinkedAt.value, observedAt, Absent);
    var attestation := Attestation(t, t.requestRecordId, observedAt, observedAt, [LOCATION], EXCLUSIONS);
    r := start.(state := LocalUnlinkConfirmed, reason := "EXACT_NAMESPACE_ENTRY_REMOVAL_CONFIRMED",
                receipt := Some(receipt), attestation := Some(attestation));
    r := Persist(pins, t, r, env);
    if r.state == OutcomeUnknown { ModestIsAccountable(pins, t, env, r); }
  }

  // ----- the same in plain dates and rows

  /** An unlink is entered exactly at the end of one chain of times that lies within the erasure task's
      interval and both keys', for an unclaimed request whose object was twice measured as bound
      and whose fresh row the journal acknowledged. */
  lemma UnlinkWhen(pins: Pins, t: Task, env: Environment)
    ensures MayUnlink(pins, t, env) <==>
      && env.firstLookup == NoRow && env.claim == Some((Row(t.requestId, t, None, t, None), CLAIMED))
      && env.directoryOpens && env.measured.Some? && env.finalMeasured == env.measured
      && env.measured.value.0 == Present(t.manifest.sha256, t.manifest.byteLength)
      && !env.acknowledgeOnly && !env.hookFails && env.entryUnchanged && env.namespaceOk
      && env.proposedAt.Some? && env.acknowledgedAt.Some? && env.finalAt.Some? && env.unlinkedAt.Some?
      && t.genuine
      && t.requestedAt <= env.proposedAt.value && env.proposedAt.value <= env.acknowledgedAt.value
      && env.acknowledgedAt.value <= env.finalAt.value && env.finalAt.value <= env.unlinkedAt.value
      && env.unlinkedAt.value < t.validUntil
      && pins.requester.notBefore <= t.requestedAt && env.unlinkedAt.value < pins.requester.notAfter
      && pins.provider.notBefore <= env.proposedAt.value && env.unlinkedAt.value < pins.provider.notAfter
  {
  }

  /** A removal is confirmed to the journal exactly when the unlink went through, the entry was
      then measured as absent, no earlier than the unlink, and the statements were signed. */
  lemma RemovedWhen(pins: Pins, t: Task, env: Environment)
    ensures Removed(pins, t, env) <==>
      && MayUnlink(pins, t, env) && !env.unlinkFails && env.absence == Some(Absent) && !env.signingFails
      && env.observedAt.Some? && env.unlinkedAt.value <= env.observedAt.value
      && env.observedAt.value < pins.provider.notAfter
  {
  }

  /** What a call hands to its journal after a claim of its own. */
  lemma HandedWhen(pins: Pins, t: Task, env: Environment)
    requires Claimed(pins, t, env)
    ensures var handed := Handed(pins, t, env);
      var acknowledged := && env.acknowledgedAt.Some? && env.proposedAt.value <= env.acknowledgedAt.value
                          && env.acknowledgedAt.value < pins.provider.notAfter;
      && (handed.state == LocalUnlinkConfirmed <==> Removed(pins, t, env))
      && (handed.state == AcknowledgedOnly <==> acknowledged && env.acknowledgeOnly)
      && (handed.state == Blocked <==>
            acknowledged && !env.acknowledgeOnly && !env.hookFails && !MayUnlink(pins, t, env))
      && handed.state != ReplayNoAction && handed.state != RequestIdConflict
      && handed.journal == Terminal(handed.state) && (handed.attempted <==> MayUnlink(pins, t, env))
      && handed.ack == (if acknowledged
                        then Some(Ack(t, t.requestRecordId, env.acknowledgedAt.value, env.acknowledgedAt.value,
                                      "received"))
                        else None)
      && (handed.receipt.Some? <==> Removed(pins, t, env)) && (handed.attestation.Some? <==> Removed(pins, t, env))
      && (Removed(pins, t, env) ==>
            var at := env.observedAt.value;
            && handed.receipt.value == Receipt(t, t.manifest, t.requestId,
                                               Present(t.manifest.sha256, t.manifest.byteLength),
                                               env.unlinkedAt.value, at, Absent)
            && handed.attestation.value == Attestation(t, t.requestRecordId, at, at, [LOCATION], EXCLUSIONS))
  {
  }

  /** A claim is this call's own, or another's, by the row that comes with it. */
  lemma ClaimedWhen(pins: Pins, t: Task, env: Environment)
    ensures Claimed(pins, t, env) <==>
      Measured(pins, t, env) && env.claim == Some((Row(t.requestId, t, None, t, None), CLAIMED))
    ensures Measured(pins, t, env) <==>
      && env.firstLookup == NoRow && env.directoryOpens && env.measured.Some?
      && env.measured.value.0 == Present(t.manifest.sha256, t.manifest.byteLength)
      && env.proposedAt.Some? && t.genuine && t.requestedAt <= env.proposedAt.value
      && env.proposedAt.value < t.validUntil
      && pins.requester.notBefore <= t.requestedAt && env.proposedAt.value < pins.requester.notAfter
      && pins.provider.notBefore <= env.proposedAt.value && env.proposedAt.value < pins.provider.notAfter
  {
  }

  /** What a call that finds another's claim reports, by the fingerprint and the state of the row. */
  lemma AnswersWhen(r: Result, row: Row, t: Task)
    ensures Answers(r, row, t) <==>
      && (r.state == ReplayNoAction || r.state == RequestIdConflict)
      && (r.state == ReplayNoAction <==> row.fingerprint == t)
      && r == Result(r.state, false, None, None, None,
                     if row.terminal.Some? then Terminal(row.terminal.value) else Intent, r.reason)
  {
  }

  /** Inside the directory: a claim acknowledged as an earlier one, or found after the object was
      not, answers for itself; what is neither that nor the call's own leaves it blocked. */
  lemma RepliesInDirectory(pins: Pins, t: Task, env: Environment, r: Result)
    requires ReportsInDirectory(pins, t, env, r)
    ensures Measured(pins, t, env) ==>
      match env.claim
      case None => r == Result(Blocked, false, None, None, None, env.stateAfterClaim, r.reason)
      case Some((row, status)) =>
        if RowValid(pins, row) && row.requestId == t.requestId &&
           ((status == REPLAY && row.fingerprint == t) || (status == CONFLICT && row.fingerprint != t))
        then Answers(r, row, t)
        else || (row == Row(t.requestId, t, None, t, None) && status == CLAIMED && r == Left(pins, t, env))
             || r == Result(Blocked, false, None, None, None, env.stateAfterClaim, r.reason)
    ensures !Measured(pins, t, env) ==>
      match env.secondLookup
      case NoRow => r == Result(Blocked, false, None, None, None, NotClaimed, r.reason)
      case LookupFails => r == Result(Blocked, false, None, None, None, Unavailable, r.reason)
      case FoundRow(row) =>
        if RowValid(pins, row) && row.requestId == t.requestId then Answers(r, row, t)
        else r == Result(Blocked, false, None, None, None, Unavailable, r.reason)
  {
  }

  /** A row counts exactly when its own task was authorized when it was requested, and its
      terminal state is the state of a well-formed result that claims it. */
  lemma RowCounts(pins: Pins, row: Row)
    ensures RowValid(pins, row) <==>
      && row.snapshot.genuine && row.snapshot.requestedAt < row.snapshot.validUntil
      && pins.requester.notBefore <= row.snapshot.requestedAt && row.snapshot.requestedAt < pins.requester.notAfter
      && row.requestId == row.snapshot.requestId && row.fingerprint == row.snapshot
      && (row.terminal.None? <==> row.result.None?)
      && (row.terminal.Some? ==>
            var state, r := row.terminal.value, row.result.value;
            && r.state == state && r.journal == Terminal(state) && r.reason != ""
            && state != ReplayNoAction && state != RequestIdConflict
            && (r.attestation.Some? <==> state == LocalUnlinkConfirmed)
            && (r.receipt.Some? <==> state == LocalUnlinkConfirmed)
            && (r.attempted ==> state == LocalUnlinkConfirmed || state == OutcomeUnknown)
            && (state == LocalUnlinkConfirmed ==> r.attempted && r.ack.Some?)
            && (state == AcknowledgedOnly ==> r.ack.Some?))
  {
  }

  lemma SameElements(a: seq<string>, b: seq<string>)
    ensures (set x | x in a) == (set x | x in b) <==> forall x :: x in a <==> x in b
  {
    var A, B := set x | x in a, set x | x in b;
    if A == B {
      forall x ensures x in a <==> x in b { assert (x in a <==> x in A) && (x in b <==> x in B); }
    }
  }

  /** The checker accepts a confirmation exactly when its three statements are about this task
      and this object, name the one location and the six exclusions, and bear one chain of times
      within the erasure task's interval, both keys' and the cutoff. */
  lemma ConfirmationChecks(pins: Pins, t: Task, r: Result, cutoff: int)
    requires r.state == LocalUnlinkConfirmed
    ensures CheckResult(pins, t, r, cutoff) <==>
      && r.attempted && r.journal == Terminal(LocalUnlinkConfirmed) && 0 < |r.reason| <= 256
      && r.ack.Some? && r.attestation.Some? && r.receipt.Some? &&
      var a, b, c := r.ack.value, r.attestation.value, r.receipt.value;
      && a == Ack(t, t.requestRecordId, a.acknowledgedAt, a.acknowledgedAt, "received")
      && b == Attestation(t, t.requestRecordId, c.observedAt, c.observedAt, ["active-object-namespace"], b.exclusions)
      && (forall x :: x in b.exclusions <==>
            x in {"backups", "replicas", "downstream-copies", "training-derivatives", "open-handles-and-memory",
                  "storage-media"})
      && c == Receipt(t, t.manifest, t.requestId, Present(t.manifest.sha256, t.manifest.byteLength),
                      c.unlinkedAt, c.observedAt, Absent)
      && t.genuine && t.requestedAt <= a.acknowledgedAt && a.acknowledgedAt <= c.unlinkedAt
      && c.unlinkedAt <= c.observedAt && c.observedAt <= cutoff && c.unlinkedAt < t.validUntil
      && pins.requester.notBefore <= t.requestedAt && c.unlinkedAt < pins.requester.notAfter
      && pins.provider.notBefore <= a.acknowledgedAt && c.observedAt < pins.provider.notAfter
  {
    assert forall x :: x in EXCLUSIONS <==>
        x in {"backups", "replicas", "downstream-copies", "training-derivatives", "open-handles-and-memory",
              "storage-media"};
    if r.attestation.Some? { SameElements(r.attestation.value.exclusions, EXCLUSIONS); }
  }

  /** Every other result is accepted exactly when it claims no removal and, unless the outcome is
      unknown, no attempt, and its acknowledgement, if any, is a timely one of this task. */
  lemma OtherResultChecks(pins: Pins, t: Task, r: Result, cutoff: int)
    requires r.state != LocalUnlinkConfirmed
    ensures CheckResult(pins, t, r, cutoff) <==>
      && r.attestation.None? && r.receipt.None? && 0 < |r.reason| <= 256
      && r.journal != Terminal(ReplayNoAction) && r.journal != Terminal(RequestIdConflict)
      && (r.attempted ==> r.state == OutcomeUnknown)
      && (r.state == AcknowledgedOnly ==> r.ack.Some? && r.journal == Terminal(AcknowledgedOnly))
      && (r.ack.Some? ==>
            var a := r.ack.value;
            && r.state != ReplayNoAction && r.state != RequestIdConflict
            && a == Ack(t, t.requestRecordId, a.acknowledgedAt, a.acknowledgedAt, "received")
            && t.requestedAt <= a.acknowledgedAt && a.acknowledgedAt <= cutoff
            && pins.provider.notBefore <= a.acknowledgedAt && a.acknowledgedAt < pins.provider.notAfter)
  {
  }
}
