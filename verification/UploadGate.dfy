/** One claimed upload, gated by a collector's signed acknowledgement and a fresh readback of
    it.  Replies of the world are parameters; `genuine` says that the collector's signature
    verifies, and a digest is modelled by the value it is taken of. */
module UploadGate {
  import opened Wrappers

  // ----- what is signed

  datatype Target = Target(requestId: string, evaluationId: string, subject: string, length: nat)
  datatype Intent = Intent(collectionId: string, target: Target, permit: string, createdAt: int)
  datatype Receipt = Receipt(intent: Intent, recordedAt: int, receiptId: string)
  datatype Query = Query(intent: Intent, nonce: string, createdAt: int)
  datatype Status = Status(query: Query, found: Option<Receipt>, checkedAt: int)

  predicate ReceiptVerifies(r: Receipt, intent: Intent, at: int) {
    r.intent == intent && intent.createdAt <= r.recordedAt <= at
  }

  predicate StatusVerifies(s: Status, query: Query, intent: Intent, at: int) {
    && s.query == query && query.intent == intent && intent.createdAt <= query.createdAt <= s.checkedAt <= at
    && (s.found.Some? ==> ReceiptVerifies(s.found.value, intent, s.checkedAt))
  }

  // ----- the collector's store

  datatype Saved = Saved(requestId: string, intent: Intent, receipt: Receipt)
  type Collections = map<string, Saved>
  datatype Reply<+T> = Rejected | Answer(value: T)

  predicate OtherRowHas(rows: Collections, collectionId: string, requestId: string) {
    exists k :: k in rows && k != collectionId && rows[k].requestId == requestId
  }

  /** An intent is saved once; the same intent again gets the saved receipt, a different one
      under either of its identifiers is rejected.  `committed` false: the connection is
      dropped before the commit. */
  function Accepted(rows: Collections, intent: Intent, now: int, receiptId: string, committed: bool)
    : (Collections, Reply<Receipt>)
  {
    var c, q := intent.collectionId, intent.target.requestId;
    if OtherRowHas(rows, c, q) then (rows, Rejected)
    else if c in rows then
      if rows[c].requestId == q && rows[c].intent == intent then (rows, Answer(rows[c].receipt)) else (rows, Rejected)
    else if !committed then (rows, Rejected)
    else
      var receipt := Receipt(intent, now, receiptId);
      (rows[c := Saved(q, intent, receipt)], Answer(receipt))
  }

  /** A lookup never changes a row. */
  function LookedUp(rows: Collections, query: Query, now: int): Reply<Status> {
    var c, q := query.intent.collectionId, query.intent.target.requestId;
    if OtherRowHas(rows, c, q) then Rejected
    else if c !in rows then Answer(Status(query, None, now))
    else if rows[c].requestId == q && rows[c].intent == query.intent
    then Answer(Status(query, Some(rows[c].receipt), now))
    else Rejected
  }

  class Collector {
    var rows: Collections

    constructor ()
      ensures rows == map[]
    {
      rows := map[];
    }

    method Accept(intent: Intent, now: int, receiptId: string, committed: bool) returns (reply: Reply<Receipt>)
      modifies this
      ensures (rows, reply) == Accepted(old(rows), intent, now, receiptId, committed)
    {
      var c, q := intent.collectionId, intent.target.requestId;
      if other :| other in rows && other != c && rows[other].requestId == q { return Rejected; }
      if c in rows {
        var existing := rows[c];
        if existing.requestId != q || existing.intent != intent { return Rejected; }
        return Answer(existing.receipt);
      }
      var saved := rows;
      var receipt := Receipt(intent, now, receiptId);
      rows := rows[c := Saved(q, intent, receipt)];
      if !committed {
        rows := saved;
        return Rejected;
      }
      return Answer(rows[c].receipt);
    }

    method Lookup(query: Query, now: int) returns (reply: Reply<Status>)
      ensures reply == LookedUp(rows, query, now)
    {
      var c, q := query.intent.collectionId, query.intent.target.requestId;
      if other :| other in rows && other != c && rows[other].requestId == q { return Rejected; }
      if c !in rows { return Answer(Status(query, None, now)); }
      if rows[c].requestId != q || rows[c].intent != query.intent { return Rejected; }
      return Answer(Status(query, Some(rows[c].receipt), now));
    }
  }

  /** An intent is new to the collector: neither of its identifiers is in use. */
  ghost predicate Free(rows: Collections, intent: Intent) {
    intent.collectionId !in rows && forall k :: k in rows ==> rows[k].requestId != intent.target.requestId
  }

  /** Both identifiers of the intent lead to the one row that holds it. */
  ghost predicate Kept(rows: Collections, intent: Intent) {
    && intent.collectionId in rows && rows[intent.collectionId].intent == intent
    && forall k :: k in rows ==> (rows[k].requestId == intent.target.requestId <==> k == intent.collectionId)
  }

  /** Only a new intent is saved, with the receipt that is handed out; a kept one gets its own
      receipt again and nothing else is answered. */
  lemma AcceptedExactly(rows: Collections, intent: Intent, now: int, receiptId: string, committed: bool)
    ensures var (rows', reply) := Accepted(rows, intent, now, receiptId, committed);
            var receipt := Receipt(intent, now, receiptId);
            if Free(rows, intent) && committed
            then && rows' == rows[intent.collectionId := Saved(intent.target.requestId, intent, receipt)]
                 && reply == Answer(receipt)
            else && rows' == rows
                 && reply == if Kept(rows, intent) then Answer(rows[intent.collectionId].receipt) else Rejected
  {
    if k :| k in rows && rows[k].requestId == intent.target.requestId && k != intent.collectionId {
      assert OtherRowHas(rows, intent.collectionId, intent.target.requestId);
    }
  }

  lemma LookedUpExactly(rows: Collections, query: Query, now: int)
    ensures LookedUp(rows, query, now) ==
            if Free(rows, query.intent) then Answer(Status(query, None, now))
            else if Kept(rows, query.intent)
            then Answer(Status(query, Some(rows[query.intent.collectionId].receipt), now))
            else Rejected
  {
    var intent := query.intent;
    if k :| k in rows && rows[k].requestId == intent.target.requestId && k != intent.collectionId {
      assert OtherRowHas(rows, intent.collectionId, intent.target.requestId);
    }
  }

  datatype StoreCall =
    | AcceptCall(intent: Intent, at: int, receiptId: string, committed: bool)
    | LookupCall(query: Query, at: int)

  function AfterCall(rows: Collections, c: StoreCall): Collections {
    if c.AcceptCall? then Accepted(rows, c.intent, c.at, c.receiptId, c.committed).0 else rows
  }

  function AfterCalls(rows: Collections, calls: seq<StoreCall>): Collections
    decreases |calls|
  {
    if calls == [] then rows else AfterCalls(AfterCall(rows, calls[0]), calls[1..])
  }

  /** The collector hands out this receipt, as an acknowledgement or inside a status. */
  predicate Issues(rows: Collections, c: StoreCall, r: Receipt) {
    match c
    case AcceptCall(intent, at, receiptId, committed) => Accepted(rows, intent, at, receiptId, committed).1 == Answer(r)
    case LookupCall(query, at) => LookedUp(rows, query, at) == Answer(Status(query, Some(r), at))
  }

  predicate Holds(rows: Collections, r: Receipt) {
    r.intent.collectionId in rows && rows[r.intent.collectionId] == Saved(r.intent.target.requestId, r.intent, r)
  }

  ghost predicate RowsBind(rows: Collections) {
    forall c :: c in rows ==> rows[c].receipt.intent == rows[c].intent && rows[c].intent.collectionId == c
  }

  lemma {:induction false} CallsKeep(rows: Collections, calls: seq<StoreCall>)
    requires RowsBind(rows)
    ensures RowsBind(AfterCalls(rows, calls)) && forall c :: c in rows ==>
      c in AfterCalls(rows, calls) && AfterCalls(rows, calls)[c] == rows[c]
    decreases |calls|
  {
    if calls != [] { CallsKeep(AfterCall(rows, calls[0]), calls[1..]); }
  }

  /** Whatever receipt the collector ever hands out is the one in its committed row for exactly
      that intent, from then on and for good. */
  lemma IssuedReceiptsAreDurable(before: seq<StoreCall>, c: StoreCall, after: seq<StoreCall>, r: Receipt)
    requires Issues(AfterCalls(map[], before), c, r)
    ensures Holds(AfterCalls(AfterCall(AfterCalls(map[], before), c), after), r)
  {
    CallsKeep(map[], before);
    var rows := AfterCalls(map[], before);
    assert RowsBind(AfterCall(rows, c)) && Holds(AfterCall(rows, c), r);
    CallsKeep(AfterCall(rows, c), after);
  }

  // ----- the gateway's journal

  datatype JournalState = DispatchIntent | BlockedAfterIntent | ResultUnknown | Confirmed | NotClaimed | Unavailable
  datatype Row = Row(requestId: string, target: Target, state: JournalState, intent: Intent, finished: bool)
  datatype ClaimStatus = CLAIMED | REPLAY | CONFLICT
  type Journal = map<string, Row>

  predicate RowOk(row: Row, requestId: string) {
    && row.requestId == requestId && row.target.requestId == requestId && row.intent.target == row.target
    && row.state !in {NotClaimed, Unavailable}
  }

  /** A row is the request's own in one of the four states that a row can be in. */
  lemma RowOkWhen(row: Row, requestId: string)
    ensures RowOk(row, requestId) <==>
      && row.requestId == requestId && row.target.requestId == requestId && row.intent.target == row.target
      && (row.state == DispatchIntent || row.state == BlockedAfterIntent || row.state == ResultUnknown
          || row.state == Confirmed)
  {
  }

  datatype JournalCall =
    | ClaimCall(target: Target, intent: Intent, committed: bool)
    | FinishCall(requestId: string, state: JournalState)

  /** The atomic claim and finish of the journal. */
  function ClaimReply(j: Journal, t: Target, intent: Intent, committed: bool): Option<(Row, ClaimStatus)> {
    if t.requestId in j then Some((j[t.requestId], if j[t.requestId].target == t then REPLAY else CONFLICT))
    else if committed then Some((Row(t.requestId, t, DispatchIntent, intent, false), CLAIMED))
    else None
  }

  function AfterJournalCall(j: Journal, c: JournalCall): Journal {
    match c
    case ClaimCall(t, intent, committed) =>
      if t.requestId in j || !committed then j else j[t.requestId := Row(t.requestId, t, DispatchIntent, intent, false)]
    case FinishCall(q, state) =>
      if q in j && !j[q].finished then j[q := j[q].(state := state, finished := true)] else j
  }

  function AfterJournalCalls(j: Journal, calls: seq<JournalCall>): Journal
    decreases |calls|
  {
    if calls == [] then j else AfterJournalCalls(AfterJournalCall(j, calls[0]), calls[1..])
  }

  lemma {:induction false} ClaimsLast(j: Journal, calls: seq<JournalCall>)
    ensures j.Keys <= AfterJournalCalls(j, calls).Keys
    decreases |calls|
  {
    if calls != [] { ClaimsLast(AfterJournalCall(j, calls[0]), calls[1..]); }
  }

  ghost predicate JournalOk(j: Journal) {
    forall q :: q in j ==> RowOk(j[q], q)
  }

  /** A journal keeps well-formed rows well-formed, whatever it is asked. */
  lemma CallKeepsJournal(j: Journal, c: JournalCall)
    requires JournalOk(j)
    requires c.ClaimCall? ==> c.intent.target == c.target
    requires c.FinishCall? ==> c.state !in {NotClaimed, Unavailable}
    ensures JournalOk(AfterJournalCall(j, c))
  {
  }

  /** What the journal answers is what a call tests for: a claim is acknowledged as new exactly
      once, with the row that is then stored, and later claims get that row and whether it is
      for the same target. */
  lemma JournalRepliesFit(j: Journal, t: Target, intent: Intent, committed: bool)
    requires JournalOk(j)
    ensures var reply, j' := ClaimReply(j, t, intent, committed), AfterJournalCall(j, ClaimCall(t, intent, committed));
      && (reply.None? <==> t.requestId !in j && !committed)
      && (reply.None? ==> j' == j)
      && (reply.Some? ==>
            var (row, disposition) := reply.value;
            && t.requestId in j' && j' == j[t.requestId := row]
            && (disposition == CLAIMED <==> t.requestId !in j)
            && (disposition == CLAIMED ==> row == Row(t.requestId, t, DispatchIntent, intent, false))
            && (disposition != CLAIMED ==> RowOk(row, t.requestId) && (disposition == REPLAY <==> row.target == t)))
  {
  }

  /** A result is written once: the first one stays. */
  lemma FirstResultStays(j: Journal, q: string, state: JournalState)
    ensures var j' := AfterJournalCall(j, FinishCall(q, state));
      && j'.Keys == j.Keys && (forall k :: k in j && k != q ==> j'[k] == j[k])
      && (q in j ==> j'[q] == if j[q].finished then j[q]
                              else Row(j[q].requestId, j[q].target, state, j[q].intent, true))
  {
  }

  // ----- one call of the gateway

  datatype Exchange<+T> = Exchange(attemptedAt: int, completedAt: int, code: Option<int>, response: Option<T>,
                                   genuine: bool, error: bool)

  predicate ExchangeOk<T>(x: Exchange<T>, requestAt: int, observedAt: int) {
    requestAt <= x.attemptedAt <= x.completedAt <= observedAt && (x.code.Some? ==> 100 <= x.code.value <= 599)
  }

  predicate Usable<T>(x: Exchange<T>) {
    !x.error && x.code.Some? && 200 <= x.code.value < 300 && x.response.Some?
  }

  datatype Lookup = LookupFails | NoRow | FoundRow(row: Row)
  datatype Observation = Observation(bodySent: bool, attemptedAt: int, dispatchedAt: Option<int>)

  /** Replies of the world to one call, in the order in which they are asked for.  `permit` and
      `finalPermit` are the permits that the assessor's verdicts rest on, if they authorize. */
  datatype Environment = Environment(
    at: int, firstLookup: Lookup, permit: Option<string>, endpointsPinned: bool,
    claim: Option<(Row, ClaimStatus)>, stateAfterClaim: JournalState,
    pinnedForCollect: bool, collected: Option<Exchange<Receipt>>, collectedAt: int, hookFails: bool,
    queryAt: int, nonce: string, pinnedForQuery: bool, status: Option<Exchange<Status>>, checkedAt: int,
    finalAt: int, finalFramed: bool, finalPermit: Option<string>, pinnedForSend: bool,
    sent: Option<Observation>, postAt: int, payloadReceipt: Option<string>,
    acknowledged: bool, stateAfterFinish: JournalState)

  /** `collectionId`: the collector's identifier for a request; the gateway key's validity. */
  datatype Config = Config(collectionId: string -> string, notBefore: int, notAfter: int)
  {
    predicate KeyOk(at: int) { notBefore <= at < notAfter }

    function IntentFor(t: Target, env: Environment): Intent
      requires env.permit.Some?
    {
      Intent(collectionId(t.requestId), t, env.permit.value, env.at)
    }
  }

  datatype Outcome = BlockedWithoutAttempt | OutcomeUnknown | ReplayNoSend | RequestIdConflict | ReceiptConfirmed
  datatype Report = Report(state: Outcome, attempted: bool, reason: string, journal: JournalState,
                           intent: Option<Intent>, receipt: Option<Receipt>, query: Option<Query>,
                           status: Option<Status>, finalAt: Option<int>, payloadReceipt: Option<string>)

  /** The first lookup gives the request's own row. */
  predicate OwnRow(requestId: string, env: Environment) {
    env.firstLookup.FoundRow? && RowOk(env.firstLookup.row, requestId)
  }

  /** Nothing is claimed yet, and the assessor, the key and the pinned endpoints allow a claim. */
  predicate Admitted(cfg: Config, env: Environment) {
    env.firstLookup == NoRow && env.permit.Some? && cfg.KeyOk(env.at) && env.endpointsPinned
  }

  predicate ClaimedHere(cfg: Config, t: Target, env: Environment) {
    && Admitted(cfg, env) && env.claim.Some?
    && env.claim.value == (Row(t.requestId, t, DispatchIntent, cfg.IntentFor(t, env), false), CLAIMED)
  }

  /** The journal acknowledges that another call made the claim. */
  predicate ClaimedBefore(cfg: Config, t: Target, env: Environment) {
    && Admitted(cfg, env) && env.claim.Some? && RowOk(env.claim.value.0, t.requestId)
    && env.claim.value.1 == (if env.claim.value.0.target == t then REPLAY else CONFLICT)
  }

  predicate Collected(intent: Intent, env: Environment) {
    && env.pinnedForCollect && env.collected.Some? && env.at <= env.collectedAt
    && var x := env.collected.value;
       && ExchangeOk(x, env.at, env.collectedAt) && Usable(x) && x.genuine
       && ReceiptVerifies(x.response.value, intent, x.completedAt)
  }

  predicate ReadBack(intent: Intent, receipt: Receipt, env: Environment) {
    && env.collectedAt <= env.queryAt && env.pinnedForQuery && env.status.Some? && env.queryAt <= env.checkedAt
    && var x := env.status.value;
       && ExchangeOk(x, env.queryAt, env.checkedAt) && Usable(x) && x.genuine
       && StatusVerifies(x.response.value, Query(intent, env.nonce, env.queryAt), intent, x.completedAt)
       && x.response.value.found == Some(receipt)
  }

  /** Everything that has to hold before the transport's send is entered. */
  predicate MaySend(cfg: Config, t: Target, env: Environment) {
    ClaimedHere(cfg, t, env) &&
    var intent := cfg.IntentFor(t, env);
    && Collected(intent, env) && !env.hookFails && ReadBack(intent, env.collected.value.response.value, env)
    && env.checkedAt <= env.finalAt && env.finalFramed && cfg.KeyOk(env.finalAt)
    && env.finalPermit == Some(intent.permit) && env.pinnedForSend
  }

  predicate ObservationOk(o: Observation, finalAt: int, postAt: int) {
    && finalAt <= o.attemptedAt <= postAt
    && (if o.bodySent then o.dispatchedAt.Some? && o.attemptedAt <= o.dispatchedAt.value <= postAt
        else o.dispatchedAt.None?)
  }

  /** What has to come back from the send for its receipt to count. */
  predicate ReceiptBack(cfg: Config, env: Environment) {
    && env.sent.Some? && env.finalAt <= env.postAt && ObservationOk(env.sent.value, env.finalAt, env.postAt)
    && cfg.KeyOk(env.postAt) && env.payloadReceipt.Some?
  }

  /** The answer to a call that finds the request claimed by another. */
  predicate Answers(r: Report, row: Row, t: Target) {
    r.state == (if row.target == t then ReplayNoSend else RequestIdConflict) && r.journal == row.state
  }

  /** Which state is reported, and how the journal is left. */
  predicate Concludes(cfg: Config, t: Target, env: Environment, r: Report) {
    if OwnRow(t.requestId, env) then Answers(r, env.firstLookup.row, t)
    else if env.firstLookup != NoRow then r.state == BlockedWithoutAttempt && r.journal == Unavailable
    else if !Admitted(cfg, env) then r.state == BlockedWithoutAttempt && r.journal == NotClaimed
    else if ClaimedBefore(cfg, t, env) then Answers(r, env.claim.value.0, t)
    else if !ClaimedHere(cfg, t, env) then r.state == BlockedWithoutAttempt && r.journal == env.stateAfterClaim
    else if !env.acknowledged then r.state == OutcomeUnknown && r.journal == env.stateAfterFinish
    else if !MaySend(cfg, t, env) then r.state == BlockedWithoutAttempt && r.journal == BlockedAfterIntent
    else if !ReceiptBack(cfg, env) then r.state == OutcomeUnknown && r.journal == ResultUnknown
    else r.state == ReceiptConfirmed && r.journal == Confirmed
  }

  /** The send is reported as attempted exactly when everything before it held, and a receipt as
      confirmed exactly when it then came back in order and the journal kept the outcome. */
  predicate Accountable(cfg: Config, t: Target, env: Environment, r: Report) {
    && (r.attempted <==> MaySend(cfg, t, env))
    && (r.state == ReceiptConfirmed <==> MaySend(cfg, t, env) && ReceiptBack(cfg, env) && env.acknowledged)
    && Concludes(cfg, t, env, r)
    && r.payloadReceipt == (if r.state == ReceiptConfirmed then env.payloadReceipt else None)
    && (r.attempted ==>
          && r.intent == Some(cfg.IntentFor(t, env)) && r.receipt == env.collected.value.response
          && r.status == env.status.value.response
          && r.query == Some(Query(r.intent.value, env.nonce, env.queryAt)) && r.finalAt == Some(env.finalAt))
  }

  method Persist(r: Report, state: JournalState, env: Environment) returns (p: Report)
    ensures p == if env.acknowledged then r.(journal := state)
                 else r.(state := OutcomeUnknown, reason := "JOURNAL_RESULT_PERSISTENCE_FAILED", payloadReceipt := None,
                         journal := env.stateAfterFinish)
  {
    p := r.(journal := state);
    if !env.acknowledged {
      p := p.(state := OutcomeUnknown, reason := "JOURNAL_RESULT_PERSISTENCE_FAILED", payloadReceipt := None,
              journal := env.stateAfterFinish);
    }
  }

  function Replayed(r: Report, row: Row, t: Target): Report {
    if row.target != t
    then r.(journal := row.state, state := RequestIdConflict, reason := "REQUEST_ID_ALREADY_BOUND_TO_DIFFERENT_ACTION")
    else r.(journal := row.state, state := ReplayNoSend, reason := "REQUEST_ALREADY_CLAIMED")
  }

  method Execute(cfg: Config, t: Target, env: Environment) returns (r: Report)
    ensures Accountable(cfg, t, env, r)
  {
    r := Report(BlockedWithoutAttempt, false, "NOT_ADMITTED", NotClaimed, None, None, None, None, None, None);
    if env.firstLookup == LookupFails || (env.firstLookup.FoundRow? && !RowOk(env.firstLookup.row, t.requestId)) {
      r := r.(reason := "JOURNAL_UNAVAILABLE_BEFORE_CLAIM", journal := Unavailable);
      return;
    }
    if env.firstLookup.FoundRow? {
      r := Replayed(r, env.firstLookup.row, t);
      return;
    }
    if env.permit.None? || !cfg.KeyOk(env.at) || !env.endpointsPinned {
      r := r.(reason := if env.permit.None? then "POLICY_OR_PERMIT_NOT_AUTHORIZED"
                        else if !cfg.KeyOk(env.at) then "CONFIGURED_GATEWAY_KEY_NOT_AUTHORIZED"
                        else "CONFIGURED_ENDPOINT_CHANGED");
      return;
    }
    r := Claim(cfg, t, env, r);
  }

  /** Only an acknowledged claim of exactly this intent goes on. */
  method Claim(cfg: Config, t: Target, env: Environment, start: Report) returns (r: Report)
    requires env.firstLookup == NoRow && env.permit.Some? && cfg.KeyOk(env.at) && env.endpointsPinned
    requires start == Report(BlockedWithoutAttempt, false, "NOT_ADMITTED", NotClaimed, None, None, None, None, None,
                             None)
    ensures Accountable(cfg, t, env, r)
  {
    var intent := cfg.IntentFor(t, env);
    r := start.(intent := Some(intent));
    if env.claim.None? {
      r := r.(reason := "JOURNAL_INTENT_COMMIT_NOT_ESTABLISHED", journal := env.stateAfterClaim);
      return;
    }
    var (row, disposition) := env.claim.value;
    var consistent := match disposition
      case CLAIMED => row.target == t && row.state == DispatchIntent && !row.finished && row.intent == intent
      case REPLAY => row.target == t
      case CONFLICT => row.target != t;
    if !RowOk(row, t.requestId) || !consistent {
      r := r.(reason := "JOURNAL_CLAIM_ACKNOWLEDGEMENT_NOT_ESTABLISHED", journal := env.stateAfterClaim);
      return;
    }
    if disposition != CLAIMED {
      r := Replayed(r, row, t);
      return;
    }
    r := CollectAndSend(cfg, t, env, r.(journal := DispatchIntent));
  }

  /** After the claim: every exit persists its outcome. */
  method CollectAndSend(cfg: Config, t: Target, env: Environment, start: Report) returns (r: Report)
    requires ClaimedHere(cfg, t, env)
    requires start == Report(BlockedWithoutAttempt, false, "NOT_ADMITTED", DispatchIntent, Some(cfg.IntentFor(t, env)),
                             None, None, None, None, None)
    ensures Accountable(cfg, t, env, r)
  {
    r := start;
    var intent := r.intent.value;
    if !env.pinnedForCollect || env.collected.None? || env.collectedAt < env.at
       || !ExchangeOk(env.collected.value, env.at, env.collectedAt) || !Usable(env.collected.value)
       || !env.collected.value.genuine
       || !ReceiptVerifies(env.collected.value.response.value, intent, env.collected.value.completedAt) {
      r := Persist(r.(reason := "COLLECTOR_ACKNOWLEDGEMENT_NOT_ESTABLISHED"), BlockedAfterIntent, env);
      return;
    }
    r := r.(receipt := env.collected.value.response);
    if env.hookFails {
      r := Persist(r.(reason := "TRUSTED_BEFORE_FINAL_HOOK_FAILED"), BlockedAfterIntent, env);
      return;
    }
    r := ReadBackAndSend(cfg, t, env, r);
  }

  method ReadBackAndSend(cfg: Config, t: Target, env: Environment, start: Report) returns (r: Report)
    requires ClaimedHere(cfg, t, env) && Collected(cfg.IntentFor(t, env), env) && !env.hookFails
    requires start == Report(BlockedWithoutAttempt, false, "NOT_ADMITTED", DispatchIntent, Some(cfg.IntentFor(t, env)),
                             env.collected.value.response, None, None, None, None)
    ensures Accountable(cfg, t, env, r)
  {
    r := start;
    var intent, receipt := r.intent.value, r.receipt.value;
    if env.queryAt < env.collectedAt {
      r := Persist(r.(reason := "COLLECTOR_READBACK_NOT_ESTABLISHED"), BlockedAfterIntent, env);
      return;
    }
    var query := Query(intent, env.nonce, env.queryAt);
    r := r.(query := Some(query));
    if !env.pinnedForQuery || env.status.None? || env.checkedAt < env.queryAt
       || !ExchangeOk(env.status.value, env.queryAt, env.checkedAt) || !Usable(env.status.value)
       || !env.status.value.genuine
       || !StatusVerifies(env.status.value.response.value, query, intent, env.status.value.completedAt)
       || (env.status.value.response.value.found.Some? && env.status.value.response.value.found.value != receipt) {
      r := Persist(r.(reason := "COLLECTOR_READBACK_NOT_ESTABLISHED"), BlockedAfterIntent, env);
      return;
    }
    var status := env.status.value.response.value;
    r := r.(status := Some(status));
    if status.found.None? {
      r := Persist(r.(reason := "COLLECTOR_RECORD_NOT_FOUND"), BlockedAfterIntent, env);
      return;
    }
    r := FinalCheckAndSend(cfg, t, env, r);
  }

  method FinalCheckAndSend(cfg: Config, t: Target, env: Environment, start: Report) returns (r: Report)
    requires ClaimedHere(cfg, t, env) && Collected(cfg.IntentFor(t, env), env) && !env.hookFails
    requires ReadBack(cfg.IntentFor(t, env), env.collected.value.response.value, env)
    requires start == Report(BlockedWithoutAttempt, false, "NOT_ADMITTED", DispatchIntent, Some(cfg.IntentFor(t, env)),
                             env.collected.value.response, Some(Query(cfg.IntentFor(t, env), env.nonce, env.queryAt)),
                             env.status.value.response, None, None)
    ensures Accountable(cfg, t, env, r)
  {
    r := start;
    if env.finalAt < env.checkedAt || !env.finalFramed {
      r := Persist(r.(reason := "FINAL_GATE_OBSERVATION_NOT_ESTABLISHED"), BlockedAfterIntent, env);
      return;
    }
    r := r.(finalAt := Some(env.finalAt));
    if !cfg.KeyOk(env.finalAt) {
      r := Persist(r.(reason := "GATEWAY_KEY_NOT_AUTHORIZED_AT_SEND"), BlockedAfterIntent, env);
      return;
    }
    if env.finalPermit != Some(r.intent.value.permit) {
      r := Persist(r.(reason := "FINAL_ASSESSOR_RECHECK_DID_NOT_ALLOW"), BlockedAfterIntent, env);
      return;
    }
    if !env.pinnedForSend {
      r := Persist(r.(reason := "CONFIGURED_ENDPOINT_CHANGED"), BlockedAfterIntent, env);
      return;
    }
    r := r.(attempted := true, state := OutcomeUnknown, reason := "RESPONSE_NOT_CONFIRMED");
    r := AfterSend(cfg, env, r);
  }

  /** Whatever comes back from the send, it is entered once and its outcome is persisted. */
  method AfterSend(cfg: Config, env: Environment, start: Report) returns (r: Report)
    requires start.attempted && start.state == OutcomeUnknown && start.payloadReceipt.None?
    ensures r == start.(state := r.state, reason := r.reason, journal := r.journal, payloadReceipt := r.payloadReceipt)
    ensures r.state == ReceiptConfirmed <==>
              && env.sent.Some? && env.finalAt <= env.postAt
              && ObservationOk(env.sent.value, env.finalAt, env.postAt)
              && cfg.KeyOk(env.postAt) && env.payloadReceipt.Some? && env.acknowledged
    ensures r.state != ReceiptConfirmed ==> r.state == OutcomeUnknown
    ensures r.payloadReceipt == if r.state == ReceiptConfirmed then env.payloadReceipt else None
    ensures r.journal == if !env.acknowledged then env.stateAfterFinish
                         else if r.state == ReceiptConfirmed then Confirmed else ResultUnknown
  {
    r := start;
    if env.sent.None? { r := r.(reason := "TRANSPORT_EXCEPTION"); }
    if env.postAt < env.finalAt {
      r := Persist(r.(reason := "POSTFLIGHT_CLOCK_NOT_ESTABLISHED"), ResultUnknown, env);
      return;
    }
    if env.sent.None? {
      r := Persist(r, ResultUnknown, env);
      return;
    }
    if !ObservationOk(env.sent.value, env.finalAt, env.postAt) {
      r := Persist(r.(reason := "TRANSPORT_OBSERVATION_NOT_ESTABLISHED"), ResultUnknown, env);
      return;
    }
    if !cfg.KeyOk(env.postAt) {
      r := Persist(r.(reason := "GATEWAY_KEY_NOT_AUTHORIZED_AT_POSTFLIGHT"), ResultUnknown, env);
      return;
    }
    if env.payloadReceipt.None? {
      r := Persist(r.(reason := "RECEIVER_RECEIPT_NOT_CONFIRMED"), ResultUnknown, env);
      return;
    }
    r := Persist(r.(payloadReceipt := env.payloadReceipt, state := ReceiptConfirmed,
                    reason := "PINNED_RECEIVER_ATTESTED_MATCHING_BYTES"),
                 Confirmed, env);
  }

  // ----- reconciliation

  datatype Reconciliation =
    RequestNotFound | JournalUnavailable | NotEstablished | RecordFound(receipt: Receipt) | RecordNotFound

  /** A fresh, genuine status for the saved intent came back in time. */
  predicate StatusOf(cfg: Config, intent: Intent, env: Environment) {
    && intent.createdAt <= env.queryAt && cfg.KeyOk(env.queryAt) && env.pinnedForQuery && env.status.Some?
    && env.queryAt <= env.checkedAt
    && var x := env.status.value;
       && ExchangeOk(x, env.queryAt, env.checkedAt) && Usable(x) && x.genuine
       && StatusVerifies(x.response.value, Query(intent, env.nonce, env.queryAt), intent, x.completedAt)
  }

  /** Read-only: it asks the collector about the saved intent and reports what it signed. */
  method Reconcile(cfg: Config, requestId: string, env: Environment) returns (r: Reconciliation)
    ensures r == RequestNotFound <==> env.firstLookup == NoRow
    ensures r == JournalUnavailable <==> env.firstLookup != NoRow && !OwnRow(requestId, env)
    ensures r == NotEstablished <==> OwnRow(requestId, env) && !StatusOf(cfg, env.firstLookup.row.intent, env)
    ensures r.RecordFound? ==> && ReceiptVerifies(r.receipt, env.firstLookup.row.intent, env.checkedAt)
                               && env.status.value.response.value.found == Some(r.receipt)
    ensures r == RecordNotFound ==> env.status.value.response.value.found.None?
  {
    if env.firstLookup == NoRow { return RequestNotFound; }
    if env.firstLookup == LookupFails || !RowOk(env.firstLookup.row, requestId) { return JournalUnavailable; }
    var intent := env.firstLookup.row.intent;
    if env.queryAt < intent.createdAt || !cfg.KeyOk(env.queryAt) || !env.pinnedForQuery || env.status.None?
       || env.checkedAt < env.queryAt || !ExchangeOk(env.status.value, env.queryAt, env.checkedAt)
       || !Usable(env.status.value) {
      return NotEstablished;
    }
    var x := env.status.value;
    if !x.genuine || !StatusVerifies(x.response.value, Query(intent, env.nonce, env.queryAt), intent, x.completedAt) {
      return NotEstablished;
    }
    return if x.response.value.found.Some? then RecordFound(x.response.value.found.value) else RecordNotFound;
  }

  // ----- what an attempt implies

  /** A send is entered exactly when the journal has just stored this call's intent, the collector
      acknowledged it and read the same receipt back, the second verdict rests on the same permit,
      and all times form one chain within the validity of the gateway's key. */
  lemma SendWhen(cfg: Config, t: Target, env: Environment)
    ensures MaySend(cfg, t, env) <==>
      && env.firstLookup == NoRow && env.permit.Some? && env.finalPermit == env.permit && !env.hookFails
      && env.endpointsPinned && env.pinnedForCollect && env.pinnedForQuery && env.finalFramed && env.pinnedForSend &&
      var intent := Intent(cfg.collectionId(t.requestId), t, env.permit.value, env.at);
      && env.claim == Some((Row(t.requestId, t, DispatchIntent, intent, false), CLAIMED))
      && env.collected.Some? && env.status.Some? &&
      var x, y := env.collected.value, env.status.value;
      && x.genuine && !x.error && x.code.Some? && 200 <= x.code.value && x.code.value < 300 && x.response.Some?
      && y.genuine && !y.error && y.code.Some? && 200 <= y.code.value && y.code.value < 300 && y.response.Some? &&
      var receipt, status := x.response.value, y.response.value;
      && receipt.intent == intent
      && status == Status(Query(intent, env.nonce, env.queryAt), Some(receipt), status.checkedAt)
      && cfg.notBefore <= env.at
      && env.at <= receipt.recordedAt && receipt.recordedAt <= x.completedAt
      && env.at <= x.attemptedAt && x.attemptedAt <= x.completedAt && x.completedAt <= env.collectedAt
      && env.collectedAt <= env.queryAt
      && env.queryAt <= status.checkedAt && status.checkedAt <= y.completedAt
      && env.queryAt <= y.attemptedAt && y.attemptedAt <= y.completedAt && y.completedAt <= env.checkedAt
      && env.checkedAt <= env.finalAt && env.finalAt < cfg.notAfter
  {
  }

  /** A receipt counts exactly when it verified, the send was reported within the call and the
      gateway's key was still valid afterwards. */
  lemma ReceiptBackWhen(cfg: Config, env: Environment)
    ensures ReceiptBack(cfg, env) <==>
      && env.payloadReceipt.Some? && env.sent.Some? &&
      var o := env.sent.value;
      && env.finalAt <= o.attemptedAt && o.attemptedAt <= env.postAt
      && (o.bodySent <==> o.dispatchedAt.Some?)
      && (o.bodySent ==> o.attemptedAt <= o.dispatchedAt.value && o.dispatchedAt.value <= env.postAt)
      && cfg.notBefore <= env.postAt && env.postAt < cfg.notAfter
  {
  }

  /** Which state a call reports, and where that leaves the journal: an earlier claim answers by
      its target; without a claim of its own a call is blocked; with one, its outcome stands only
      if the journal took it, and is then the receipt's, unknown after a send, or blocked before. */
  lemma ReportedWhen(cfg: Config, t: Target, env: Environment, r: Report)
    requires Accountable(cfg, t, env, r)
    ensures env.firstLookup.FoundRow? && RowOk(env.firstLookup.row, t.requestId) ==>
              && r.state == (if env.firstLookup.row.target == t then ReplayNoSend else RequestIdConflict)
              && r.journal == env.firstLookup.row.state
    ensures env.firstLookup == LookupFails || (env.firstLookup.FoundRow? && !RowOk(env.firstLookup.row, t.requestId))
            ==> r.state == BlockedWithoutAttempt && r.journal == Unavailable
    ensures env.firstLookup == NoRow ==>
      if env.permit.None? || !cfg.KeyOk(env.at) || !env.endpointsPinned
      then r.state == BlockedWithoutAttempt && r.journal == NotClaimed
      else
        var intent := Intent(cfg.collectionId(t.requestId), t, env.permit.value, env.at);
        match env.claim
        case None => r.state == BlockedWithoutAttempt && r.journal == env.stateAfterClaim
        case Some((row, disposition)) =>
          var earlier := RowOk(row, t.requestId) && disposition == (if row.target == t then REPLAY else CONFLICT);
          if earlier
          then && r.state == (if disposition == REPLAY then ReplayNoSend else RequestIdConflict)
               && r.journal == row.state
          else if !(row == Row(t.requestId, t, DispatchIntent, intent, false) && disposition == CLAIMED)
          then r.state == BlockedWithoutAttempt && r.journal == env.stateAfterClaim
          else if !env.acknowledged then r.state == OutcomeUnknown && r.journal == env.stateAfterFinish
          else if !MaySend(cfg, t, env) then r.state == BlockedWithoutAttempt && r.journal == BlockedAfterIntent
          else if !ReceiptBack(cfg, env) then r.state == OutcomeUnknown && r.journal == ResultUnknown
          else r.state == ReceiptConfirmed && r.journal == Confirmed
    ensures r.attempted <==> MaySend(cfg, t, env)
    ensures r.state == ReceiptConfirmed <==> MaySend(cfg, t, env) && ReceiptBack(cfg, env) && env.acknowledged
    ensures r.payloadReceipt == if r.state == ReceiptConfirmed then env.payloadReceipt else None
  {
  }

  /** What a call that entered the send hands on: its intent, the collector's receipt for it, the
      query and the status that read it back, and the time of the final check. */
  lemma EvidenceOfSend(cfg: Config, t: Target, env: Environment, r: Report)
    requires Accountable(cfg, t, env, r) && r.attempted
    ensures var intent := Intent(cfg.collectionId(t.requestId), t, env.permit.value, env.at);
            var query := Query(intent, env.nonce, env.queryAt);
            && r.intent == Some(intent) && r.query == Some(query) && r.finalAt == Some(env.finalAt)
            && r.receipt.Some? && r.receipt.value.intent == intent && r.receipt == env.collected.value.response
            && r.status.Some? && r.status.value.query == query && r.status.value.found == r.receipt
  {
  }

  /** A reconciliation relies exactly on a successful, genuine answer to its own query about the
      saved intent, whose times lie between the query and the check. */
  lemma StatusCountsWhen(cfg: Config, intent: Intent, env: Environment)
    ensures StatusOf(cfg, intent, env) <==>
      && env.pinnedForQuery && env.status.Some? && intent.createdAt <= env.queryAt
      && cfg.notBefore <= env.queryAt && env.queryAt < cfg.notAfter &&
      var y := env.status.value;
      && y.genuine && !y.error && y.code.Some? && 200 <= y.code.value && y.code.value < 300 && y.response.Some? &&
      var status := y.response.value;
      && status.query == Query(intent, env.nonce, env.queryAt)
      && env.queryAt <= y.attemptedAt && y.attemptedAt <= y.completedAt && y.completedAt <= env.checkedAt
      && env.queryAt <= status.checkedAt && status.checkedAt <= y.completedAt
      && (status.found.Some? ==>
            && status.found.value.intent == intent && intent.createdAt <= status.found.value.recordedAt
            && status.found.value.recordedAt <= status.checkedAt)
  {
  }

  /** The times before a send are ordered: admission, collection, query, check, final. */
  lemma AttemptTimesAreOrdered(cfg: Config, t: Target, env: Environment)
    requires MaySend(cfg, t, env)
    ensures var receipt, status := env.collected.value.response.value, env.status.value.response.value;
            && env.at <= receipt.recordedAt <= env.collectedAt <= env.queryAt
            && env.queryAt <= status.checkedAt <= env.checkedAt <= env.finalAt
    ensures cfg.KeyOk(env.at) && cfg.KeyOk(env.queryAt) && cfg.KeyOk(env.finalAt)
  {
  }

  /** Calls of the gateway in the order of their journal claims, other journal calls between. */
  datatype Run = Run(target: Target, env: Environment, committed: bool, heard: bool, between: seq<JournalCall>)

  function JournalAfter(cfg: Config, j: Journal, runs: seq<Run>): Journal
    requires forall k :: 0 <= k < |runs| ==> runs[k].env.permit.Some?
    decreases |runs|
  {
    if runs == [] then j
    else
      var r := runs[|runs| - 1];
      var before := AfterJournalCalls(JournalAfter(cfg, j, runs[..|runs| - 1]), r.between);
      AfterJournalCall(before, ClaimCall(r.target, cfg.IntentFor(r.target, r.env), r.committed))
  }

  /** Each call hears, if anything, what the journal really answered it. */
  ghost predicate Heard(cfg: Config, j: Journal, runs: seq<Run>)
    requires forall k :: 0 <= k < |runs| ==> runs[k].env.permit.Some?
  {
    forall k :: 0 <= k < |runs| ==> HeardAt(cfg, j, runs, k)
  }

  ghost predicate HeardAt(cfg: Config, j: Journal, runs: seq<Run>, k: int)
    requires 0 <= k < |runs| && forall i :: 0 <= i < |runs| ==> runs[i].env.permit.Some?
  {
    var r := runs[k];
    var before := AfterJournalCalls(JournalAfter(cfg, j, runs[..k]), r.between);
    r.env.claim == if r.heard then ClaimReply(before, r.target, cfg.IntentFor(r.target, r.env), r.committed) else None
  }

  lemma {:induction false} ClaimStays(cfg: Config, j: Journal, runs: seq<Run>, i: nat)
    requires forall k :: 0 <= k < |runs| ==> runs[k].env.permit.Some?
    requires i < |runs| && Heard(cfg, j, runs) && runs[i].env.claim.Some?
    ensures runs[i].target.requestId in JournalAfter(cfg, j, runs)
    decreases |runs|
  {
    var n := |runs| - 1;
    var r, past := runs[n], runs[..n];
    assert HeardAt(cfg, j, runs, i);
    if i < n {
      forall k | 0 <= k < n ensures HeardAt(cfg, j, past, k) {
        assert HeardAt(cfg, j, runs, k) && past[..k] == runs[..k];
      }
      ClaimStays(cfg, j, past, i);
      ClaimsLast(JournalAfter(cfg, j, past), r.between);
    }
  }

  /** However many calls for one request run side by side, at most one of them enters the
      transport's send. */
  lemma AtMostOneSend(cfg: Config, j: Journal, runs: seq<Run>, a: nat, b: nat)
    requires forall k :: 0 <= k < |runs| ==> runs[k].env.permit.Some?
    requires Heard(cfg, j, runs) && a < b < |runs| && runs[a].target.requestId == runs[b].target.requestId
    ensures !(MaySend(cfg, runs[a].target, runs[a].env) && MaySend(cfg, runs[b].target, runs[b].env))
  {
    var past := runs[..b];
    assert HeardAt(cfg, j, runs, a) && HeardAt(cfg, j, runs, b);
    forall k | 0 <= k < b ensures HeardAt(cfg, j, past, k) {
      assert HeardAt(cfg, j, runs, k) && past[..k] == runs[..k];
    }
    if runs[a].env.claim.Some? {
      ClaimStays(cfg, j, past, a);
      ClaimsLast(JournalAfter(cfg, j, past), runs[b].between);
    }
  }

  /** A send is backed: if genuine receipts are ones that the collector issued, the collector
      holds exactly this call's intent in a committed row before the send, and keeps it. */
  lemma SendIsBacked(cfg: Config, t: Target, env: Environment, before: seq<StoreCall>, c: StoreCall,
                     after: seq<StoreCall>)
    requires MaySend(cfg, t, env) && Issues(AfterCalls(map[], before), c, env.collected.value.response.value)
    ensures var rows := AfterCalls(AfterCall(AfterCalls(map[], before), c), after);
            && cfg.collectionId(t.requestId) in rows
            && rows[cfg.collectionId(t.requestId)].intent == cfg.IntentFor(t, env)
            && env.status.value.response.value.found == Some(rows[cfg.collectionId(t.requestId)].receipt)
  {
    IssuedReceiptsAreDurable(before, c, after, env.collected.value.response.value);
  }
}
