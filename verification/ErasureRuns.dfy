/** Concurrent, replayed and crashed `delete` calls over one journal: the unlink call is
    entered at most once per request, and only after that exact task's intent committed. */
module ErasureRuns {
  import opened Wrappers
  import opened ErasureProvider

  type Rows = map<string, Row>

  // ----- journal transactions

  /** None: the transaction failed and nothing was written. */
  function ClaimRow(pins: Pins, rows: Rows, t: Task, commit: bool): (Rows, Option<(Row, ClaimStatus)>)
    requires ValidTask(pins, t, t.requestedAt)
  {
    if t.requestId in rows then
      if !RowValid(pins, rows[t.requestId]) then (rows, None)
      else (rows, Some((rows[t.requestId], if rows[t.requestId].fingerprint == t then REPLAY else CONFLICT)))
    else if !commit then (rows, None)
    else
      var row := Row(t.requestId, t, None, t, None);
      (rows[t.requestId := row], Some((row, CLAIMED)))
  }

  function FinishRow(pins: Pins, rows: Rows, requestId: string, r: Result, commit: bool): (Rows, Option<Row>) {
    if !ResultValid(r) || !IsTerminal(r.state) || r.journal != Terminal(r.state) then (rows, None)
    else if requestId !in rows || !RowValid(pins, rows[requestId]) || rows[requestId].terminal.Some? || !commit
    then (rows, None)
    else
      var row := rows[requestId].(terminal := Some(r.state), result := Some(r));
      (rows[requestId := row], Some(row))
  }

  class ErasureJournal {
    const pins: Pins
    var rows: Rows

    constructor (pins: Pins)
      ensures this.pins == pins && rows == map[]
    {
      this.pins, rows := pins, map[];
    }

    method Claim(t: Task, commit: bool) returns (reply: Option<(Row, ClaimStatus)>)
      requires ValidTask(pins, t, t.requestedAt)
      modifies this
      ensures (rows, reply) == ClaimRow(pins, old(rows), t, commit)
    {
      if t.requestId in rows {
        var row := rows[t.requestId];
        if !RowValid(pins, row) { return None; }
        return Some((row, if row.fingerprint == t then REPLAY else CONFLICT));
      }
      var saved := rows;
      var intent := Row(t.requestId, t, None, t, None);
      rows := rows[t.requestId := intent];
      if !commit {
        rows := saved;
        return None;
      }
      return Some((intent, CLAIMED));
    }

    method Finish(requestId: string, r: Result, commit: bool) returns (reply: Option<Row>)
      modifies this
      ensures (rows, reply) == FinishRow(pins, old(rows), requestId, r, commit)
    {
      if !ResultValid(r) || !IsTerminal(r.state) || r.journal != Terminal(r.state) { return None; }
      if requestId !in rows || !RowValid(pins, rows[requestId]) { return None; }
      var row := rows[requestId];
      if row.terminal.Some? || !commit { return None; }
      var finished := row.(terminal := Some(r.state), result := Some(r));
      rows := rows[requestId := finished];
      return Some(finished);
    }
  }

  // ----- runs

  /** Between its acknowledged claim and its end, a call holds its erasure task; `entered` once
      it has gone into the unlink call. */
  datatype Call = Holding(task: Task, entered: bool)

  datatype Event =
    | IntentCommitted(task: Task)
    | UnlinkEntered(task: Task)
    | TerminalCommitted(task: Task, result: Result)

  datatype World = World(rows: Rows, calls: map<nat, Call>, log: seq<Event>)

  /** `heard` is false when the claim's acknowledgement never reaches the caller. */
  datatype Action =
    | Claim(id: nat, task: Task, commit: bool, heard: bool)
    | Unlink(id: nat)
    | Finish(id: nat, result: Result, commit: bool)
    | Crash(id: nat)

  function ClaimStep(pins: Pins, w: World, id: nat, t: Task, commit: bool, heard: bool): World {
    if id in w.calls || !ValidTask(pins, t, t.requestedAt) then w
    else
      var (rows, reply) := ClaimRow(pins, w.rows, t, commit);
      if reply.Some? && reply.value.1 == CLAIMED
      then World(rows, if heard then w.calls[id := Holding(t, false)] else w.calls, w.log + [IntentCommitted(t)])
      else w
  }

  function UnlinkStep(w: World, id: nat): World {
    if id !in w.calls || w.calls[id].entered then w
    else
      var t := w.calls[id].task;
      w.(calls := w.calls[id := Holding(t, true)], log := w.log + [UnlinkEntered(t)])
  }

  /** A call persists a result that says whether it went into the unlink call. */
  function FinishStep(pins: Pins, w: World, id: nat, r: Result, commit: bool): World {
    if id !in w.calls || r.attempted != w.calls[id].entered then w
    else
      var t := w.calls[id].task;
      var (rows, reply) := FinishRow(pins, w.rows, t.requestId, r, commit);
      World(rows, w.calls - {id}, if reply.Some? then w.log + [TerminalCommitted(t, r)] else w.log)
  }

  function Step(pins: Pins, w: World, a: Action): World {
    match a
    case Claim(id, t, commit, heard) => ClaimStep(pins, w, id, t, commit, heard)
    case Unlink(id) => UnlinkStep(w, id)
    case Finish(id, r, commit) => FinishStep(pins, w, id, r, commit)
    case Crash(id) => w.(calls := w.calls - {id})
  }

  function Run(pins: Pins, w: World, actions: seq<Action>): World
    decreases |actions|
  {
    if actions == [] then w else Run(pins, Step(pins, w, actions[0]), actions[1..])
  }

  function RequestOf(e: Event): string { e.task.requestId }

  function Rank(e: Event): nat {
    match e case IntentCommitted(_) => 0 case UnlinkEntered(_) => 1 case TerminalCommitted(_, _) => 2
  }

  /** The events of each request come in the order intent, unlink, terminal, each at most once. */
  ghost predicate InOrder(log: seq<Event>) {
    forall i, j :: 0 <= i < j < |log| && RequestOf(log[i]) == RequestOf(log[j]) ==> Rank(log[i]) < Rank(log[j])
  }

  /** Everything recorded about a request is about the erasure task of its row, and a terminal
      result reports an attempt exactly if the unlink was entered. */
  ghost predicate AboutItsRow(w: World, e: Event) {
    && RequestOf(e) in w.rows && w.rows[RequestOf(e)].snapshot == e.task && IntentCommitted(e.task) in w.log
    && (e.TerminalCommitted? ==>
          && w.rows[RequestOf(e)].terminal == Some(e.result.state) && w.rows[RequestOf(e)].result == Some(e.result)
          && (e.result.attempted <==> UnlinkEntered(e.task) in w.log))
  }

  /** The call's task is the one of its unfinished row, and nothing later than the call's own
      progress has been recorded. */
  ghost predicate CallOk(w: World, call: Call) {
    var q := call.task.requestId;
    && q in w.rows && w.rows[q].snapshot == call.task && w.rows[q].terminal.None?
    && IntentCommitted(call.task) in w.log && (call.entered ==> UnlinkEntered(call.task) in w.log)
    && forall e :: e in w.log && RequestOf(e) == q ==> Rank(e) <= (if call.entered then 1 else 0)
  }

  ghost predicate RowsOk(pins: Pins, rows: Rows) {
    forall q :: q in rows ==> RowValid(pins, rows[q]) && rows[q].requestId == q
  }

  ghost predicate Inv(pins: Pins, w: World) {
    RowsOk(pins, w.rows) && InvOfWorld(w)
  }

  ghost predicate InvOfWorld(w: World) {
    && InOrder(w.log)
    && (forall e :: e in w.log ==> AboutItsRow(w, e))
    && (forall id :: id in w.calls ==> CallOk(w, w.calls[id]))
    && OneCallEach(w.calls)
  }

  ghost predicate OneCallEach(calls: map<nat, Call>) {
    forall a, b :: a in calls && b in calls && a != b ==> calls[a].task.requestId != calls[b].task.requestId
  }

  /** Rows are never dropped, a row's task never changes and a terminal row never changes. */
  ghost predicate Extends(w: World, w': World) {
    && w.log <= w'.log
    && forall q :: q in w.rows ==> q in w'.rows && w'.rows[q].snapshot == w.rows[q].snapshot
                                   && (w.rows[q].terminal.Some? ==> w'.rows[q] == w.rows[q])
  }

  // ----- what each step keeps

  /** The world grows by one event, and only the row of its request may change. */
  ghost predicate GrowsBy(w: World, w': World, e: Event) {
    && w'.log == w.log + [e] && Extends(w, w')
    && forall q :: q in w.rows && q != RequestOf(e) ==> w'.rows[q] == w.rows[q]
  }

  lemma OtherEventKeeps(w: World, w': World, e: Event, d: Event)
    requires GrowsBy(w, w', e) && AboutItsRow(w, d) && RequestOf(d) != RequestOf(e)
    ensures AboutItsRow(w', d)
  {
  }

  lemma OtherCallKeeps(w: World, w': World, e: Event, call: Call)
    requires GrowsBy(w, w', e) && CallOk(w, call) && call.task.requestId != RequestOf(e)
    ensures CallOk(w', call)
  {
  }

  lemma InOrderAppend(log: seq<Event>, e: Event)
    requires InOrder(log) && forall d :: d in log && RequestOf(d) == RequestOf(e) ==> Rank(d) < Rank(e)
    ensures InOrder(log + [e])
  {
    forall i | 0 <= i < |log| && RequestOf(log[i]) == RequestOf(e) ensures Rank(log[i]) < Rank(e) {
      assert log[i] in log;
    }
  }

  /** It is enough to look at the request that the new event is about. */
  lemma GrowingKeeps(w: World, w': World, e: Event)
    requires InvOfWorld(w) && GrowsBy(w, w', e) && AboutItsRow(w', e) && OneCallEach(w'.calls)
    requires forall d :: d in w.log && RequestOf(d) == RequestOf(e) ==> Rank(d) < Rank(e) && AboutItsRow(w', d)
    requires forall x :: x in w'.calls ==>
      CallOk(w', w'.calls[x]) || (CallOk(w, w'.calls[x]) && w'.calls[x].task.requestId != RequestOf(e))
    ensures InvOfWorld(w')
  {
    InOrderAppend(w.log, e);
    forall d | d in w.log ensures AboutItsRow(w', d) {
      if RequestOf(d) != RequestOf(e) { OtherEventKeeps(w, w', e, d); }
    }
    forall x | x in w'.calls ensures CallOk(w', w'.calls[x]) {
      if !CallOk(w', w'.calls[x]) { OtherCallKeeps(w, w', e, w'.calls[x]); }
    }
  }

  lemma ClaimKeeps(pins: Pins, w: World, id: nat, t: Task, commit: bool, heard: bool)
    requires Inv(pins, w)
    ensures var w' := ClaimStep(pins, w, id, t, commit, heard); Inv(pins, w') && Extends(w, w')
  {
    var w' := ClaimStep(pins, w, id, t, commit, heard);
    if w' != w {
      assert w'.rows == w.rows[t.requestId := Row(t.requestId, t, None, t, None)];
      ClaimedKeeps(w, t, id, heard, w');
    }
  }

  lemma ClaimedKeeps(w: World, t: Task, id: nat, heard: bool, w': World)
    requires InvOfWorld(w) && t.requestId !in w.rows && id !in w.calls
    requires w'.rows == w.rows[t.requestId := Row(t.requestId, t, None, t, None)]
    requires w'.calls == (if heard then w.calls[id := Holding(t, false)] else w.calls)
    requires w'.log == w.log + [IntentCommitted(t)]
    ensures InvOfWorld(w') && Extends(w, w')
  {
    var e := IntentCommitted(t);
    assert e in w'.log;
    forall d | d in w.log ensures RequestOf(d) != t.requestId { assert AboutItsRow(w, d); }
    forall x | x in w.calls ensures w.calls[x].task.requestId != t.requestId { assert CallOk(w, w.calls[x]); }
    assert CallOk(w', Holding(t, false));
    GrowingKeeps(w, w', e);
  }

  lemma UnlinkKeeps(pins: Pins, w: World, id: nat)
    requires Inv(pins, w)
    ensures Inv(pins, UnlinkStep(w, id)) && Extends(w, UnlinkStep(w, id))
  {
    if id in w.calls && !w.calls[id].entered { UnlinkedKeeps(w, id, UnlinkStep(w, id)); }
  }

  lemma UnlinkedKeeps(w: World, id: nat, w': World)
    requires InvOfWorld(w) && id in w.calls && !w.calls[id].entered && w' == UnlinkStep(w, id)
    ensures InvOfWorld(w') && Extends(w, w')
  {
    var call, e := w.calls[id], UnlinkEntered(w.calls[id].task);
    assert CallOk(w, call);
    assert e in w'.log;
    forall d | d in w.log && RequestOf(d) == RequestOf(e) ensures Rank(d) < 1 && AboutItsRow(w', d) {
      assert AboutItsRow(w, d);
    }
    assert CallOk(w', Holding(call.task, true));
    GrowingKeeps(w, w', e);
  }

  lemma FinishKeeps(pins: Pins, w: World, id: nat, r: Result, commit: bool)
    requires Inv(pins, w)
    ensures var w' := FinishStep(pins, w, id, r, commit); Inv(pins, w') && Extends(w, w')
  {
    if id in w.calls && r.attempted == w.calls[id].entered {
      var t := w.calls[id].task;
      FinishedRow(pins, w.rows, t.requestId, r, commit);
      if FinishRow(pins, w.rows, t.requestId, r, commit).1.Some? {
        FinishedKeeps(w, id, r, FinishStep(pins, w, id, r, commit));
      } else {
        DropCallKeeps(w, id);
      }
    }
  }

  /** The finish transaction changes at most one unfinished row, and keeps rows valid. */
  lemma FinishedRow(pins: Pins, rows: Rows, q: string, r: Result, commit: bool)
    requires RowsOk(pins, rows)
    ensures var (rows', reply) := FinishRow(pins, rows, q, r, commit);
            && RowsOk(pins, rows') && (reply.None? ==> rows' == rows)
            && (reply.Some? ==> rows' == Ended(rows, q, r) && q in rows && rows[q].terminal.None?)
  {
  }

  function Ended(rows: Rows, q: string, r: Result): Rows {
    if q in rows then rows[q := rows[q].(terminal := Some(r.state), result := Some(r))] else rows
  }

  lemma FinishedKeeps(w: World, id: nat, r: Result, w': World)
    requires InvOfWorld(w) && id in w.calls && r.attempted == w.calls[id].entered
    requires var t := w.calls[id].task;
             w' == World(Ended(w.rows, t.requestId, r), w.calls - {id}, w.log + [TerminalCommitted(t, r)])
    ensures InvOfWorld(w') && Extends(w, w')
  {
    var call := w.calls[id];
    var e := TerminalCommitted(call.task, r);
    assert CallOk(w, call);
    forall d | d in w.log && RequestOf(d) == RequestOf(e) ensures Rank(d) < 2 && AboutItsRow(w', d) {
      assert AboutItsRow(w, d);
    }
    assert UnlinkEntered(call.task) in w.log ==> Rank(UnlinkEntered(call.task)) == 1;
    GrowingKeeps(w, w', e);
  }

  lemma DropCallKeeps(w: World, id: nat)
    requires InvOfWorld(w)
    ensures InvOfWorld(w.(calls := w.calls - {id})) && Extends(w, w.(calls := w.calls - {id}))
  {
    var w' := w.(calls := w.calls - {id});
    forall x | x in w'.calls ensures CallOk(w', w'.calls[x]) { assert CallOk(w, w.calls[x]); }
    forall e | e in w'.log ensures AboutItsRow(w', e) { assert AboutItsRow(w, e); }
  }

  lemma StepKeeps(pins: Pins, w: World, a: Action)
    requires Inv(pins, w)
    ensures Inv(pins, Step(pins, w, a)) && Extends(w, Step(pins, w, a))
  {
    match a
    case Claim(id, t, commit, heard) => ClaimKeeps(pins, w, id, t, commit, heard);
    case Unlink(id) => UnlinkKeeps(pins, w, id);
    case Finish(id, r, commit) => FinishKeeps(pins, w, id, r, commit);
    case Crash(id) => DropCallKeeps(w, id);
  }

  lemma {:induction false} RunKeeps(pins: Pins, w: World, actions: seq<Action>)
    requires Inv(pins, w)
    ensures Inv(pins, Run(pins, w, actions)) && Extends(w, Run(pins, w, actions))
    decreases |actions|
  {
    if actions != [] {
      var next := Step(pins, w, actions[0]);
      StepKeeps(pins, w, actions[0]);
      RunKeeps(pins, next, actions[1..]);
      var last := Run(pins, next, actions[1..]);
      assert w.log == next.log[..|w.log|] == last.log[..|w.log|];
    }
  }

  // ----- every schedule

  /** An event whose cause is recorded for the same request comes after it. */
  lemma CauseComesBefore(log: seq<Event>, cause: Event, j: nat)
    requires InOrder(log) && j < |log| && cause in log && RequestOf(cause) == RequestOf(log[j])
    requires Rank(cause) < Rank(log[j])
    ensures cause in log[..j]
  {
    var i :| 0 <= i < |log| && log[i] == cause;
    assert i < j;
    assert log[..j][i] == cause;
  }

  /** Over every schedule: per request at most one unlink and at most one terminal result; an
      unlink only after the intent of exactly its task, and never after the terminal result; a
      terminal result that reports an attempt only after the unlink of its task was entered; and
      a terminal row, once there, stays for good. */
  lemma OneShot(pins: Pins, before: seq<Action>, after: seq<Action>)
    ensures var w := Run(pins, World(map[], map[], []), before);
            var w' := Run(pins, w, after);
            && InOrder(w'.log)
            && (forall j :: 0 <= j < |w'.log| && w'.log[j].UnlinkEntered? ==>
                  IntentCommitted(w'.log[j].task) in w'.log[..j])
            && (forall j :: 0 <= j < |w'.log| && w'.log[j].TerminalCommitted? ==>
                  (w'.log[j].result.attempted <==> UnlinkEntered(w'.log[j].task) in w'.log[..j]))
            && (forall q :: q in w.rows && w.rows[q].terminal.Some? ==> q in w'.rows && w'.rows[q] == w.rows[q])
  {
    var start := World(map[], map[], []);
    var w := Run(pins, start, before);
    RunKeeps(pins, start, before);
    RunKeeps(pins, w, after);
    var w' := Run(pins, w, after);
    forall j | 0 <= j < |w'.log|
      ensures w'.log[j].UnlinkEntered? ==> IntentCommitted(w'.log[j].task) in w'.log[..j]
      ensures w'.log[j].TerminalCommitted? ==>
                (w'.log[j].result.attempted <==> UnlinkEntered(w'.log[j].task) in w'.log[..j])
    {
      var e := w'.log[j];
      assert e in w'.log;
      assert AboutItsRow(w', e);
      if e.UnlinkEntered? { CauseComesBefore(w'.log, IntentCommitted(e.task), j); }
      if e.TerminalCommitted? && e.result.attempted { CauseComesBefore(w'.log, UnlinkEntered(e.task), j); }
      assert forall d :: d in w'.log[..j] ==> d in w'.log;
    }
  }

  // ----- concurrent calls of `delete`

  /** The reply that lets `delete` go on to the unlink is exactly the one of a claim that found
      no row; and an acknowledged finish hands back exactly the row that `delete` compares with. */
  lemma JournalRepliesFit(pins: Pins, rows: Rows, t: Task, env: Environment, r: Result, commit: bool)
    requires RowsOk(pins, rows) && ValidTask(pins, t, t.requestedAt)
    ensures var reply := ClaimRow(pins, rows, t, commit).1;
            ClaimedByThisCall(pins, t, env.(claim := reply)) <==> t.requestId !in rows && commit
    ensures t.requestId in rows && rows[t.requestId] == Row(t.requestId, t, None, t, None) && IsTerminal(r.state)
            && r.journal == Terminal(r.state) && ResultValid(r) && commit ==>
              FinishRow(pins, rows, t.requestId, r, commit).1 == Some(Row(t.requestId, t, Some(r.state), t, Some(r)))
  {
  }

  /** A claim writes a row exactly for a request that has none; an earlier row comes back as it
      is, told to be the same task's or another's. */
  lemma ClaimRowWhen(pins: Pins, rows: Rows, t: Task, commit: bool)
    requires ValidTask(pins, t, t.requestedAt)
    ensures var (rows', reply) := ClaimRow(pins, rows, t, commit);
            var row := Row(t.requestId, t, None, t, None);
            if t.requestId !in rows
            then if commit then rows' == rows[t.requestId := row] && reply == Some((row, CLAIMED))
                 else rows' == rows && reply == None
            else && rows' == rows
                 && (reply.Some? <==> RowValid(pins, rows[t.requestId]))
                 && (reply.Some? ==> && reply.value.0 == rows[t.requestId] && reply.value.1 != CLAIMED
                                     && (reply.value.1 == REPLAY <==> rows[t.requestId].fingerprint == t))
  {
  }

  /** A finish ends exactly a valid row that has no result yet, with a well-formed terminal one. */
  lemma FinishRowWhen(pins: Pins, rows: Rows, requestId: string, r: Result, commit: bool)
    ensures var (rows', reply) := FinishRow(pins, rows, requestId, r, commit);
            && (reply.Some? <==>
                  && commit && ResultValid(r) && r.journal == Terminal(r.state)
                  && requestId in rows && RowValid(pins, rows[requestId]) && rows[requestId].terminal == None)
            && (reply.None? ==> rows' == rows)
            && (reply.Some? ==>
                  && rows' == rows[requestId := reply.value]
                  && reply.value == Row(rows[requestId].requestId, rows[requestId].fingerprint, Some(r.state),
                                        rows[requestId].snapshot, Some(r)))
  {
  }

  datatype JournalCall =
    | ClaimCall(task: Task, commit: bool)
    | FinishCall(requestId: string, result: Result, commit: bool)

  function AfterCall(pins: Pins, rows: Rows, c: JournalCall): Rows {
    match c
    case ClaimCall(t, commit) => if ValidTask(pins, t, t.requestedAt) then ClaimRow(pins, rows, t, commit).0 else rows
    case FinishCall(q, r, commit) => FinishRow(pins, rows, q, r, commit).0
  }

  function AfterCalls(pins: Pins, rows: Rows, calls: seq<JournalCall>): Rows
    decreases |calls|
  {
    if calls == [] then rows else AfterCalls(pins, AfterCall(pins, rows, calls[0]), calls[1..])
  }

  lemma {:induction false} ClaimsLast(pins: Pins, rows: Rows, calls: seq<JournalCall>)
    ensures rows.Keys <= AfterCalls(pins, rows, calls).Keys
    decreases |calls|
  {
    if calls != [] { ClaimsLast(pins, AfterCall(pins, rows, calls[0]), calls[1..]); }
  }

  /** A call hears what the journal answered it, or nothing. */
  predicate Heard(pins: Pins, rows: Rows, t: Task, env: Environment, commit: bool)
    requires ValidTask(pins, t, t.requestedAt)
  {
    env.claim == None || env.claim == ClaimRow(pins, rows, t, commit).1
  }

  /** However the journal transactions of two `delete` calls for one request interleave with
      any others, at most one of the two results that `delete` returns reports an attempt. */
  lemma AtMostOneAttempt(pins: Pins, rows: Rows, between: seq<JournalCall>, t: Task, env: Environment, commit: bool,
                         r: Result, t': Task, env': Environment, commit': bool, r': Result)
    requires ValidTask(pins, t, t.requestedAt) && ValidTask(pins, t', t'.requestedAt) && t.requestId == t'.requestId
    requires Accountable(pins, t, env, r) && Heard(pins, rows, t, env, commit)
    requires var later := AfterCalls(pins, AfterCall(pins, rows, ClaimCall(t, commit)), between);
             Accountable(pins, t', env', r') && Heard(pins, later, t', env', commit')
    ensures !(r.attempted && r'.attempted)
  {
    var claimed := AfterCall(pins, rows, ClaimCall(t, commit));
    if r.attempted {
      assert ClaimedByThisCall(pins, t, env);
      assert t.requestId in claimed;
      ClaimsLast(pins, claimed, between);
      assert !ClaimedByThisCall(pins, t', env');
    }
  }
}
