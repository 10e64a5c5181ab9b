/**
 Submitting recorded inputs to Core: the rows of the store, the tasks that work on
 them between two awaits, and the calls that have reached Core. The rows survive a
 crash and the tasks do not. What Core answers is chosen freely from a set of codes.
 */
module AgentInput {
  import opened Common

  type Id = string

  // ------------------------------------------------------------------ adapter

  const DEFINITE_CODES: set<string> := {
    "empty_agent_prompt", "invalid_agent_prompt", "pane_not_found", "agent_not_found",
    "agent_not_ready", "agent_blocked", "agent_session_changed", "terminal_identity_mismatch",
    "agent_kind_mismatch", "session_identity_mismatch", "agent_prompt_not_submitted",
    "agent_model_resume_timeout", "agent_not_running", "submission_identity_conflict",
    "invalid_submission_identity", "invalid_human_input_message", "invalid_choice_selection_ref"
  }

  const TEXT_MISMATCH := "input_text_mismatch"
  const SESSION_REQUIRED := "typed_input_session_required"
  const CAPABILITY_MISSING := "agent_input_typed_message_v1_unavailable"

  datatype Choice = Choice(actionSetId: string, optionId: string, sourceMessageId: string)

  datatype Request = Request(
    paneId: string,
    terminalId: string,
    agentKind: string,
    sessionId: Option<string>,
    text: string,
    inputText: string,
    choice: Option<Choice>)

  datatype State = Recorded | Attempting | Prepared | Observed | Terminal | Cancelled | Uncertain

  type ReceiptState = s: State | s.Prepared? || s.Observed? || s.Terminal? || s.Cancelled? witness Prepared

  // The fields that adoption looks at one by one, and all others together.
  datatype Receipt = Receipt(
    submissionId: Id,
    paneId: string,
    terminalId: string,
    agentKind: string,
    sessionId: string,
    state: ReceiptState,
    other: string)

  // What a command comes back with: a receipt, a failure whose text names a code, or one
  // whose text does not. The text is Core's own or that of the error that the reader
  // raised, such as the issue code of an answer of the wrong shape.
  datatype Answer = Replied(receipt: Receipt) | Failed(code: string) | TimedOut | BadJson | BadShape | Broken | Threw

  datatype Outcome = Received(receipt: Receipt) | Rejected(code: string) | Unsure(code: string)

  // The check made before any command is run.
  function Refusal(request: Request): Option<string>
  {
    if request.inputText != request.text then Some(TEXT_MISMATCH)
    else if request.choice.Some? && request.sessionId.None? then Some(SESSION_REQUIRED)
    else None
  }

  function FailureCode(answer: Answer, thrown: string): string
    requires !answer.Replied?
  {
    match answer
    case Failed(code) => code
    case TimedOut => "transport_timeout"
    case BadJson => "malformed_json"
    case BadShape => "invalid_response"
    case Broken => "transport_failure"
    case Threw => thrown
  }

  function SubmitOutcome(answer: Answer): Outcome
  {
    match answer
    case Replied(receipt) => Received(receipt)
    case _ =>
      var code := FailureCode(answer, "core_submission_failure");
      if answer.Failed? && code in DEFINITE_CODES then Rejected(code) else Unsure(code)
  }

  function QueryOutcome(answer: Answer): Outcome
  {
    match answer
    case Replied(receipt) => Received(receipt)
    case _ =>
      if answer == Failed("submission_not_found") then Unsure("receipt_not_found")
      else Unsure(FailureCode(answer, "core_receipt_query_failure"))
  }

  // -------------------------------------------------------------------- store

  datatype Row = Row(
    request: Request,
    state: State,
    attempted: bool,
    receipt: Option<Receipt>,
    uncertainty: Option<string>,
    cancellation: Option<string>)

  predicate LacksCapability(row: Row) { row.state.Uncertain? && row.uncertainty == Some(CAPABILITY_MISSING) }

  // What a direct drain claims, and what recovery claims for submission.
  predicate Claimable(row: Row) { row.state.Recorded? || LacksCapability(row) }

  predicate Resubmittable(row: Row) { (row.state.Recorded? && !row.attempted) || LacksCapability(row) }

  // What recovery looks at, for submission or only for a query.
  predicate Pending(row: Row) { row.state.Recorded? || row.state.Attempting? || row.state.Prepared? || row.state.Uncertain? }

  function Claimed(row: Row): Row { row.(state := Attempting, attempted := true) }

  predicate Matches(id: Id, row: Row, receipt: Receipt)
  {
    && receipt.submissionId == id && receipt.paneId == row.request.paneId
    && receipt.terminalId == row.request.terminalId && receipt.agentKind == row.request.agentKind
    && (row.request.sessionId.None? || receipt.sessionId == row.request.sessionId.value)
  }

  function Rank(state: State): nat
  {
    match state
    case Prepared => 1
    case Observed => 2
    case _ => 3
  }

  predicate CanAdopt(id: Id, row: Row, receipt: Receipt)
  {
    && Matches(id, row, receipt)
    && match row.state
       case Recorded => false
       case Terminal => receipt.state.Terminal? && row.receipt == Some(receipt)
       case Cancelled => receipt.state.Cancelled? && row.receipt == Some(receipt)
       case Attempting => true
       case Uncertain => true
       case _ => Rank(receipt.state) >= Rank(row.state)
  }

  function Adopted(row: Row, receipt: Receipt): Row
  {
    row.(state := receipt.state, receipt := Some(receipt), uncertainty := None)
  }

  function MarkedUncertain(row: Row, code: string): Row { row.(state := Uncertain, uncertainty := Some(code)) }

  function MarkedCancelled(row: Row, code: string): Row
  {
    row.(state := Cancelled, cancellation := Some(code), uncertainty := None)
  }

  // A direct drain writes its outcome only over states that allow it.
  function DrainSettled(id: Id, row: Row, outcome: Outcome): Row
  {
    match outcome
    case Received(receipt) =>
      if CanAdopt(id, row, receipt) then
        if row.state == receipt.state && row.receipt == Some(receipt) then row else Adopted(row, receipt)
      else if row.state.Attempting? || row.state.Uncertain? then MarkedUncertain(row, "receipt_not_adopted")
      else row
    case Rejected(code) => if row.state.Attempting? then MarkedCancelled(row, code) else row
    case Unsure(code) => if row.state.Attempting? || row.state.Uncertain? then MarkedUncertain(row, code) else row
  }

  // A recovery page fails as a whole when one of its outcomes has no place.
  predicate HasPlace(id: Id, row: Row, outcome: Outcome)
  {
    match outcome
    case Received(receipt) => CanAdopt(id, row, receipt)
    case Rejected(_) => row.state.Attempting?
    case Unsure(_) => row.state.Attempting? || row.state.Prepared? || row.state.Uncertain?
  }

  function PageSettled(row: Row, outcome: Outcome): Row
  {
    match outcome
    case Received(receipt) => Adopted(row, receipt)
    case Rejected(code) => MarkedCancelled(row, code)
    case Unsure(code) => MarkedUncertain(row, code)
  }

  // -------------------------------------------------------------------- tasks

  // Waiting for the capability check, for Core after a call or after a refusal
  // without one, for a query, or for the rest of the page.
  datatype Stage = Checking | Calling(refusal: Option<string>) | Querying | Concluded(outcome: Outcome) | Done

  datatype Task = Task(id: Id, page: Option<nat>, stage: Stage)

  datatype World = World(rows: map<Id, Row>, tasks: seq<Task>, sent: multiset<Id>)

  predicate Refused(code: string) { code == TEXT_MISMATCH || code == SESSION_REQUIRED }

  predicate MayReject(code: string) { Refused(code) || code in DEFINITE_CODES }

  // A row is cancelled by a rejection that names its reason, or by a receipt; it is
  // prepared or terminal by a receipt, and uncertain for a reason. A receipt that was adopted
  // is the row's own, and one that says more than prepared still stands.
  predicate RowOk(id: Id, row: Row)
  {
    && (row.receipt.Some? ==> Matches(id, row, row.receipt.value))
    && (row.receipt.Some? && !row.receipt.value.state.Prepared? ==> row.state == row.receipt.value.state && row.cancellation.None?)
    && (row.receipt.Some? && row.state == row.receipt.value.state ==> row.uncertainty.None?)
    && (row.state.Recorded? ==> !row.attempted)
    && (row.cancellation.Some? ==> row.state.Cancelled? && row.uncertainty.None? && MayReject(row.cancellation.value))
    && (row.state.Cancelled? && row.cancellation.None? ==> row.receipt.Some? && row.receipt.value.state.Cancelled?)
    && (row.state.Prepared? || row.state.Terminal? ==> row.receipt.Some? && row.receipt.value.state == row.state)
    && (row.state.Uncertain? ==> row.uncertainty.Some?)
  }

  predicate OutcomeOk(outcome: Outcome) { outcome.Rejected? ==> MayReject(outcome.code) }

  predicate TaskOk(task: Task)
  {
    match task.stage
    case Calling(refusal) => refusal.Some? ==> Refused(refusal.value)
    case Concluded(outcome) => OutcomeOk(outcome)
    case _ => true
  }

  // Every task works on a row that has been claimed or attempted before.
  predicate TaskIn(rows: map<Id, Row>, task: Task)
  {
    task.id in rows && !rows[task.id].state.Recorded? && TaskOk(task)
  }

  ghost predicate Grounded(w: World)
  {
    && (forall id :: id in w.rows ==> RowOk(id, w.rows[id]))
    && (forall t :: 0 <= t < |w.tasks| ==> TaskIn(w.rows, w.tasks[t]))
    && (forall id :: id in w.sent ==> id in w.rows && Refusal(w.rows[id].request).None?)
  }

  predicate Live(w: World, t: nat) { t < |w.tasks| && w.tasks[t].id in w.rows }

  function Staged(w: World, t: nat, stage: Stage): World
    requires t < |w.tasks|
  {
    w.(tasks := w.tasks[t := w.tasks[t].(stage := stage)])
  }

  function Admitted(w: World, id: Id, request: Request): World
  {
    if id in w.rows then w else w.(rows := w.rows[id := Row(request, Recorded, false, None, None, None)])
  }

  function Drained(w: World, id: Id): World
  {
    if id in w.rows && Claimable(w.rows[id]) then
      w.(rows := w.rows[id := Claimed(w.rows[id])], tasks := w.tasks + [Task(id, None, Checking)])
    else w
  }

  function PagedOne(w: World, id: Id, page: nat): World
    requires id in w.rows
  {
    if Resubmittable(w.rows[id]) then
      w.(rows := w.rows[id := Claimed(w.rows[id])], tasks := w.tasks + [Task(id, Some(page), Checking)])
    else w.(tasks := w.tasks + [Task(id, Some(page), Querying)])
  }

  function Paged(w: World, ids: seq<Id>, page: nat): World
    requires forall i :: 0 <= i < |ids| ==> ids[i] in w.rows
    decreases |ids|
  {
    if ids == [] then w else Paged(PagedOne(w, ids[0], page), ids[1..], page)
  }

  // A direct drain writes its outcome at once; a recovery task hands it to its page.
  function Reported(w: World, t: nat, outcome: Outcome): World
    requires Live(w, t)
  {
    var id := w.tasks[t].id;
    if w.tasks[t].page.Some? then Staged(w, t, Concluded(outcome))
    else Staged(w, t, Done).(rows := w.rows[id := DrainSettled(id, w.rows[id], outcome)])
  }

  // The check of the typed-input capability, which only typed inputs need.
  function CapabilityOutcome(request: Request, capable: Option<bool>): Option<Outcome>
  {
    if request.choice.None? then None
    else if request.sessionId.None? then Some(Rejected(SESSION_REQUIRED))
    else if capable == Some(true) then None
    else Some(Unsure(CAPABILITY_MISSING))
  }

  function Proceeded(w: World, t: nat, capable: Option<bool>): World
    requires Live(w, t)
  {
    var request := w.rows[w.tasks[t].id].request;
    var failure := CapabilityOutcome(request, capable);
    if failure.Some? then Reported(w, t, failure.value)
    else
      var refusal := Refusal(request);
      var called := Staged(w, t, Calling(refusal));
      if refusal.Some? then called else called.(sent := w.sent + multiset{w.tasks[t].id})
  }

  // A refusal takes the place of the answer to a call that was not made.
  function TaskOutcome(stage: Stage, answer: Answer): Outcome
    requires stage.Calling? || stage.Querying?
  {
    match stage
    case Calling(Some(code)) => Rejected(code)
    case Calling(None) => SubmitOutcome(answer)
    case Querying => QueryOutcome(answer)
  }

  function Answered(w: World, t: nat, answer: Answer): World
    requires Live(w, t) && (w.tasks[t].stage.Calling? || w.tasks[t].stage.Querying?)
  {
    Reported(w, t, TaskOutcome(w.tasks[t].stage, answer))
  }

  predicate OnPage(task: Task, page: nat) { task.page == Some(page) }

  function Closed(tasks: seq<Task>, page: nat): seq<Task>
  {
    if tasks == [] then [] else [if OnPage(tasks[0], page) then tasks[0].(stage := Done) else tasks[0]] + Closed(tasks[1..], page)
  }

  // The page's outcomes from task t on, one after the other; none when one has no place.
  function Settled(w: World, page: nat, t: nat): Option<World>
    requires t <= |w.tasks|
    decreases |w.tasks| - t
  {
    if t == |w.tasks| then Some(w)
    else if !OnPage(w.tasks[t], page) then Settled(w, page, t + 1)
    else if !CanSettle(w, t) then None
    else Settled(SettledOne(w, t), page, t + 1)
  }

  predicate CanSettle(w: World, t: nat)
    requires t < |w.tasks|
  {
    Live(w, t) && w.tasks[t].stage.Concluded? && HasPlace(w.tasks[t].id, w.rows[w.tasks[t].id], w.tasks[t].stage.outcome)
  }

  function SettledOne(w: World, t: nat): World
    requires t < |w.tasks| && CanSettle(w, t)
  {
    var id := w.tasks[t].id;
    Staged(w, t, Done).(rows := w.rows[id := PageSettled(w.rows[id], w.tasks[t].stage.outcome)])
  }

  // One transaction: all outcomes of the page, or none.
  function Completed(w: World, page: nat): World
  {
    var all := Settled(w, page, 0);
    if all.Some? then all.value else w.(tasks := Closed(w.tasks, page))
  }

  // --------------------------------------------------------------------- runs

  datatype Event =
    | Admits(id: Id, request: Request)
    | Drains(id: Id)
    | ClaimsPage(ids: seq<Id>)
    | Proceeds(t: nat, capable: Option<bool>)
    | Answers(t: nat, answer: Answer)
    | CompletesPage(page: nat)
    | Observes(id: Id)
    | Crashes

  // Core's named failures come from `codes`.
  predicate Allowed(answer: Answer, codes: set<string>) { answer.Failed? ==> answer.code in codes }

  predicate Step(w: World, e: Event, w': World, codes: set<string>)
  {
    match e
    case Admits(id, request) => w' == Admitted(w, id, request)
    case Drains(id) => w' == Drained(w, id)
    case ClaimsPage(ids) =>
      && (forall i :: 0 <= i < |ids| ==> ids[i] in w.rows && Pending(w.rows[ids[i]]))
      && (forall i, j :: 0 <= i < j < |ids| ==> ids[i] != ids[j])
      && w' == Paged(w, ids, |w.tasks|)
    case Proceeds(t, capable) => Live(w, t) && w.tasks[t].stage.Checking? && w' == Proceeded(w, t, capable)
    case Answers(t, answer) =>
      && Live(w, t) && (w.tasks[t].stage.Calling? || w.tasks[t].stage.Querying?)
      && Allowed(answer, codes) && w' == Answered(w, t, answer)
    case CompletesPage(page) =>
      && (forall t :: 0 <= t < |w.tasks| && OnPage(w.tasks[t], page) ==> w.tasks[t].stage.Concluded?)
      && w' == Completed(w, page)
    case Observes(id) =>
      && id in w.rows && Pending(w.rows[id]) && !w.rows[id].state.Recorded?
      && w' == w.(rows := w.rows[id := w.rows[id].(state := Observed)])
    case Crashes => w' == w.(tasks := [])
  }

  predicate Run(states: seq<World>, events: seq<Event>, codes: set<string>)
  {
    && |states| == |events| + 1 && states[0] == World(map[], [], multiset{})
    && forall i :: 0 <= i < |events| ==> Step(states[i], events[i], states[i + 1], codes)
  }

  // ------------------------------------------------------- what a step keeps

  // A row once claimed never goes back to recorded, what was observed stays so until it ends,
  // an ended row stays as it is, and no request changes.
  predicate Later(before: Row, after: Row)
  {
    && after.request == before.request
    && (!before.state.Recorded? ==> !after.state.Recorded?)
    && (before.state.Observed? ==> after.state.Observed? || after.state.Terminal? || after.state.Cancelled?)
    && (before.state.Terminal? || before.state.Cancelled? ==>
          after.state == before.state && after.receipt == before.receipt && after.cancellation == before.cancellation)
  }

  predicate RowsLater(before: map<Id, Row>, after: map<Id, Row>)
  {
    forall id :: id in before ==> id in after && Later(before[id], after[id])
  }

  // One row moves on.
  lemma RowMovesOn(w: World, id: Id, row: Row)
    requires Grounded(w) && id in w.rows && RowOk(id, row) && Later(w.rows[id], row)
    ensures Grounded(w.(rows := w.rows[id := row])) && RowsLater(w.rows, w.rows[id := row])
  {
  }

  lemma TaskMovesOn(w: World, t: nat, stage: Stage)
    requires Grounded(w) && t < |w.tasks| && TaskOk(w.tasks[t].(stage := stage))
    ensures Grounded(Staged(w, t, stage))
  {
  }

  lemma TaskJoins(w: World, task: Task)
    requires Grounded(w) && TaskIn(w.rows, task)
    ensures Grounded(w.(tasks := w.tasks + [task]))
  {
  }

  lemma SettlingMovesOn(id: Id, row: Row, outcome: Outcome)
    requires RowOk(id, row) && OutcomeOk(outcome) && !row.state.Recorded?
    ensures RowOk(id, DrainSettled(id, row, outcome)) && Later(row, DrainSettled(id, row, outcome))
    ensures HasPlace(id, row, outcome) ==> RowOk(id, PageSettled(row, outcome)) && Later(row, PageSettled(row, outcome))
  {
  }

  lemma SettledOneGrounded(w: World, t: nat)
    requires Grounded(w) && t < |w.tasks| && CanSettle(w, t)
    ensures Grounded(SettledOne(w, t)) && RowsLater(w.rows, SettledOne(w, t).rows)
  {
    var task := w.tasks[t];
    assert TaskIn(w.rows, task);
    SettlingMovesOn(task.id, w.rows[task.id], task.stage.outcome);
    TaskMovesOn(w, t, Done);
    RowMovesOn(Staged(w, t, Done), task.id, PageSettled(w.rows[task.id], task.stage.outcome));
  }

  lemma ClaimGrounded(w: World, id: Id, page: Option<nat>)
    requires Grounded(w) && id in w.rows && Claimable(w.rows[id])
    ensures var rows := w.rows[id := Claimed(w.rows[id])];
      Grounded(w.(rows := rows, tasks := w.tasks + [Task(id, page, Checking)])) && RowsLater(w.rows, rows)
  {
    RowMovesOn(w, id, Claimed(w.rows[id]));
    TaskJoins(w.(rows := w.rows[id := Claimed(w.rows[id])]), Task(id, page, Checking));
  }

  lemma PagedOneGrounded(w: World, id: Id, page: nat)
    requires Grounded(w) && id in w.rows
    ensures Grounded(PagedOne(w, id, page)) && RowsLater(w.rows, PagedOne(w, id, page).rows)
  {
    if Resubmittable(w.rows[id]) { ClaimGrounded(w, id, Some(page)); } else { TaskJoins(w, Task(id, Some(page), Querying)); }
  }

  lemma {:induction false} PageGrounded(w: World, ids: seq<Id>, page: nat)
    requires Grounded(w) && forall i :: 0 <= i < |ids| ==> ids[i] in w.rows
    ensures Grounded(Paged(w, ids, page)) && RowsLater(w.rows, Paged(w, ids, page).rows)
    decreases |ids|
  {
    if ids != [] {
      PagedOneGrounded(w, ids[0], page);
      PageGrounded(PagedOne(w, ids[0], page), ids[1..], page);
    }
  }

  lemma ReportGrounded(w: World, t: nat, outcome: Outcome)
    requires Grounded(w) && Live(w, t) && OutcomeOk(outcome)
    ensures Grounded(Reported(w, t, outcome)) && RowsLater(w.rows, Reported(w, t, outcome).rows)
  {
    var task := w.tasks[t];
    assert TaskIn(w.rows, task);
    if task.page.Some? {
      TaskMovesOn(w, t, Concluded(outcome));
    } else {
      SettlingMovesOn(task.id, w.rows[task.id], outcome);
      TaskMovesOn(w, t, Done);
      RowMovesOn(Staged(w, t, Done), task.id, DrainSettled(task.id, w.rows[task.id], outcome));
    }
  }

  lemma ProceedGrounded(w: World, t: nat, capable: Option<bool>)
    requires Grounded(w) && Live(w, t)
    ensures Grounded(Proceeded(w, t, capable)) && RowsLater(w.rows, Proceeded(w, t, capable).rows)
  {
    var request := w.rows[w.tasks[t].id].request;
    var failure := CapabilityOutcome(request, capable);
    if failure.Some? { ReportGrounded(w, t, failure.value); } else { TaskMovesOn(w, t, Calling(Refusal(request))); }
  }

  lemma AnswerGrounded(w: World, t: nat, answer: Answer)
    requires Grounded(w) && Live(w, t) && (w.tasks[t].stage.Calling? || w.tasks[t].stage.Querying?)
    ensures Grounded(Answered(w, t, answer)) && RowsLater(w.rows, Answered(w, t, answer).rows)
  {
    assert TaskIn(w.rows, w.tasks[t]);
    ReportGrounded(w, t, TaskOutcome(w.tasks[t].stage, answer));
  }

  lemma LaterTwice(a: map<Id, Row>, b: map<Id, Row>, c: map<Id, Row>)
    requires RowsLater(a, b) && RowsLater(b, c)
    ensures RowsLater(a, c)
  {
  }

  lemma {:induction false} SettleGrounded(w: World, page: nat, t: nat)
    requires Grounded(w) && t <= |w.tasks|
    ensures Settled(w, page, t).Some? ==> Grounded(Settled(w, page, t).value) && RowsLater(w.rows, Settled(w, page, t).value.rows)
    decreases |w.tasks| - t
  {
    if t < |w.tasks| {
      if !OnPage(w.tasks[t], page) {
        SettleGrounded(w, page, t + 1);
      } else if CanSettle(w, t) {
        SettledOneGrounded(w, t);
        SettleGrounded(SettledOne(w, t), page, t + 1);
        if Settled(w, page, t).Some? { LaterTwice(w.rows, SettledOne(w, t).rows, Settled(w, page, t).value.rows); }
      }
    }
  }

  lemma {:induction false} ClosedAt(tasks: seq<Task>, page: nat, t: nat)
    requires t < |tasks|
    ensures |Closed(tasks, page)| == |tasks|
    ensures Closed(tasks, page)[t] == if OnPage(tasks[t], page) then tasks[t].(stage := Done) else tasks[t]
  {
    if t > 0 { ClosedAt(tasks[1..], page, t - 1); } else if |tasks| > 1 { ClosedAt(tasks[1..], page, 0); }
  }

  lemma CompleteGrounded(w: World, page: nat)
    requires Grounded(w)
    ensures Grounded(Completed(w, page)) && RowsLater(w.rows, Completed(w, page).rows)
  {
    SettleGrounded(w, page, 0);
    if Settled(w, page, 0).None? {
      var closed := Closed(w.tasks, page);
      if w.tasks != [] { ClosedAt(w.tasks, page, 0); }
      forall t | 0 <= t < |closed| ensures TaskIn(w.rows, closed[t]) { ClosedAt(w.tasks, page, t); }
    }
  }

  /**
   Every step keeps the rows sound: a claimed row is never recorded again, an ended
   one stays ended, and only a refusal or a definite code cancels one.
   */
  lemma StepGrounded(w: World, e: Event, w': World, codes: set<string>)
    requires Grounded(w) && Step(w, e, w', codes)
    ensures Grounded(w') && RowsLater(w.rows, w'.rows)
  {
    match e
    case Admits(id, request) => AdmitGrounded(w, id, request);
    case Drains(id) => if id in w.rows && Claimable(w.rows[id]) { ClaimGrounded(w, id, None); }
    case ClaimsPage(ids) => PageGrounded(w, ids, |w.tasks|);
    case Proceeds(t, capable) => ProceedGrounded(w, t, capable);
    case Answers(t, answer) => AnswerGrounded(w, t, answer);
    case CompletesPage(page) => CompleteGrounded(w, page);
    case Observes(id) => ObserveGrounded(w, id);
    case Crashes =>
  }

  lemma ObserveGrounded(w: World, id: Id)
    requires Grounded(w) && id in w.rows && Pending(w.rows[id]) && !w.rows[id].state.Recorded?
    ensures var rows := w.rows[id := w.rows[id].(state := Observed)]; Grounded(w.(rows := rows)) && RowsLater(w.rows, rows)
  {
    RowMovesOn(w, id, w.rows[id].(state := Observed));
  }

  lemma AdmitGrounded(w: World, id: Id, request: Request)
    requires Grounded(w)
    ensures Grounded(Admitted(w, id, request)) && RowsLater(w.rows, Admitted(w, id, request).rows)
  {
  }

  // ------------------------------------------------------- permission to send

  // One submission's single permission to reach Core: the row holds it until a claim,
  // then the task, and the call uses it up. A missing capability hands it back, and a
  // refusal keeps it for good.
  predicate Unsent(outcome: Outcome)
  {
    outcome == Unsure(CAPABILITY_MISSING) || (outcome.Rejected? && Refused(outcome.code))
  }

  predicate RefusedUnsent(row: Row) { row.cancellation.Some? && Refused(row.cancellation.value) }

  function OfRow(rows: map<Id, Row>, id: Id): nat
  {
    if id in rows && (Claimable(rows[id]) || RefusedUnsent(rows[id])) then 1 else 0
  }

  function OfStage(stage: Stage): nat
  {
    match stage
    case Checking => 1
    case Calling(refusal) => if refusal.Some? then 1 else 0
    case Concluded(outcome) => if Unsent(outcome) then 1 else 0
    case _ => 0
  }

  function OfTask(task: Task, id: Id): nat { if task.id == id then OfStage(task.stage) else 0 }

  function OfTasks(tasks: seq<Task>, id: Id): nat
  {
    if tasks == [] then 0 else OfTask(tasks[0], id) + OfTasks(tasks[1..], id)
  }

  function Permissions(w: World, id: Id): nat { OfRow(w.rows, id) + OfTasks(w.tasks, id) + w.sent[id] }

  lemma {:induction false} OneTaskChanges(tasks: seq<Task>, t: nat, task: Task, id: Id)
    requires t < |tasks|
    ensures OfTasks(tasks[t := task], id) == OfTasks(tasks, id) - OfTask(tasks[t], id) + OfTask(task, id)
  {
    var after := tasks[t := task];
    if t == 0 {
      assert after[1..] == tasks[1..];
    } else {
      assert after[1..] == tasks[1..][t - 1 := task];
      OneTaskChanges(tasks[1..], t - 1, task, id);
    }
  }

  lemma {:induction false} OneTaskMore(tasks: seq<Task>, task: Task, id: Id)
    ensures OfTasks(tasks + [task], id) == OfTasks(tasks, id) + OfTask(task, id)
  {
    if tasks == [] {
      assert [] + [task] == [task];
    } else {
      assert (tasks + [task])[1..] == tasks[1..] + [task];
      OneTaskMore(tasks[1..], task, id);
    }
  }

  lemma {:induction false} ClosingDropsTasks(tasks: seq<Task>, page: nat, id: Id)
    ensures OfTasks(Closed(tasks, page), id) <= OfTasks(tasks, id)
  {
    if tasks != [] { ClosingDropsTasks(tasks[1..], page, id); }
  }

  lemma {:induction false} NoTaskNoPermission(tasks: seq<Task>, id: Id)
    requires forall t :: 0 <= t < |tasks| ==> tasks[t].id != id
    ensures OfTasks(tasks, id) == 0
  {
    if tasks != [] { NoTaskNoPermission(tasks[1..], id); }
  }

  lemma AdmitPermits(w: World, id: Id, request: Request, other: Id)
    requires Grounded(w)
    ensures Permissions(Admitted(w, id, request), other) <= Max(1, Permissions(w, other))
  {
    if id !in w.rows && other == id { NoTaskNoPermission(w.tasks, id); }
  }

  lemma ClaimPermits(w: World, id: Id, page: Option<nat>, other: Id)
    requires id in w.rows && Claimable(w.rows[id]) && RowOk(id, w.rows[id])
    ensures Permissions(w.(rows := w.rows[id := Claimed(w.rows[id])], tasks := w.tasks + [Task(id, page, Checking)]), other)
      == Permissions(w, other)
  {
    OneTaskMore(w.tasks, Task(id, page, Checking), other);
  }

  lemma {:induction false} PagePermits(w: World, ids: seq<Id>, page: nat, other: Id)
    requires Grounded(w) && forall i :: 0 <= i < |ids| ==> ids[i] in w.rows
    ensures Permissions(Paged(w, ids, page), other) == Permissions(w, other)
    decreases |ids|
  {
    if ids != [] {
      var one := PagedOne(w, ids[0], page);
      PagedOneGrounded(w, ids[0], page);
      if Resubmittable(w.rows[ids[0]]) { ClaimPermits(w, ids[0], Some(page), other); } else { OneTaskMore(w.tasks, Task(ids[0], Some(page), Querying), other); }
      PagePermits(one, ids[1..], page, other);
    }
  }

  // An outcome gives a row the permission only if it was never sent.
  lemma SettlingPermits(id: Id, row: Row, outcome: Outcome)
    requires RowOk(id, row)
    ensures var after := DrainSettled(id, row, outcome);
      Claimable(after) || RefusedUnsent(after) ==> Unsent(outcome) || Claimable(row) || RefusedUnsent(row)
    ensures HasPlace(id, row, outcome) ==>
      var after := PageSettled(row, outcome);
      Claimable(after) || RefusedUnsent(after) ==> Unsent(outcome) || Claimable(row) || RefusedUnsent(row)
  {
  }

  lemma ReportPermits(w: World, t: nat, outcome: Outcome, other: Id)
    requires Grounded(w) && Live(w, t) && (Unsent(outcome) ==> OfStage(w.tasks[t].stage) == 1)
    ensures Permissions(Reported(w, t, outcome), other) <= Permissions(w, other)
  {
    var task := w.tasks[t];
    OneTaskChanges(w.tasks, t, task.(stage := if task.page.Some? then Concluded(outcome) else Done), other);
    SettlingPermits(task.id, w.rows[task.id], outcome);
  }

  lemma ProceedPermits(w: World, t: nat, capable: Option<bool>, other: Id)
    requires Grounded(w) && Live(w, t) && w.tasks[t].stage.Checking?
    ensures Permissions(Proceeded(w, t, capable), other) <= Permissions(w, other)
  {
    var request := w.rows[w.tasks[t].id].request;
    var failure := CapabilityOutcome(request, capable);
    if failure.Some? {
      ReportPermits(w, t, failure.value, other);
    } else {
      OneTaskChanges(w.tasks, t, w.tasks[t].(stage := Calling(Refusal(request))), other);
    }
  }

  // Core can give an outcome that looks unsent only by naming the missing capability.
  lemma AnswersAreSent(answer: Answer, codes: set<string>)
    requires Allowed(answer, codes) && CAPABILITY_MISSING !in codes
    ensures !Unsent(SubmitOutcome(answer)) && !Unsent(QueryOutcome(answer))
  {
  }

  lemma AnswerPermits(w: World, t: nat, answer: Answer, codes: set<string>, other: Id)
    requires Grounded(w) && Live(w, t) && (w.tasks[t].stage.Calling? || w.tasks[t].stage.Querying?)
    requires Allowed(answer, codes) && CAPABILITY_MISSING !in codes
    ensures Permissions(Answered(w, t, answer), other) <= Permissions(w, other)
  {
    AnswersAreSent(answer, codes);
    ReportPermits(w, t, TaskOutcome(w.tasks[t].stage, answer), other);
  }

  lemma {:induction false} SettlePermits(w: World, page: nat, t: nat, other: Id)
    requires Grounded(w) && t <= |w.tasks|
    ensures Settled(w, page, t).Some? ==> Permissions(Settled(w, page, t).value, other) <= Permissions(w, other)
    decreases |w.tasks| - t
  {
    if t < |w.tasks| {
      if !OnPage(w.tasks[t], page) {
        SettlePermits(w, page, t + 1, other);
      } else if CanSettle(w, t) {
        var task := w.tasks[t];
        OneTaskChanges(w.tasks, t, task.(stage := Done), other);
        SettlingPermits(task.id, w.rows[task.id], task.stage.outcome);
        SettledOneGrounded(w, t);
        SettlePermits(SettledOne(w, t), page, t + 1, other);
      }
    }
  }

  /** No step gives a submission a second permission, as long as Core never names the missing capability. */
  lemma StepPermits(w: World, e: Event, w': World, codes: set<string>, id: Id)
    requires Grounded(w) && Step(w, e, w', codes) && CAPABILITY_MISSING !in codes
    ensures Permissions(w', id) <= Max(1, Permissions(w, id))
  {
    match e
    case Admits(i, request) => AdmitPermits(w, i, request, id);
    case Drains(i) => if i in w.rows && Claimable(w.rows[i]) { ClaimPermits(w, i, None, id); }
    case ClaimsPage(ids) => PagePermits(w, ids, |w.tasks|, id);
    case Proceeds(t, capable) => ProceedPermits(w, t, capable, id);
    case Answers(t, answer) => AnswerPermits(w, t, answer, codes, id);
    case CompletesPage(page) => SettlePermits(w, page, 0, id); ClosingDropsTasks(w.tasks, page, id);
    case Observes(_) =>
    case Crashes =>
  }

  lemma {:induction false} RunIsGrounded(states: seq<World>, events: seq<Event>, codes: set<string>, n: nat)
    requires Run(states, events, codes) && n <= |events|
    ensures Grounded(states[n])
  {
    if n > 0 {
      RunIsGrounded(states, events, codes, n - 1);
      assert Step(states[n - 1], events[n - 1], states[n], codes);
      StepGrounded(states[n - 1], events[n - 1], states[n], codes);
    }
  }

  lemma {:induction false} RunPermits(states: seq<World>, events: seq<Event>, codes: set<string>, n: nat, id: Id)
    requires Run(states, events, codes) && CAPABILITY_MISSING !in codes && n <= |events|
    ensures Permissions(states[n], id) <= 1
  {
    if n > 0 {
      RunPermits(states, events, codes, n - 1, id);
      RunIsGrounded(states, events, codes, n - 1);
      assert Step(states[n - 1], events[n - 1], states[n], codes);
      StepPermits(states[n - 1], events[n - 1], states[n], codes, id);
    }
  }

  ghost predicate Reachable(w: World, codes: set<string>)
  {
    exists states: seq<World>, events: seq<Event> :: Run(states, events, codes) && states[|events|] == w
  }

  lemma ReachStep(w: World, e: Event, w': World, codes: set<string>)
    requires Reachable(w, codes) && Step(w, e, w', codes)
    ensures Reachable(w', codes)
  {
    var states: seq<World>, events: seq<Event> :| Run(states, events, codes) && states[|events|] == w;
    var longer, more := states + [w'], events + [e];
    forall i | 0 <= i < |more| ensures Step(longer[i], more[i], longer[i + 1], codes) {
      if i < |events| { assert Step(states[i], events[i], states[i + 1], codes); }
    }
    assert Run(longer, more, codes) && longer[|more|] == w';
  }

  // In every reachable state each submission has been sent to Core at most once.
  ghost predicate SentAtMostOnce(codes: set<string>)
  {
    forall w: World, id: Id | Reachable(w, codes) :: w.sent[id] <= 1
  }

  const PLAIN := Request("pane", "terminal", "pi", None, "text", "text", None)

  lemma CapabilityIsNotDefinite()
    ensures SubmitOutcome(Failed(CAPABILITY_MISSING)) == Unsure(CAPABILITY_MISSING)
  {
  }

  // The row, if it can be claimed, is claimed and its request is sent.
  lemma ClaimAndSend(w: World, id: Id, codes: set<string>) returns (w1: World, w2: World)
    requires id in w.rows && Claimable(w.rows[id]) && w.rows[id].request == PLAIN
    ensures Step(w, Drains(id), w1, codes) && Step(w1, Proceeds(|w.tasks|, None), w2, codes)
    ensures w2.rows == w.rows[id := Claimed(w.rows[id])] && w2.sent[id] == w.sent[id] + 1
    ensures w2.tasks == w.tasks + [Task(id, None, Calling(None))]
  {
    w1 := Drained(w, id);
    w2 := Proceeded(w1, |w.tasks|, None);
  }

  lemma NamedCapability(w: World, id: Id, codes: set<string>) returns (w': World)
    requires id in w.rows && w.rows[id].state.Attempting? && w.tasks == [Task(id, None, Calling(None))]
    requires CAPABILITY_MISSING in codes
    ensures Step(w, Answers(0, Failed(CAPABILITY_MISSING)), w', codes)
    ensures id in w'.rows && LacksCapability(w'.rows[id]) && w'.rows[id].request == w.rows[id].request
    ensures w'.sent == w.sent && |w'.tasks| == 1
  {
    CapabilityIsNotDefinite();
    w' := Answered(w, 0, Failed(CAPABILITY_MISSING));
  }

  // A plain input whose call Core answers with the missing capability is claimed and sent again.
  lemma NamedCapabilityResends(codes: set<string>)
    requires CAPABILITY_MISSING in codes
    ensures !SentAtMostOnce(codes)
  {
    var id := "a";
    var s0 := World(map[], [], multiset{});
    var s1 := Admitted(s0, id, PLAIN);
    var s2, s3 := ClaimAndSend(s1, id, codes);
    var s4 := NamedCapability(s3, id, codes);
    var s5, s6 := ClaimAndSend(s4, id, codes);
    assert Run([s0], [], codes);
    ReachStep(s0, Admits(id, PLAIN), s1, codes);
    ReachStep(s1, Drains(id), s2, codes);
    ReachStep(s2, Proceeds(0, None), s3, codes);
    ReachStep(s3, Answers(0, Failed(CAPABILITY_MISSING)), s4, codes);
    ReachStep(s4, Drains(id), s5, codes);
    ReachStep(s5, Proceeds(1, None), s6, codes);
    assert s6.sent[id] == 2;
  }

  /** At most once is what the code guarantees exactly when Core never names the missing capability itself. */
  lemma AtMostOnce(codes: set<string>)
    ensures SentAtMostOnce(codes) <==> CAPABILITY_MISSING !in codes
  {
    if CAPABILITY_MISSING in codes {
      NamedCapabilityResends(codes);
    } else {
      forall w: World, id: Id | Reachable(w, codes) ensures w.sent[id] <= 1 {
        var states: seq<World>, events: seq<Event> :| Run(states, events, codes) && states[|events|] == w;
        RunPermits(states, events, codes, |events|, id);
      }
    }
  }

  /** Only a refusal before the call or a definite code cancels a submission, and a refused one never reaches Core. */
  lemma RejectionIsJustified(states: seq<World>, events: seq<Event>, codes: set<string>, n: nat, id: Id)
    requires Run(states, events, codes) && n <= |events| && id in states[n].rows
    ensures var row := states[n].rows[id];
      && (row.state.Cancelled? ==> row.cancellation.Some? || (row.receipt.Some? && row.receipt.value.state.Cancelled?))
      && (row.cancellation.Some? ==> row.cancellation.value in DEFINITE_CODES || Refused(row.cancellation.value))
      && (row.cancellation.Some? && Refused(row.cancellation.value) && CAPABILITY_MISSING !in codes ==> states[n].sent[id] == 0)
  {
    RunIsGrounded(states, events, codes, n);
    if CAPABILITY_MISSING !in codes { RunPermits(states, events, codes, n, id); }
  }

  /** Whatever happens after a claim, crashes included, the row is never recorded again and keeps its request. */
  lemma {:induction false} ClaimIsForever(states: seq<World>, events: seq<Event>, codes: set<string>, m: nat, n: nat, id: Id)
    requires Run(states, events, codes) && m <= n <= |events| && id in states[m].rows
    ensures id in states[n].rows && Later(states[m].rows[id], states[n].rows[id])
    decreases n
  {
    if m < n {
      ClaimIsForever(states, events, codes, m, n - 1, id);
      RunIsGrounded(states, events, codes, n - 1);
      assert Step(states[n - 1], events[n - 1], states[n], codes);
      StepGrounded(states[n - 1], events[n - 1], states[n], codes);
    }
  }

  // A receipt, a rejection or an uncertainty, or the agent was seen to have the message.
  predicate Ended(row: Row)
  {
    match row.state
    case Uncertain => row.uncertainty.Some?
    case Cancelled => row.cancellation.Some? || (row.receipt.Some? && row.receipt.value.state.Cancelled?)
    case Observed => true
    case Prepared => row.receipt.Some? && row.receipt.value.state.Prepared?
    case Terminal => row.receipt.Some? && row.receipt.value.state.Terminal?
    case _ => false
  }

  // What a drain's outcome makes of a row that nothing else has touched since the claim.
  predicate EndedBy(id: Id, claimed: Row, row: Row, outcome: Outcome)
  {
    match outcome
    case Received(receipt) =>
      if CanAdopt(id, claimed, receipt) then row.state == receipt.state && row.receipt == Some(receipt)
      else row.state.Uncertain? && row.uncertainty == Some("receipt_not_adopted")
    case Rejected(code) => row.state.Cancelled? && row.cancellation == Some(code)
    case Unsure(code) => row.state.Uncertain? && row.uncertainty == Some(code)
  }

  lemma SettlingEnds(id: Id, row: Row, outcome: Outcome)
    requires RowOk(id, row) && !row.state.Recorded?
    ensures Ended(DrainSettled(id, row, outcome))
    ensures row.state.Attempting? ==> EndedBy(id, row, DrainSettled(id, row, outcome), outcome)
  {
  }

  // A direct drain writes its outcome into its row.
  lemma AnswerWrites(w: World, t: nat, answer: Answer)
    requires Live(w, t) && w.tasks[t].page.None? && (w.tasks[t].stage.Calling? || w.tasks[t].stage.Querying?)
    ensures var id := w.tasks[t].id;
      Answered(w, t, answer).rows == w.rows[id := DrainSettled(id, w.rows[id], TaskOutcome(w.tasks[t].stage, answer))]
  {
  }

  /**
   A direct drain whose call returns leaves its row with a receipt, rejected or uncertain,
   whatever ran in between, and with its own outcome if the row is as the claim left it.
   */
  lemma DrainEnds(states: seq<World>, events: seq<Event>, codes: set<string>, n: nat)
    requires Run(states, events, codes) && n < |events| && events[n].Answers?
    requires Live(states[n], events[n].t) && states[n].tasks[events[n].t].page.None?
    ensures var task, rows, rows' := states[n].tasks[events[n].t], states[n].rows, states[n + 1].rows;
      && (task.stage.Calling? || task.stage.Querying?) && task.id in rows && task.id in rows' && Ended(rows'[task.id])
      && (rows[task.id].state.Attempting? ==> EndedBy(task.id, rows[task.id], rows'[task.id], TaskOutcome(task.stage, events[n].answer)))
  {
    RunIsGrounded(states, events, codes, n);
    assert Step(states[n], events[n], states[n + 1], codes);
    var task := states[n].tasks[events[n].t];
    assert TaskIn(states[n].rows, task);
    AnswerWrites(states[n], events[n].t, events[n].answer);
    SettlingEnds(task.id, states[n].rows[task.id], TaskOutcome(task.stage, events[n].answer));
  }

  // ---------------------------------------------------------------- whole pages

  // Two tasks of one page work on different rows, and a page is numbered by its first task.
  ghost predicate Sorted(tasks: seq<Task>)
  {
    && (forall t, u :: 0 <= t < u < |tasks| && tasks[t].page.Some? && tasks[t].page == tasks[u].page ==> tasks[t].id != tasks[u].id)
    && (forall t :: 0 <= t < |tasks| && tasks[t].page.Some? ==> tasks[t].page.value <= t)
  }

  // The same tasks, at whatever stage.
  predicate SameTasks(a: seq<Task>, b: seq<Task>)
  {
    |a| == |b| && forall t :: 0 <= t < |a| ==> a[t].id == b[t].id && a[t].page == b[t].page
  }

  lemma {:induction false} PagedTasks(w: World, ids: seq<Id>, page: nat) returns (added: seq<Task>)
    requires forall i :: 0 <= i < |ids| ==> ids[i] in w.rows
    ensures Paged(w, ids, page).tasks == w.tasks + added && |added| == |ids|
    ensures forall i :: 0 <= i < |ids| ==> added[i].id == ids[i] && added[i].page == Some(page)
    decreases |ids|
  {
    added := [];
    if ids != [] {
      var one := PagedOne(w, ids[0], page);
      var task := one.tasks[|w.tasks|];
      var rest := PagedTasks(one, ids[1..], page);
      added := [task] + rest;
      assert one.tasks == w.tasks + [task];
      assert (w.tasks + [task]) + rest == w.tasks + added;
    }
  }

  lemma {:induction false} SettledTasks(w: World, page: nat, t: nat)
    requires t <= |w.tasks|
    ensures Settled(w, page, t).Some? ==> SameTasks(w.tasks, Settled(w, page, t).value.tasks)
    decreases |w.tasks| - t
  {
    if t < |w.tasks| {
      if !OnPage(w.tasks[t], page) { SettledTasks(w, page, t + 1); } else if CanSettle(w, t) { SettledTasks(SettledOne(w, t), page, t + 1); }
    }
  }

  lemma StepSorted(w: World, e: Event, w': World, codes: set<string>)
    requires Sorted(w.tasks) && Step(w, e, w', codes)
    ensures Sorted(w'.tasks)
  {
    match e
    case ClaimsPage(ids) => PageSorted(w, ids);
    case CompletesPage(page) => CompletedTasks(w, page);
    case _ =>
  }

  lemma CompletedTasks(w: World, page: nat)
    ensures SameTasks(w.tasks, Completed(w, page).tasks)
  {
    SettledTasks(w, page, 0);
    if Settled(w, page, 0).None? {
      if w.tasks != [] { ClosedAt(w.tasks, page, 0); }
      forall t | 0 <= t < |w.tasks| ensures Closed(w.tasks, page)[t].id == w.tasks[t].id && Closed(w.tasks, page)[t].page == w.tasks[t].page {
        ClosedAt(w.tasks, page, t);
      }
    }
  }

  lemma PageSorted(w: World, ids: seq<Id>)
    requires Sorted(w.tasks) && forall i :: 0 <= i < |ids| ==> ids[i] in w.rows
    requires forall i, j :: 0 <= i < j < |ids| ==> ids[i] != ids[j]
    ensures Sorted(Paged(w, ids, |w.tasks|).tasks)
  {
    var added := PagedTasks(w, ids, |w.tasks|);
    PageJoins(w.tasks, added);
  }

  lemma PageJoins(tasks: seq<Task>, added: seq<Task>)
    requires Sorted(tasks) && forall i :: 0 <= i < |added| ==> added[i].page == Some(|tasks|)
    requires forall i, j :: 0 <= i < j < |added| ==> added[i].id != added[j].id
    ensures Sorted(tasks + added)
  {
  }

  lemma {:induction false} RunIsSorted(states: seq<World>, events: seq<Event>, codes: set<string>, n: nat)
    requires Run(states, events, codes) && n <= |events|
    ensures Sorted(states[n].tasks)
  {
    if n > 0 {
      RunIsSorted(states, events, codes, n - 1);
      assert Step(states[n - 1], events[n - 1], states[n], codes);
      StepSorted(states[n - 1], events[n - 1], states[n], codes);
    }
  }

  // Every outcome of the page, from task t on, has a place in the rows as they are.
  ghost predicate AllHavePlaces(w: World, page: nat, t: nat)
  {
    forall u :: t <= u < |w.tasks| && OnPage(w.tasks[u], page) ==> CanSettle(w, u)
  }

  lemma SettleOneMore(w: World, page: nat, t: nat)
    requires Sorted(w.tasks) && t < |w.tasks| && OnPage(w.tasks[t], page) && CanSettle(w, t)
    ensures Sorted(SettledOne(w, t).tasks)
    ensures AllHavePlaces(SettledOne(w, t), page, t + 1) <==> AllHavePlaces(w, page, t)
  {
    var one := SettledOne(w, t);
    forall u | t < u < |w.tasks| && OnPage(w.tasks[u], page) ensures CanSettle(one, u) <==> CanSettle(w, u) {
      assert w.tasks[u].id != w.tasks[t].id;
    }
    if AllHavePlaces(one, page, t + 1) {
      forall u | t <= u < |w.tasks| && OnPage(w.tasks[u], page) ensures CanSettle(w, u) {
        if u > t { assert CanSettle(one, u); }
      }
    }
  }

  lemma {:induction false} SettledIff(w: World, page: nat, t: nat)
    requires Sorted(w.tasks) && t <= |w.tasks|
    ensures Settled(w, page, t).Some? <==> AllHavePlaces(w, page, t)
    decreases |w.tasks| - t
  {
    if t < |w.tasks| {
      if !OnPage(w.tasks[t], page) {
        SettledIff(w, page, t + 1);
      } else if CanSettle(w, t) {
        SettleOneMore(w, page, t);
        SettledIff(SettledOne(w, t), page, t + 1);
      }
    }
  }

  // The row of task u on the page gets exactly its outcome, and no other row changes.
  lemma {:induction false} SettledRow(w: World, page: nat, t: nat, u: nat)
    requires Sorted(w.tasks) && t <= |w.tasks| && Settled(w, page, t).Some?
    requires t <= u < |w.tasks| && OnPage(w.tasks[u], page) && Live(w, u) && w.tasks[u].stage.Concluded?
    ensures var id, after := w.tasks[u].id, Settled(w, page, t).value.rows;
      id in after && after[id] == PageSettled(w.rows[id], w.tasks[u].stage.outcome)
    decreases |w.tasks| - t
  {
    if !OnPage(w.tasks[t], page) {
      SettledRow(w, page, t + 1, u);
    } else {
      SettleOneMore(w, page, t);
      if t == u { OthersUntouched(SettledOne(w, t), page, t + 1, w.tasks[t].id); } else {
        assert w.tasks[u].id != w.tasks[t].id;
        SettledRow(SettledOne(w, t), page, t + 1, u);
      }
    }
  }

  lemma {:induction false} OthersUntouched(w: World, page: nat, t: nat, id: Id)
    requires t <= |w.tasks| && id in w.rows && Settled(w, page, t).Some?
    requires forall u :: t <= u < |w.tasks| && OnPage(w.tasks[u], page) ==> w.tasks[u].id != id
    ensures id in Settled(w, page, t).value.rows && Settled(w, page, t).value.rows[id] == w.rows[id]
    decreases |w.tasks| - t
  {
    if t < |w.tasks| {
      if !OnPage(w.tasks[t], page) { OthersUntouched(w, page, t + 1, id); } else { OthersUntouched(SettledOne(w, t), page, t + 1, id); }
    }
  }

  /**
   A recovery page is written as a whole, exactly when every outcome has a place in the
   rows. Then each of its rows has a receipt, is rejected or is uncertain; otherwise no
   row changes, so a claimed one stays as it is until a later page asks Core about it.
   */
  lemma PageEnds(states: seq<World>, events: seq<Event>, codes: set<string>, n: nat, page: nat, t: nat)
    requires Run(states, events, codes) && n < |events| && events[n] == CompletesPage(page)
    requires t < |states[n].tasks| && OnPage(states[n].tasks[t], page)
    ensures var w, rows := states[n], states[n + 1].rows;
      var id := w.tasks[t].id;
      && id in w.rows && id in rows
      && if AllHavePlaces(w, page, 0) then rows[id] == PageSettled(w.rows[id], w.tasks[t].stage.outcome) && Ended(rows[id])
         else rows == w.rows
  {
    var w := states[n];
    RunIsGrounded(states, events, codes, n);
    RunIsSorted(states, events, codes, n);
    assert Step(w, events[n], states[n + 1], codes);
    assert TaskIn(w.rows, w.tasks[t]);
    SettledIff(w, page, 0);
    if AllHavePlaces(w, page, 0) { SettledRow(w, page, 0, t); }
  }

  // ------------------------------------------------------------------ drainer

  // Each method is what runs between two awaits, against the store's rows.
  class AgentInputDrainer {
    var rows: map<Id, Row>
    var tasks: seq<Task>
    ghost var sent: multiset<Id>

    ghost function Now(): World
      reads this
    {
      World(rows, tasks, sent)
    }

    constructor (rows: map<Id, Row>)
      ensures Now() == World(rows, [], multiset{})
    {
      this.rows, tasks, sent := rows, [], multiset{};
    }

    method Drain(submissionId: Id) returns (claimed: bool)
      modifies this
      ensures Now() == Drained(old(Now()), submissionId)
      ensures claimed <==> submissionId in old(rows) && Claimable(old(rows)[submissionId])
    {
      claimed := submissionId in rows && Claimable(rows[submissionId]);
      if claimed {
        rows := rows[submissionId := Claimed(rows[submissionId])];
        tasks := tasks + [Task(submissionId, None, Checking)];
      }
    }

    // The transaction of one page; it hands out submissions only for rows it has claimed.
    method ClaimRecoveryWorkPage(ids: seq<Id>)
      requires forall i :: 0 <= i < |ids| ==> ids[i] in rows
      modifies this
      ensures Now() == Paged(old(Now()), ids, |old(tasks)|)
    {
      var page := |tasks|;
      var i := 0;
      while i < |ids|
        invariant i <= |ids| && sent == old(sent)
        invariant forall k :: 0 <= k < |ids| ==> ids[k] in rows
        invariant Paged(Now(), ids[i..], page) == Paged(old(Now()), ids, page)
      {
        var id := ids[i];
        assert ids[i..][0] == id && ids[i..][1..] == ids[i + 1..];
        if Resubmittable(rows[id]) {
          rows := rows[id := Claimed(rows[id])];
          tasks := tasks + [Task(id, Some(page), Checking)];
        } else {
          tasks := tasks + [Task(id, Some(page), Querying)];
        }
        i := i + 1;
      }
    }

    method Report(t: nat, outcome: Outcome)
      requires Live(Now(), t)
      modifies this
      ensures Now() == Reported(old(Now()), t, outcome)
    {
      var task := tasks[t];
      if task.page.Some? {
        tasks := tasks[t := task.(stage := Concluded(outcome))];
      } else {
        rows := rows[task.id := DrainSettled(task.id, rows[task.id], outcome)];
        tasks := tasks[t := task.(stage := Done)];
      }
    }

    // The capability check has come back, with an answer or without one.
    method Proceed(t: nat, capable: Option<bool>)
      requires Live(Now(), t) && tasks[t].stage.Checking?
      modifies this
      ensures Now() == Proceeded(old(Now()), t, capable)
    {
      var task := tasks[t];
      var request := rows[task.id].request;
      if request.choice.Some? && request.sessionId.None? {
        Report(t, Rejected(SESSION_REQUIRED));
      } else if request.choice.Some? && capable != Some(true) {
        Report(t, Unsure(CAPABILITY_MISSING));
      } else {
        var refusal := Refusal(request);
        tasks := tasks[t := task.(stage := Calling(refusal))];
        if refusal.None? { sent := sent + multiset{task.id}; }
      }
    }

    // The command has come back, or the refusal that replaced it.
    method TakeAnswer(t: nat, answer: Answer)
      requires Live(Now(), t) && (tasks[t].stage.Calling? || tasks[t].stage.Querying?)
      modifies this
      ensures Now() == Answered(old(Now()), t, answer)
    {
      if tasks[t].stage.Querying? {
        Report(t, QueryOutcome(answer));
      } else if tasks[t].stage.refusal.Some? {
        Report(t, Rejected(tasks[t].stage.refusal.value));
      } else {
        Report(t, SubmitOutcome(answer));
      }
    }

    // The transaction that writes a page's outcomes, rolled back when one has no place.
    method CompleteRecoveryWorkPage(page: nat) returns (written: bool)
      modifies this
      ensures Now() == Completed(old(Now()), page)
      ensures written <==> Settled(old(Now()), page, 0).Some?
    {
      var savedRows, savedTasks := rows, tasks;
      var t := 0;
      while t < |tasks|
        invariant t <= |tasks| && sent == old(sent)
        invariant Settled(Now(), page, t) == Settled(old(Now()), page, 0)
        decreases |tasks| - t
      {
        var task := tasks[t];
        if OnPage(task, page) {
          if !(task.id in rows && task.stage.Concluded? && HasPlace(task.id, rows[task.id], task.stage.outcome)) {
            rows, tasks := savedRows, Closed(savedTasks, page);
            return false;
          }
          rows := rows[task.id := PageSettled(rows[task.id], task.stage.outcome)];
          tasks := tasks[t := task.(stage := Done)];
        }
        t := t + 1;
      }
      return true;
    }
  }
}
