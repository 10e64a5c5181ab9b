/**
 What Core's answer makes of a row, over every run and on the answer and the row alone:
 who sends, which receipt is adopted, which code rejects, and what stays uncertain.
 */
module AgentInputEnds {
  import opened Common
  import opened AgentInput

  // The receipt with the identity of the row that it should belong to.
  function Stamped(id: Id, request: Request, receipt: Receipt): Receipt
  {
    receipt.(submissionId := id, paneId := request.paneId, terminalId := request.terminalId, agentKind := request.agentKind,
             sessionId := if request.sessionId.Some? then request.sessionId.value else receipt.sessionId)
  }

  predicate Own(id: Id, request: Request, receipt: Receipt) { receipt == Stamped(id, request, receipt) }

  lemma OwnMatches(id: Id, row: Row, receipt: Receipt)
    ensures Matches(id, row, receipt) <==> Own(id, row.request, receipt)
  {
  }

  /** An adopted receipt names the row's own submission, pane, terminal, agent kind and, if one is expected, session. */
  lemma ReceiptsAreOwn(states: seq<World>, events: seq<Event>, codes: set<string>, n: nat, id: Id)
    requires Run(states, events, codes) && n <= |events| && id in states[n].rows && states[n].rows[id].receipt.Some?
    ensures Own(id, states[n].rows[id].request, states[n].rows[id].receipt.value)
  {
    RunIsGrounded(states, events, codes, n);
    OwnMatches(id, states[n].rows[id], states[n].rows[id].receipt.value);
  }

  /** What reached Core was the text that was recorded, and a choice only together with its session. */
  lemma OnlyConsistentAreSent(states: seq<World>, events: seq<Event>, codes: set<string>, n: nat, id: Id)
    requires Run(states, events, codes) && n <= |events| && id in states[n].sent
    ensures id in states[n].rows
    ensures var request := states[n].rows[id].request; request.inputText == request.text && (request.choice.Some? ==> request.sessionId.Some?)
  {
    RunIsGrounded(states, events, codes, n);
  }

  // ------------------------------------------------------------ ends of a row

  predicate HasReceipt(row: Row, receipt: Receipt)
  {
    row.state == receipt.state && row.receipt == Some(receipt) && row.uncertainty.None?
  }

  predicate IsRejected(row: Row, code: string) { row.state.Cancelled? && row.cancellation == Some(code) && row.uncertainty.None? }

  predicate IsUncertain(row: Row, code: string) { row.state.Uncertain? && row.uncertainty == Some(code) }

  // The code that a failure gets which names none itself.
  predicate Unnamed(answer: Answer, thrown: string, code: string)
  {
    || (answer.TimedOut? && code == "transport_timeout") || (answer.BadJson? && code == "malformed_json")
    || (answer.BadShape? && code == "invalid_response") || (answer.Broken? && code == "transport_failure")
    || (answer.Threw? && code == thrown)
  }

  // A failed submission that leaves open whether it was taken, and its code.
  predicate SubmitUnsure(answer: Answer, code: string)
  {
    (answer == Failed(code) && code !in DEFINITE_CODES) || Unnamed(answer, "core_submission_failure", code)
  }

  predicate QueryUnsure(answer: Answer, code: string)
  {
    || (answer == Failed("submission_not_found") && code == "receipt_not_found")
    || (answer == Failed(code) && code != "submission_not_found") || Unnamed(answer, "core_receipt_query_failure", code)
  }

  // Why a submission that was sent is uncertain.
  predicate SubmitReason(id: Id, request: Request, answer: Answer, code: string)
  {
    SubmitUnsure(answer, code) || (answer.Replied? && !Own(id, request, answer.receipt) && code == "receipt_not_adopted")
  }

  // What a call that was made leaves, by its answer.
  ghost predicate SubmitEnds(id: Id, request: Request, answer: Answer, after: Row)
  {
    && (forall r: Receipt :: HasReceipt(after, r) <==> answer == Replied(r) && Own(id, request, r))
    && (forall c :: IsRejected(after, c) <==> answer == Failed(c) && c in DEFINITE_CODES)
    && (forall c :: IsUncertain(after, c) <==> SubmitReason(id, request, answer, c))
    && (after.state.Uncertain? <==>
          !(answer.Replied? && Own(id, request, answer.receipt)) && !(answer.Failed? && answer.code in DEFINITE_CODES))
  }

  // What a query leaves, by its answer; a query never rejects.
  ghost predicate QueryEnds(id: Id, request: Request, answer: Answer, after: Row)
  {
    && (forall r: Receipt :: HasReceipt(after, r) <==> answer == Replied(r) && Own(id, request, r))
    && (forall c :: !IsRejected(after, c))
    && (forall c :: IsUncertain(after, c) <==> QueryUnsure(answer, c))
    && (after.state.Uncertain? <==> !answer.Replied?)
  }

  // How the answer to a submission is classified.
  ghost predicate SubmitIs(answer: Answer, outcome: Outcome)
  {
    && (forall r :: outcome == Received(r) <==> answer == Replied(r))
    && (forall c :: outcome == Rejected(c) <==> answer == Failed(c) && c in DEFINITE_CODES)
    && (forall c :: outcome == Unsure(c) <==> SubmitUnsure(answer, c))
    && (outcome.Unsure? <==> !answer.Replied? && !(answer.Failed? && answer.code in DEFINITE_CODES))
  }

  ghost predicate QueryIs(answer: Answer, outcome: Outcome)
  {
    && (forall r :: outcome == Received(r) <==> answer == Replied(r)) && !outcome.Rejected?
    && (forall c :: outcome == Unsure(c) <==> QueryUnsure(answer, c))
    && (outcome.Unsure? <==> !answer.Replied?)
  }

  lemma SubmitClassifies(answer: Answer)
    ensures SubmitIs(answer, SubmitOutcome(answer))
  {
  }

  lemma QueryClassifies(answer: Answer)
    ensures QueryIs(answer, QueryOutcome(answer))
  {
  }

  // What an outcome leaves of a row that has a place for it, if the receipt is the row's own.
  ghost predicate RowIs(id: Id, request: Request, outcome: Outcome, after: Row)
  {
    && (forall r :: HasReceipt(after, r) <==> outcome == Received(r) && Own(id, request, r))
    && (forall c :: IsRejected(after, c) <==> outcome == Rejected(c))
    && (forall c :: IsUncertain(after, c) <==>
          outcome == Unsure(c) || (outcome.Received? && !Own(id, request, outcome.receipt) && c == "receipt_not_adopted"))
    && (after.state.Uncertain? <==> outcome.Unsure? || (outcome.Received? && !Own(id, request, outcome.receipt)))
  }

  lemma DrainedRowIs(id: Id, row: Row, outcome: Outcome)
    requires RowOk(id, row) && row.state.Attempting?
    ensures RowIs(id, row.request, outcome, DrainSettled(id, row, outcome))
  {
    if outcome.Received? { OwnMatches(id, row, outcome.receipt); }
  }

  lemma PageRowIs(id: Id, row: Row, outcome: Outcome)
    requires RowOk(id, row) && HasPlace(id, row, outcome)
    ensures RowIs(id, row.request, outcome, PageSettled(row, outcome)) && (outcome.Received? ==> Own(id, row.request, outcome.receipt))
  {
    if outcome.Received? { OwnMatches(id, row, outcome.receipt); }
  }

  lemma SubmissionEnds(id: Id, request: Request, answer: Answer, outcome: Outcome, after: Row)
    requires SubmitIs(answer, outcome) && RowIs(id, request, outcome, after)
    ensures SubmitEnds(id, request, answer, after)
  {
  }

  lemma QuestionEnds(id: Id, request: Request, answer: Answer, outcome: Outcome, after: Row)
    requires QueryIs(answer, outcome) && RowIs(id, request, outcome, after) && (outcome.Received? ==> Own(id, request, outcome.receipt))
    ensures QueryEnds(id, request, answer, after)
  {
  }

  /**
   A direct drain whose call was made, on a row that nothing has touched since the claim: the
   row gets the receipt if and only if Core replied with one that is the row's own, it is
   rejected with a code if and only if Core failed with that definite code, and it is
   uncertain otherwise, with the code that says why. If the call was refused before it was
   made, the row is rejected with the code of the refusal.
   */
  lemma CallEnds(states: seq<World>, events: seq<Event>, codes: set<string>, n: nat)
    requires Run(states, events, codes) && n < |events| && events[n].Answers? && Live(states[n], events[n].t)
    requires var task := states[n].tasks[events[n].t];
      task.page.None? && task.stage.Calling? && states[n].rows[task.id].state.Attempting?
    ensures var task := states[n].tasks[events[n].t];
      && task.id in states[n + 1].rows
      && var request, after := states[n].rows[task.id].request, states[n + 1].rows[task.id];
      if task.stage.refusal.None? then SubmitEnds(task.id, request, events[n].answer, after) else IsRejected(after, task.stage.refusal.value)
  {
    RunIsGrounded(states, events, codes, n);
    assert Step(states[n], events[n], states[n + 1], codes);
    var task := states[n].tasks[events[n].t];
    var row, answer := states[n].rows[task.id], events[n].answer;
    AnswerWrites(states[n], events[n].t, answer);
    DrainedRowIs(task.id, row, TaskOutcome(task.stage, answer));
    if task.stage.refusal.None? {
      SubmitClassifies(answer);
      SubmissionEnds(task.id, row.request, answer, SubmitOutcome(answer), DrainSettled(task.id, row, SubmitOutcome(answer)));
    }
  }

  // What the answer to a direct drain makes of a row that something else has moved on meanwhile.
  predicate LateEnds(id: Id, before: Row, answer: Answer, after: Row)
  {
    if answer.Replied? && Own(id, before.request, answer.receipt)
       && (before.state.Uncertain? || before.state.Prepared? || (before.state.Observed? && !answer.receipt.state.Prepared?)) then
      HasReceipt(after, answer.receipt)
    else if before.state.Uncertain? && !(answer.Failed? && answer.code in DEFINITE_CODES) then
      && after.uncertainty.Some? && SubmitReason(id, before.request, answer, after.uncertainty.value)
      && after == before.(uncertainty := after.uncertainty)
    else after == before
  }

  /**
   On a row that has been moved on meanwhile the answer only ever adds: an own receipt is
   adopted unless it would take back that the message was observed, an uncertain row may get
   another reason, and nothing else changes.
   */
  lemma LateAnswerEnds(states: seq<World>, events: seq<Event>, codes: set<string>, n: nat)
    requires Run(states, events, codes) && n < |events| && events[n].Answers? && Live(states[n], events[n].t)
    requires var task := states[n].tasks[events[n].t];
      task.page.None? && task.stage == Calling(None) && !states[n].rows[task.id].state.Attempting?
    ensures var id := states[n].tasks[events[n].t].id;
      id in states[n + 1].rows && LateEnds(id, states[n].rows[id], events[n].answer, states[n + 1].rows[id])
  {
    RunIsGrounded(states, events, codes, n);
    assert Step(states[n], events[n], states[n + 1], codes);
    var task, answer := states[n].tasks[events[n].t], events[n].answer;
    assert TaskIn(states[n].rows, task);
    AnswerWrites(states[n], events[n].t, answer);
    LateRowEnds(task.id, states[n].rows[task.id], answer);
  }

  lemma LateRowEnds(id: Id, row: Row, answer: Answer)
    requires RowOk(id, row) && !row.state.Attempting? && !row.state.Recorded?
    ensures LateEnds(id, row, answer, DrainSettled(id, row, SubmitOutcome(answer)))
  {
    if answer.Replied? { OwnMatches(id, row, answer.receipt); }
  }

  // --------------------------------------------------------- before the call

  /**
   After the capability check a submission is sent if and only if its text is the recorded one
   and, for a choice, there is a session and Core was found capable. A choice that is not sent
   goes back to be claimed again unless it can never be sent.
   */
  lemma ProceedDecides(states: seq<World>, events: seq<Event>, codes: set<string>, n: nat)
    requires Run(states, events, codes) && n < |events| && events[n].Proceeds? && Live(states[n], events[n].t)
    ensures var w, w', t := states[n], states[n + 1], events[n].t;
      var id := w.tasks[t].id;
      var request := w.rows[id].request;
      var allowed := request.choice.None? || (request.sessionId.Some? && events[n].capable == Some(true));
      && id in w'.rows && t < |w'.tasks|
      && w'.sent == (if allowed && request.inputText == request.text then w.sent + multiset{id} else w.sent)
      && (allowed ==> w'.rows == w.rows && w'.tasks[t].stage == Calling(if request.inputText == request.text then None else Some(TEXT_MISMATCH)))
      && (!allowed && w.tasks[t].page.None? && w.rows[id].state.Attempting? ==>
            if request.sessionId.None? then IsRejected(w'.rows[id], SESSION_REQUIRED)
            else IsUncertain(w'.rows[id], CAPABILITY_MISSING) && Claimable(w'.rows[id]))
      && (!allowed && w.tasks[t].page.Some? ==>
            w'.tasks[t].stage == Concluded(if request.sessionId.None? then Rejected(SESSION_REQUIRED) else Unsure(CAPABILITY_MISSING)))
  {
    assert Step(states[n], events[n], states[n + 1], codes);
  }

  // -------------------------------------------------------------- whole pages

  // Only a crash or its own page changes a task that has its outcome.
  lemma StepKeepsOutcome(w: World, e: Event, w': World, codes: set<string>, t: nat)
    requires Step(w, e, w', codes) && t < |w.tasks| && w.tasks[t].page.Some? && w.tasks[t].stage.Concluded?
    requires !e.Crashes? && e != CompletesPage(w.tasks[t].page.value)
    ensures t < |w'.tasks| && w'.tasks[t] == w.tasks[t]
  {
    match e
    case ClaimsPage(ids) =>
      var added := PagedTasks(w, ids, |w.tasks|);
    case CompletesPage(page) =>
      if Settled(w, page, 0).Some? { OtherPagesKept(w, page, 0, t); }
      ClosedAt(w.tasks, page, t);
    case _ =>
  }

  lemma {:induction false} OtherPagesKept(w: World, page: nat, from: nat, t: nat)
    requires from <= |w.tasks| && t < |w.tasks| && !OnPage(w.tasks[t], page) && Settled(w, page, from).Some?
    ensures var tasks := Settled(w, page, from).value.tasks; t < |tasks| && tasks[t] == w.tasks[t]
    decreases |w.tasks| - from
  {
    if from < |w.tasks| {
      OtherPagesKept(if OnPage(w.tasks[from], page) then SettledOne(w, from) else w, page, from + 1, t);
    }
  }

  // Nothing ends the page from m on and before n.
  predicate PageGoesOn(events: seq<Event>, m: nat, n: nat, page: nat)
    requires n <= |events|
  {
    forall i :: m <= i < n ==> !events[i].Crashes? && events[i] != CompletesPage(page)
  }

  lemma {:induction false} OutcomeStays(states: seq<World>, events: seq<Event>, codes: set<string>, m: nat, n: nat, page: nat, t: nat)
    requires Run(states, events, codes) && m <= n <= |events| && PageGoesOn(events, m, n, page)
    requires t < |states[m].tasks| && OnPage(states[m].tasks[t], page) && states[m].tasks[t].stage.Concluded?
    ensures t < |states[n].tasks| && states[n].tasks[t] == states[m].tasks[t]
    decreases n
  {
    if m < n {
      OutcomeStays(states, events, codes, m, n - 1, page, t);
      assert Step(states[n - 1], events[n - 1], states[n], codes);
      StepKeepsOutcome(states[n - 1], events[n - 1], states[n], codes, t);
    }
  }

  // Before its page is written, the answer to a recovery task is only kept.
  lemma AnswerIsKept(states: seq<World>, events: seq<Event>, codes: set<string>, m: nat, n: nat, page: nat)
    requires Run(states, events, codes) && m < n <= |events| && events[m].Answers? && PageGoesOn(events, m + 1, n, page)
    requires events[m].t < |states[m].tasks| && OnPage(states[m].tasks[events[m].t], page)
    ensures var t := events[m].t;
      var task := states[m].tasks[t];
      && states[m + 1].rows == states[m].rows && (task.stage.Calling? || task.stage.Querying?)
      && t < |states[n].tasks| && states[n].tasks[t] == task.(stage := Concluded(TaskOutcome(task.stage, events[m].answer)))
  {
    assert Step(states[m], events[m], states[m + 1], codes);
    OutcomeStays(states, events, codes, m + 1, n, page, events[m].t);
  }

  /**
   A recovery task's answer, which came at m, ends its row when the page is written at n,
   whatever ran in between: like a direct drain's for a submission, and for a query with the
   receipt or an uncertainty. A refused submission is rejected with the code of its refusal.
   */
  lemma PageCallEnds(states: seq<World>, events: seq<Event>, codes: set<string>, m: nat, n: nat, page: nat)
    requires Run(states, events, codes) && m < n < |events| && events[m].Answers? && PageGoesOn(events, m + 1, n, page)
    requires events[m].t < |states[m].tasks| && OnPage(states[m].tasks[events[m].t], page)
    requires events[n] == CompletesPage(page) && AllHavePlaces(states[n], page, 0)
    ensures var task, answer := states[m].tasks[events[m].t], events[m].answer;
      && task.id in states[n].rows && task.id in states[n + 1].rows
      && var request, after := states[n].rows[task.id].request, states[n + 1].rows[task.id];
      && (task.stage == Calling(None) ==> SubmitEnds(task.id, request, answer, after))
      && (task.stage.Querying? ==> QueryEnds(task.id, request, answer, after))
      && (task.stage.Calling? && task.stage.refusal.Some? ==> IsRejected(after, task.stage.refusal.value))
  {
    var t, task := events[m].t, states[m].tasks[events[m].t];
    AnswerIsKept(states, events, codes, m, n, page);
    PageEnds(states, events, codes, n, page, t);
    RunIsGrounded(states, events, codes, n);
    assert CanSettle(states[n], t);
    var row := states[n].rows[task.id];
    var outcome := TaskOutcome(task.stage, events[m].answer);
    PageRowIs(task.id, row, outcome);
    match task.stage
    case Calling(None) =>
      SubmitClassifies(events[m].answer);
      SubmissionEnds(task.id, row.request, events[m].answer, outcome, PageSettled(row, outcome));
    case Querying =>
      QueryClassifies(events[m].answer);
      QuestionEnds(task.id, row.request, events[m].answer, outcome, PageSettled(row, outcome));
    case _ =>
  }

  // The page can write the outcome over this row.
  predicate Writable(id: Id, row: Row, outcome: Outcome)
  {
    match row.state
    case Attempting => outcome.Received? ==> Own(id, row.request, outcome.receipt)
    case Prepared => !outcome.Rejected? && (outcome.Received? ==> Own(id, row.request, outcome.receipt))
    case Uncertain => !outcome.Rejected? && (outcome.Received? ==> Own(id, row.request, outcome.receipt))
    case Observed => outcome.Received? && Own(id, row.request, outcome.receipt) && !outcome.receipt.state.Prepared?
    case _ => outcome.Received? && HasReceipt(row, outcome.receipt)
  }

  lemma PlaceIff(id: Id, row: Row, outcome: Outcome)
    requires RowOk(id, row) && !row.state.Recorded?
    ensures HasPlace(id, row, outcome) <==> Writable(id, row, outcome)
  {
    if outcome.Received? { OwnMatches(id, row, outcome.receipt); }
  }

  /**
   A page is written if and only if no reply on it names another submission, no rejection
   or failure meets a row that was observed or has ended, no receipt takes an observation
   back, and an ended row is only told again what it already has.
   */
  lemma PageIsWrittenIff(states: seq<World>, events: seq<Event>, codes: set<string>, n: nat, page: nat)
    requires Run(states, events, codes) && n < |events| && events[n] == CompletesPage(page)
    ensures var w := states[n];
      && (forall t :: 0 <= t < |w.tasks| && OnPage(w.tasks[t], page) ==> w.tasks[t].id in w.rows && w.tasks[t].stage.Concluded?)
      && (AllHavePlaces(w, page, 0) <==>
            forall t :: 0 <= t < |w.tasks| && OnPage(w.tasks[t], page) ==> Writable(w.tasks[t].id, w.rows[w.tasks[t].id], w.tasks[t].stage.outcome))
  {
    var w := states[n];
    RunIsGrounded(states, events, codes, n);
    assert Step(w, events[n], states[n + 1], codes);
    forall t | 0 <= t < |w.tasks| && OnPage(w.tasks[t], page)
      ensures w.tasks[t].id in w.rows && w.tasks[t].stage.Concluded?
      ensures CanSettle(w, t) <==> Writable(w.tasks[t].id, w.rows[w.tasks[t].id], w.tasks[t].stage.outcome)
    {
      assert TaskIn(w.rows, w.tasks[t]);
      PlaceIff(w.tasks[t].id, w.rows[w.tasks[t].id], w.tasks[t].stage.outcome);
    }
  }

  // ------------------------------------------------------------ claiming pages

  // What a claim hands out for a row: a submission if it was never sent, otherwise a query.
  predicate HandsOut(before: Row, after: Row, task: Task)
  {
    if before.state.Recorded? || IsUncertain(before, CAPABILITY_MISSING) then
      after == before.(state := Attempting, attempted := true) && task.stage.Checking?
    else after == before && task.stage.Querying?
  }

  lemma OneHandedOut(w: World, id: Id, page: nat)
    requires id in w.rows && (w.rows[id].state.Recorded? ==> !w.rows[id].attempted)
    ensures var w' := PagedOne(w, id, page);
      && |w'.tasks| == |w.tasks| + 1 && w'.tasks[|w.tasks|].id == id && w'.tasks[|w.tasks|].page == Some(page)
      && w'.rows == w.rows[id := w'.rows[id]] && HandsOut(w.rows[id], w'.rows[id], w'.tasks[|w.tasks|])
  {
  }

  lemma {:induction false} PageHandsOut(w: World, ids: seq<Id>, page: nat, i: nat)
    requires forall k :: 0 <= k < |ids| ==> ids[k] in w.rows && (w.rows[ids[k]].state.Recorded? ==> !w.rows[ids[k]].attempted)
    requires i < |ids| && forall j, k :: 0 <= j < k < |ids| ==> ids[j] != ids[k]
    ensures var w' := Paged(w, ids, page);
      ids[i] in w'.rows && |w'.tasks| == |w.tasks| + |ids| && HandsOut(w.rows[ids[i]], w'.rows[ids[i]], w'.tasks[|w.tasks| + i])
    decreases |ids|
  {
    var id, rest := ids[0], ids[1..];
    var one := PagedOne(w, id, page);
    OneHandedOut(w, id, page);
    if i > 0 {
      assert rest[i - 1] == ids[i] != id;
      PageHandsOut(one, rest, page, i - 1);
    } else {
      var added := PagedTasks(one, rest, page);
      UnlistedUntouched(one, rest, page, id);
    }
  }

  lemma {:induction false} UnlistedUntouched(w: World, ids: seq<Id>, page: nat, id: Id)
    requires (forall k :: 0 <= k < |ids| ==> ids[k] in w.rows && ids[k] != id) && id in w.rows
    ensures id in Paged(w, ids, page).rows && Paged(w, ids, page).rows[id] == w.rows[id]
    decreases |ids|
  {
    if ids != [] { UnlistedUntouched(PagedOne(w, ids[0], page), ids[1..], page, id); }
  }

  /** Claiming a page submits exactly the rows that were never sent, and only asks Core about all others. */
  lemma PageClaims(states: seq<World>, events: seq<Event>, codes: set<string>, n: nat, i: nat)
    requires Run(states, events, codes) && n < |events| && events[n].ClaimsPage? && i < |events[n].ids|
    ensures var w, w', id := states[n], states[n + 1], events[n].ids[i];
      && id in w.rows && id in w'.rows && |w'.tasks| == |w.tasks| + |events[n].ids|
      && HandsOut(w.rows[id], w'.rows[id], w'.tasks[|w.tasks| + i])
  {
    RunIsGrounded(states, events, codes, n);
    assert Step(states[n], events[n], states[n + 1], codes);
    PageHandsOut(states[n], events[n].ids, |states[n].tasks|, i);
  }

  predicate Over(row: Row) { row.state.Terminal? || row.state.Cancelled? }

  // Recovery has not brought the row as far as it can.
  predicate Open(row: Row) { !row.state.Observed? && !Over(row) }

  // The row's own receipt, saying that the submission is over.
  function LastReceipt(id: Id, request: Request): Receipt { Stamped(id, request, Receipt("", "", "", "", "", Terminal, "")) }

  // The only task of the only page.
  predicate OneTask(w: World, id: Id) { |w.tasks| == 1 && w.tasks[0].id == id && w.tasks[0].page == Some(0) && id in w.rows }

  lemma OnePageEnds(w: World, id: Id, codes: set<string>) returns (w': World)
    requires Reachable(w, codes) && OneTask(w, id) && w.tasks[0].stage.Concluded? && HasPlace(id, w.rows[id], w.tasks[0].stage.outcome)
    ensures Reachable(w', codes) && w'.rows == w.rows[id := PageSettled(w.rows[id], w.tasks[0].stage.outcome)]
  {
    w' := Completed(w, 0);
    assert CanSettle(w, 0) && OnPage(w.tasks[0], 0);
    assert Settled(w, 0, 0) == Settled(SettledOne(w, 0), 0, 1) == Some(SettledOne(w, 0));
    assert Step(w, CompletesPage(0), w', codes);
    ReachStep(w, CompletesPage(0), w', codes);
  }

  // Core replies to the call or the query.
  lemma OneTaskIsAnswered(w: World, id: Id, codes: set<string>) returns (w': World)
    requires Reachable(w, codes) && OneTask(w, id) && Open(w.rows[id]) && !w.rows[id].state.Recorded?
    requires w.tasks[0].stage.Querying? || (w.tasks[0].stage.Calling? && w.rows[id].state.Attempting?)
    ensures Reachable(w', codes) && id in w'.rows && Over(w'.rows[id])
  {
    var receipt := LastReceipt(id, w.rows[id].request);
    OwnMatches(id, w.rows[id], receipt);
    var answered := Answered(w, 0, Replied(receipt));
    assert Step(w, Answers(0, Replied(receipt)), answered, codes);
    ReachStep(w, Answers(0, Replied(receipt)), answered, codes);
    w' := OnePageEnds(answered, id, codes);
  }

  // A page of one row is claimed, right after a restart.
  lemma OnePageIsClaimed(w: World, id: Id, codes: set<string>) returns (w': World)
    requires Reachable(w, codes) && id in w.rows && Open(w.rows[id]) && RowOk(id, w.rows[id])
    ensures Reachable(w', codes) && OneTask(w', id) && Open(w'.rows[id]) && !w'.rows[id].state.Recorded?
    ensures w'.tasks[0].stage.Querying? || (w'.tasks[0].stage.Checking? && w'.rows[id].state.Attempting?)
  {
    var idle := w.(tasks := []);
    ReachStep(w, Crashes, idle, codes);
    w' := PagedOne(idle, id, 0);
    assert Paged(w', [id][1..], 0) == w' && Paged(idle, [id], 0) == w';
    assert Step(idle, ClaimsPage([id]), w', codes);
    ReachStep(idle, ClaimsPage([id]), w', codes);
  }

  /**
   No submission is stuck: from every reachable state one restart and one recovery page to
   which Core replies bring any row to its end, unless the message was observed, which
   recovery takes for enough.
   */
  lemma NoRowIsStuck(w: World, id: Id, codes: set<string>) returns (w': World)
    requires Reachable(w, codes) && id in w.rows && !w.rows[id].state.Observed?
    ensures Reachable(w', codes) && id in w'.rows && Over(w'.rows[id])
  {
    w' := w;
    if Open(w.rows[id]) {
      ReachableIsGrounded(w, codes);
      var claimed := OnePageIsClaimed(w, id, codes);
      if claimed.tasks[0].stage.Querying? {
        w' := OneTaskIsAnswered(claimed, id, codes);
      } else {
        var going := Proceeded(claimed, 0, Some(true));
        assert Step(claimed, Proceeds(0, Some(true)), going, codes);
        ReachStep(claimed, Proceeds(0, Some(true)), going, codes);
        if going.tasks[0].stage.Concluded? { w' := OnePageEnds(going, id, codes); } else { w' := OneTaskIsAnswered(going, id, codes); }
      }
    }
  }

  lemma ReachableIsGrounded(w: World, codes: set<string>)
    requires Reachable(w, codes)
    ensures Grounded(w)
  {
    var states: seq<World>, events: seq<Event> :| Run(states, events, codes) && states[|events|] == w;
    RunIsGrounded(states, events, codes, |events|);
  }
}
