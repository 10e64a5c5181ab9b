/**
 Startup recovery of agent inputs: a first page, then a loop of pages with retries,
 and a stop that waits for what is under way. Every step is what runs between two
 awaits; promises settle and resume their waiters in any order.
 */
module RecoveryLoop {
  import opened Common

  // -------------------------------------------------------------- retry delays

  function Doubled(value: nat, times: nat): nat { if times == 0 then value else 2 * Doubled(value, times - 1) }

  // The configured values, in whole milliseconds.
  datatype Delays = Delays(initialMs: Option<int>, maxMs: Option<int>)
  {
    function Initial(): nat { Max(0, if initialMs.Some? then initialMs.value else 250) }

    function Maximum(): nat { Max(Initial(), if maxMs.Some? then maxMs.value else 30_000) }
  }

  function RetryDelay(delays: Delays, attempt: nat): nat
  {
    Min(Doubled(delays.Initial(), Min(attempt, 16)), delays.Maximum())
  }

  lemma {:induction false} DoublingGrows(value: nat, a: nat, b: nat)
    requires a <= b
    ensures Doubled(value, a) <= Doubled(value, b)
  {
    if a < b { DoublingGrows(value, a, b - 1); }
  }

  /** Delays stay between the initial and the maximum value, start at the initial one and never shrink. */
  lemma RetryDelaysGrow(delays: Delays, a: nat, b: nat)
    requires a <= b
    ensures delays.Initial() <= RetryDelay(delays, a) <= RetryDelay(delays, b) <= delays.Maximum()
    ensures RetryDelay(delays, 0) == delays.Initial()
  {
    DoublingGrows(delays.Initial(), 0, Min(a, 16));
    DoublingGrows(delays.Initial(), Min(a, 16), Min(b, 16));
  }

  /** Each delay is twice the one before it, up to the maximum, for sixteen retries, and then stays. */
  lemma RetryDelayDoubles(delays: Delays, attempt: nat)
    ensures RetryDelay(delays, attempt + 1) == if attempt < 16 then Min(2 * RetryDelay(delays, attempt), delays.Maximum()) else RetryDelay(delays, attempt)
    ensures RetryDelay(delays, 0) == delays.Initial()
  {
  }

  // -------------------------------------------------------------------- state

  // Where the loop stands: before a page, in one, after one whose promise has
  // settled, waiting before a retry, or over.
  datatype Stage = Yielding | Paging(page: nat) | Resuming | Waiting(resolved: bool) | Over

  // A call of stopRecovery with the promises it waits for, and the starts before it.
  datatype Stop = Stop(page: Option<nat>, loop: Option<nat>, since: nat)

  datatype Recovery = Recovery(
    continuation: Option<Stage>,
    activePage: Option<nat>,
    stopping: bool,
    hasRetry: bool,
    starter: Option<nat>,   // the first page a startRecovery call waits for
    attempt: nat,
    waited: seq<nat>,       // the loop's delays since its last success
    inFlight: set<nat>,     // pages that run
    pages: nat,             // pages begun so far
    loops: nat,             // loops begun so far
    starts: nat,            // starts that took effect
    stops: seq<Stop>)

  const IDLE := Recovery(None, None, false, false, None, 0, [], {}, 0, 0, 0, [])

  // ---------------------------------------------------------------- invariant

  ghost predicate OnePage(r: Recovery)
  {
    && (forall n :: n in r.inFlight ==> r.activePage == Some(n))
    && (r.activePage.Some? ==> r.activePage.value < r.pages)
    && (r.activePage.Some? ==> r.starter == r.activePage || r.continuation == Some(Paging(r.activePage.value)))
    && (r.starter.Some? ==> r.activePage == r.starter && r.continuation.None?)
    && (r.continuation.Some? && r.continuation.value.Paging? ==> r.activePage == Some(r.continuation.value.page))
  }

  // A waiting loop has a resolver, which a stop has used.
  predicate Wakeable(r: Recovery)
  {
    (r.hasRetry <==> r.continuation == Some(Waiting(false))) && (r.hasRetry ==> !r.stopping)
  }

  ghost predicate Patient(r: Recovery, d: Delays)
  {
    r.attempt == |r.waited| && forall k :: 0 <= k < |r.waited| ==> r.waited[k] == RetryDelay(d, k)
  }

  // Until the next start, a stop waits for everything that is still under way.
  predicate Covers(r: Recovery, stop: Stop)
  {
    stop.since <= r.starts
    && (stop.since == r.starts ==>
      && r.stopping
      && (r.activePage.Some? ==> stop.page == r.activePage)
      && (r.continuation.Some? ==> stop.loop == Some(r.loops)))
  }

  ghost predicate Ok(r: Recovery, d: Delays)
  {
    && OnePage(r) && Wakeable(r) && Patient(r, d)
    && forall i :: 0 <= i < |r.stops| ==> Covers(r, r.stops[i])
  }

  // -------------------------------------------------------------------- steps

  datatype Result = Success(hasMore: bool) | Failure

  function Attached(r: Recovery, stage: Stage): Recovery
  {
    r.(continuation := Some(stage), loops := r.loops + 1, attempt := 0, waited := [])
  }

  function Begun(r: Recovery): Recovery
  {
    r.(activePage := Some(r.pages), inFlight := r.inFlight + {r.pages}, pages := r.pages + 1)
  }

  function BeforeRetry(r: Recovery, d: Delays): Recovery
  {
    var delay := RetryDelay(d, r.attempt);
    var resolved := r.stopping || delay == 0;
    r.(continuation := Some(Waiting(resolved)), hasRetry := !resolved, attempt := r.attempt + 1, waited := r.waited + [delay])
  }

  // The head of the loop.
  function Looped(r: Recovery, more: bool): Recovery
  {
    r.(continuation := Some(if more && !r.stopping then Yielding else Over))
  }

  function Started(r: Recovery, d: Delays, claims: bool): Recovery
  {
    if r.continuation.Some? || r.activePage.Some? then r
    else
      var anew := r.(stopping := false, starts := r.starts + 1);
      if claims then Begun(anew).(starter := Some(r.pages)) else BeforeRetry(Attached(anew, Over), d)
  }

  predicate CanResumeStarter(r: Recovery) { r.starter.Some? && r.starter.value !in r.inFlight }

  function StarterResumed(r: Recovery, d: Delays, result: Result): Recovery
    requires CanResumeStarter(r)
  {
    var rest := r.(starter := None, activePage := if r.activePage == r.starter then None else r.activePage);
    if r.stopping || result == Success(false) then rest
    else if result.Failure? then BeforeRetry(Attached(rest, Over), d)
    else Looped(Attached(rest, Over), true)
  }

  predicate CanYield(r: Recovery) { r.continuation == Some(Yielding) }

  function Yielded(r: Recovery, d: Delays, claims: bool): Recovery
    requires CanYield(r)
  {
    if r.stopping then r.(continuation := Some(Over))
    else if !claims then BeforeRetry(r, d)
    else Begun(r).(continuation := Some(Paging(r.pages)))
  }

  predicate CanClearPage(r: Recovery)
  {
    r.continuation.Some? && r.continuation.value.Paging? && r.continuation.value.page !in r.inFlight
  }

  function PageCleared(r: Recovery): Recovery
    requires CanClearPage(r)
  {
    r.(activePage := if r.activePage == Some(r.continuation.value.page) then None else r.activePage, continuation := Some(Resuming))
  }

  predicate CanResumeLoop(r: Recovery) { r.continuation == Some(Resuming) }

  function LoopResumed(r: Recovery, d: Delays, result: Result): Recovery
    requires CanResumeLoop(r)
  {
    match result
    case Success(hasMore) => Looped(r.(attempt := 0, waited := []), hasMore)
    case Failure => if r.stopping then r.(continuation := Some(Over)) else BeforeRetry(r, d)
  }

  // The timer fires or a stop clears it: either way the wait is resolved.
  function RetryResolved(r: Recovery): Recovery
  {
    if r.hasRetry then r.(hasRetry := false, continuation := Some(Waiting(true))) else r
  }

  function Stopped(r: Recovery): Recovery
  {
    var rest := RetryResolved(r).(stopping := true);
    rest.(stops := r.stops + [Stop(r.activePage, if r.continuation.Some? then Some(r.loops) else None, r.starts)])
  }

  datatype Event =
    | Starts(claims: bool)
    | PageSettles(page: nat)
    | StarterResumes(result: Result)
    | Yields(claims: bool)
    | ClearsPage
    | LoopResumes(result: Result)
    | TimerFires
    | Wakes
    | Detaches
    | Stops

  predicate Enabled(r: Recovery, e: Event)
  {
    match e
    case Starts(_) => true
    case PageSettles(page) => page in r.inFlight
    case StarterResumes(_) => CanResumeStarter(r)
    case Yields(_) => CanYield(r)
    case ClearsPage => CanClearPage(r)
    case LoopResumes(_) => CanResumeLoop(r)
    case TimerFires => r.hasRetry
    case Wakes => r.continuation == Some(Waiting(true))
    case Detaches => r.continuation == Some(Over)
    case Stops => true
  }

  function Next(r: Recovery, d: Delays, e: Event): Recovery
    requires Enabled(r, e)
  {
    match e
    case Starts(claims) => Started(r, d, claims)
    case PageSettles(page) => r.(inFlight := r.inFlight - {page})
    case StarterResumes(result) => StarterResumed(r, d, result)
    case Yields(claims) => Yielded(r, d, claims)
    case ClearsPage => PageCleared(r)
    case LoopResumes(result) => LoopResumed(r, d, result)
    case TimerFires => RetryResolved(r)
    case Wakes => Looped(r, true)
    case Detaches => r.(continuation := None)
    case Stops => Stopped(r)
  }

  // ------------------------------------------------------------ what steps keep

  lemma StepKeepsOnePage(r: Recovery, d: Delays, e: Event)
    requires OnePage(r) && Wakeable(r) && Enabled(r, e)
    ensures OnePage(Next(r, d, e)) && Wakeable(Next(r, d, e))
  {
  }

  lemma StepKeepsPatience(r: Recovery, d: Delays, e: Event)
    requires Patient(r, d) && Enabled(r, e)
    ensures Patient(Next(r, d, e), d)
  {
  }

  lemma StepKeepsCover(r: Recovery, d: Delays, e: Event, stop: Stop)
    requires OnePage(r) && Wakeable(r) && Covers(r, stop) && Enabled(r, e)
    ensures Covers(Next(r, d, e), stop)
  {
  }

  lemma StepKeepsOk(r: Recovery, d: Delays, e: Event)
    requires Ok(r, d) && Enabled(r, e)
    ensures Ok(Next(r, d, e), d)
  {
    StepKeepsOnePage(r, d, e);
    StepKeepsPatience(r, d, e);
    var after := Next(r, d, e);
    forall i | 0 <= i < |after.stops| ensures Covers(after, after.stops[i]) {
      if i < |r.stops| { assert after.stops[i] == r.stops[i]; StepKeepsCover(r, d, e, r.stops[i]); }
    }
  }

  // --------------------------------------------------------------------- runs

  predicate Run(states: seq<Recovery>, events: seq<Event>, d: Delays)
  {
    && |states| == |events| + 1 && states[0] == IDLE
    && forall i :: 0 <= i < |events| ==> Enabled(states[i], events[i]) && states[i + 1] == Next(states[i], d, events[i])
  }

  lemma {:induction false} RunIsOk(states: seq<Recovery>, events: seq<Event>, d: Delays, n: nat)
    requires Run(states, events, d) && n <= |events|
    ensures Ok(states[n], d)
  {
    if n > 0 {
      RunIsOk(states, events, d, n - 1);
      StepKeepsOk(states[n - 1], d, events[n - 1]);
    }
  }

  /** Startup recovery never runs two pages at a time. */
  lemma NeverTwoPages(states: seq<Recovery>, events: seq<Event>, d: Delays, n: nat, p: nat, q: nat)
    requires Run(states, events, d) && n <= |events| && p in states[n].inFlight && q in states[n].inFlight
    ensures p == q
  {
    RunIsOk(states, events, d, n);
  }

  // What a stop waits for has settled.
  predicate MaySettle(r: Recovery, stop: Stop)
  {
    && (stop.page.Some? ==> stop.page.value !in r.inFlight)
    && (stop.loop.Some? ==> r.continuation.None? || r.loops != stop.loop.value)
  }

  predicate Quiet(r: Recovery) { r.inFlight == {} && r.continuation.None? && r.stopping }

  /** When a stop settles and nothing has been started since it was called, nothing is under way. */
  lemma StopWaitsForAll(states: seq<Recovery>, events: seq<Event>, d: Delays, n: nat, i: nat)
    requires Run(states, events, d) && n <= |events| && i < |states[n].stops|
    requires MaySettle(states[n], states[n].stops[i]) && states[n].starts == states[n].stops[i].since
    ensures Quiet(states[n])
  {
    RunIsOk(states, events, d, n);
    var r := states[n];
    assert Covers(r, r.stops[i]);
    if p :| p in r.inFlight { assert false; }
  }

  /** A start between the call of a stop and its end takes effect, and then the stop settles while a page runs. */
  lemma StartDuringStop(d: Delays) returns (states: seq<Recovery>, events: seq<Event>)
    ensures Run(states, events, d) && |events| == 5 && |states[5].stops| == 1
    ensures MaySettle(states[5], states[5].stops[0]) && states[5].inFlight == {1} && !states[5].stopping
  {
    events := [Starts(true), Stops, PageSettles(0), StarterResumes(Success(true)), Starts(true)];
    var one := Next(IDLE, d, events[0]);
    var two := Next(one, d, events[1]);
    var three := Next(two, d, events[2]);
    var four := Next(three, d, events[3]);
    states := [IDLE, one, two, three, four, Next(four, d, events[4])];
  }

  /** From the call of a stop to the next start, no page begins and no retry is left waiting. */
  lemma {:induction false} NoPageWhileStopped(states: seq<Recovery>, events: seq<Event>, d: Delays, m: nat, n: nat)
    requires Run(states, events, d) && m < n <= |events| && events[m] == Stops
    requires states[n].starts == states[m].starts
    ensures states[n].stopping && states[n].pages == states[m].pages && !states[n].hasRetry
  {
    RunIsOk(states, events, d, m);
    if m + 1 < n {
      RunIsOk(states, events, d, n - 1);
      StartsOnlyGrow(states, events, d, m, n - 1);
      StartsOnlyGrow(states, events, d, n - 1, n);
      NoPageWhileStopped(states, events, d, m, n - 1);
      QuietStep(states[n - 1], d, events[n - 1]);
    }
  }

  lemma QuietStep(r: Recovery, d: Delays, e: Event)
    requires Wakeable(r) && r.stopping && Enabled(r, e) && Next(r, d, e).starts == r.starts
    ensures Next(r, d, e).stopping && Next(r, d, e).pages == r.pages && !Next(r, d, e).hasRetry
  {
  }

  lemma {:induction false} StartsOnlyGrow(states: seq<Recovery>, events: seq<Event>, d: Delays, m: nat, n: nat)
    requires Run(states, events, d) && m <= n <= |events|
    ensures states[m].starts <= states[n].starts
  {
    if m < n { StartsOnlyGrow(states, events, d, m, n - 1); }
  }

  /** The delays of a loop since its last success never shrink and stay within their bounds. */
  lemma DelaysNeverShrink(states: seq<Recovery>, events: seq<Event>, d: Delays, n: nat, j: nat, k: nat)
    requires Run(states, events, d) && n <= |events| && j <= k < |states[n].waited|
    ensures d.Initial() <= states[n].waited[j] <= states[n].waited[k] <= d.Maximum()
  {
    RunIsOk(states, events, d, n);
    RetryDelaysGrow(d, j, k);
  }

  /** A loop that is not over can always take a step once its page has settled and its timer has fired. */
  lemma LoopNeverSticks(states: seq<Recovery>, events: seq<Event>, d: Delays, n: nat)
    requires Run(states, events, d) && n <= |events| && states[n].continuation.Some?
    ensures var r := states[n];
      || (exists p :: p in r.inFlight) || Enabled(r, TimerFires) || Enabled(r, Yields(true)) || Enabled(r, ClearsPage)
      || Enabled(r, LoopResumes(Failure)) || Enabled(r, Wakes) || Enabled(r, Detaches)
  {
    RunIsOk(states, events, d, n);
  }

  // How the latest page or claim went.
  function LastResult(states: seq<Recovery>, events: seq<Event>, n: nat): Option<Result>
    requires n <= |events| < |states|
  {
    if n == 0 then None
    else
      match events[n - 1]
      case StarterResumes(result) => Some(result)
      case LoopResumes(result) => Some(result)
      case Yields(false) => Some(Failure)
      case Starts(false) => if states[n].starts > states[n - 1].starts then Some(Failure) else LastResult(states, events, n - 1)
      case _ => LastResult(states, events, n - 1)
  }

  // Neither a page nor a loop is left of what was started.
  predicate AtRest(r: Recovery) { r.starts > 0 && r.starter.None? && (r.continuation.None? || r.continuation.value.Over?) }

  /** Unless it is stopped, recovery comes to rest only after a page with nothing behind it: a failure is always retried. */
  lemma {:induction false} RestsOnlyWhenDone(states: seq<Recovery>, events: seq<Event>, d: Delays, n: nat)
    requires Run(states, events, d) && n <= |events| && AtRest(states[n]) && !states[n].stopping
    ensures LastResult(states, events, n) == Some(Success(false))
  {
    if n > 0 {
      var r, e := states[n - 1], events[n - 1];
      assert Enabled(r, e) && states[n] == Next(r, d, e);
      if AtRest(r) && !r.stopping { RestsOnlyWhenDone(states, events, d, n - 1); }
    }
  }

  // The failures since the last page that was done, or since the loop began.
  function Failures(states: seq<Recovery>, events: seq<Event>, n: nat): nat
    requires n <= |events| < |states|
  {
    if n == 0 then 0
    else
      var before := Failures(states, events, n - 1);
      match events[n - 1]
      case LoopResumes(Success(_)) => 0
      case LoopResumes(Failure) => if states[n - 1].stopping then before else before + 1
      case Yields(claims) => if claims || states[n - 1].stopping then before else before + 1
      case StarterResumes(result) => if states[n].loops == states[n - 1].loops then before else if result.Failure? then 1 else 0
      case Starts(claims) => if states[n].loops == states[n - 1].loops then before else 1
      case _ => before
  }

  /** The loop has waited once for each failure since the last success, the first time for the initial delay. */
  lemma {:induction false} OneWaitPerFailure(states: seq<Recovery>, events: seq<Event>, d: Delays, n: nat)
    requires Run(states, events, d) && n <= |events|
    ensures |states[n].waited| == Failures(states, events, n)
    ensures forall k :: 0 <= k < |states[n].waited| ==> states[n].waited[k] == RetryDelay(d, k)
  {
    RunIsOk(states, events, d, n);
    if n > 0 {
      OneWaitPerFailure(states, events, d, n - 1);
      assert Enabled(states[n - 1], events[n - 1]) && states[n] == Next(states[n - 1], d, events[n - 1]);
    }
  }

  /** Unless recovery is stopped, a wait is over only because its delay is zero or its timer has fired. */
  lemma {:induction false} WaitsForTimer(states: seq<Recovery>, events: seq<Event>, d: Delays, n: nat) returns (m: nat)
    requires Run(states, events, d) && n <= |events| && states[n].continuation == Some(Waiting(true)) && !states[n].stopping
    ensures states[n].waited != []
    ensures states[n].waited[|states[n].waited| - 1] == 0 || (m < n && events[m] == TimerFires && states[m].waited == states[n].waited)
  {
    var r, e := states[n - 1], events[n - 1];
    assert Enabled(r, e) && states[n] == Next(r, d, e);
    RunIsOk(states, events, d, n - 1);
    if r.continuation == Some(Waiting(true)) && !r.stopping {
      m := WaitsForTimer(states, events, d, n - 1);
    } else {
      WaitingHasWaited(states, events, d, n - 1);
      m := n - 1;
    }
  }

  lemma {:induction false} WaitingHasWaited(states: seq<Recovery>, events: seq<Event>, d: Delays, n: nat)
    requires Run(states, events, d) && n <= |events|
    ensures states[n].continuation.Some? && states[n].continuation.value.Waiting? ==> states[n].waited != []
  {
    if n > 0 {
      WaitingHasWaited(states, events, d, n - 1);
      RunIsOk(states, events, d, n - 1);
      assert Enabled(states[n - 1], events[n - 1]) && states[n] == Next(states[n - 1], d, events[n - 1]);
    }
  }

  // ------------------------------------------------------------------ drainer

  class StartupRecovery {
    const delays: Delays
    var continuation: Option<Stage>
    var activePage: Option<nat>
    var stopping: bool
    var hasRetry: bool
    var starter: Option<nat>
    var attempt: nat
    ghost var waited: seq<nat>
    var inFlight: set<nat>
    var pages: nat
    var loops: nat
    ghost var starts: nat
    ghost var stops: seq<Stop>

    ghost function Now(): Recovery
      reads this
    {
      Recovery(continuation, activePage, stopping, hasRetry, starter, attempt, waited, inFlight, pages, loops, starts, stops)
    }

    ghost predicate Valid()
      reads this
    {
      Ok(Now(), delays)
    }

    constructor (delays: Delays)
      ensures Valid() && Now() == IDLE && this.delays == delays
    {
      this.delays := delays;
      continuation, activePage, stopping, hasRetry, starter, attempt := None, None, false, false, None, 0;
      waited, inFlight, pages, loops, starts, stops := [], {}, 0, 0, 0, [];
    }

    method WaitForRetry()
      modifies this`continuation, this`hasRetry, this`attempt, this`waited
      ensures Now() == BeforeRetry(old(Now()), delays)
    {
      var delayMs := RetryDelay(delays, attempt);
      attempt, waited := attempt + 1, waited + [delayMs];
      hasRetry := !stopping && delayMs != 0;
      continuation := Some(Waiting(!hasRetry));
    }

    method RunPage()
      modifies this`activePage, this`inFlight, this`pages
      ensures Now() == Begun(old(Now()))
    {
      inFlight, activePage, pages := inFlight + {pages}, Some(pages), pages + 1;
    }

    method StartRecovery(claims: bool)
      requires Valid()
      modifies this
      ensures Valid() && Now() == Started(old(Now()), delays, claims)
    {
      StepKeepsOk(Now(), delays, Starts(claims));
      if continuation.Some? || activePage.Some? { return; }
      stopping, starts := false, starts + 1;
      if claims {
        RunPage();
        starter := activePage;
      } else {
        loops, attempt, waited := loops + 1, 0, [];
        WaitForRetry();
      }
    }

    method FirstPageSettled(result: Result)
      requires Valid() && CanResumeStarter(Now())
      modifies this
      ensures Valid() && Now() == StarterResumed(old(Now()), delays, result)
    {
      StepKeepsOk(Now(), delays, StarterResumes(result));
      if activePage == starter { activePage := None; }
      starter := None;
      if stopping || result == Success(false) { return; }
      loops, attempt, waited := loops + 1, 0, [];
      if result.Failure? { WaitForRetry(); } else { continuation := Some(Yielding); }
    }

    method NextPage(claims: bool)
      requires Valid() && CanYield(Now())
      modifies this
      ensures Valid() && Now() == Yielded(old(Now()), delays, claims)
    {
      StepKeepsOk(Now(), delays, Yields(claims));
      if stopping {
        continuation := Some(Over);
      } else if claims {
        continuation := Some(Paging(pages));
        RunPage();
      } else {
        WaitForRetry();
      }
    }

    method PageSettled(result: Result)
      requires Valid() && CanResumeLoop(Now())
      modifies this
      ensures Valid() && Now() == LoopResumed(old(Now()), delays, result)
    {
      StepKeepsOk(Now(), delays, LoopResumes(result));
      match result
      case Success(hasMore) =>
        attempt, waited := 0, [];
        continuation := Some(if hasMore && !stopping then Yielding else Over);
      case Failure =>
        if stopping { continuation := Some(Over); } else { WaitForRetry(); }
    }

    method ClearRetry()
      modifies this`continuation, this`hasRetry
      ensures Now() == RetryResolved(old(Now()))
    {
      if hasRetry { hasRetry, continuation := false, Some(Waiting(true)); }
    }

    method StopRecovery() returns (page: Option<nat>, loop: Option<nat>)
      requires Valid()
      modifies this
      ensures Valid() && Now() == Stopped(old(Now()))
      ensures stops == old(stops) + [Stop(page, loop, starts)]
    {
      StepKeepsOk(Now(), delays, Stops);
      stopping := true;
      ClearRetry();
      page, loop := activePage, if continuation.Some? then Some(loops) else None;
      stops := stops + [Stop(page, loop, starts)];
    }
  }
}
