/**
 The per-prompt queue of convergences. A call chains its body behind the promise
 that `tails` holds for the prompt, and a clean-up that runs after the body removes
 the entry if it is still the call's own. A promise is named by its call's number.
 */
module TailQueue {
  import opened Common

  // What a call's own promise is doing; it rejects if the body failed.
  datatype Status = Queued | Running | Settled(failed: bool)

  // The tail is the promise with its failure caught: once it has settled it is fulfilled.
  datatype Promise = Unsettled | Fulfilled | Rejected

  function Work(status: Status): Promise
  {
    match status
    case Settled(failed) => if failed then Rejected else Fulfilled
    case _ => Unsettled
  }

  function Caught(promise: Promise): Promise { if promise == Rejected then Fulfilled else promise }

  datatype Call = Call(prompt: string, after: Option<nat>, status: Status, cleaned: bool)

  predicate SamePrompt(calls: seq<Call>, a: nat, b: nat)
    requires a < |calls| && b < |calls|
  {
    calls[a].prompt == calls[b].prompt
  }

  // Whatever a prompt's earlier call is doing, a later body has not begun before it is over.
  ghost predicate InCallOrder(calls: seq<Call>)
  {
    forall a, b :: 0 <= a < b < |calls| && SamePrompt(calls, a, b) && calls[b].status != Queued ==> calls[a].status.Settled?
  }

  // A call waits for the one right before it, or for none when all before it are over.
  ghost predicate Chained(calls: seq<Call>)
  {
    && (forall b :: 0 <= b < |calls| && calls[b].after.Some? ==> calls[b].after.value < b && SamePrompt(calls, calls[b].after.value, b))
    && (forall a, b :: 0 <= a < b < |calls| && SamePrompt(calls, a, b) && !calls[a].status.Settled? ==> calls[b].after.Some? && a <= calls[b].after.value)
  }

  // The entry of a prompt is its last call; without one, all its calls are over.
  ghost predicate Tailed(calls: seq<Call>, tails: map<string, nat>)
  {
    && (forall p :: p in tails ==> tails[p] < |calls| && calls[tails[p]].prompt == p && !calls[tails[p]].cleaned)
    && (forall c :: 0 <= c < |calls| && calls[c].prompt in tails ==> c <= tails[calls[c].prompt])
    && (forall c :: 0 <= c < |calls| && calls[c].prompt !in tails ==> calls[c].status.Settled?)
    && (forall c :: 0 <= c < |calls| && calls[c].cleaned ==> calls[c].status.Settled?)
  }

  ghost predicate Ok(calls: seq<Call>, tails: map<string, nat>)
  {
    InCallOrder(calls) && Chained(calls) && Tailed(calls, tails)
  }

  predicate MayStart(calls: seq<Call>, c: nat)
    requires c < |calls|
  {
    calls[c].status == Queued &&
    (calls[c].after.None? || (calls[c].after.value < |calls| && Caught(Work(calls[calls[c].after.value].status)) == Fulfilled))
  }

  // -------------------------------------------------------------------- steps

  function Tail(tails: map<string, nat>, prompt: string): Option<nat>
  {
    if prompt in tails then Some(tails[prompt]) else None
  }

  function Called(calls: seq<Call>, tails: map<string, nat>, prompt: string): seq<Call>
  {
    calls + [Call(prompt, Tail(tails, prompt), Queued, false)]
  }

  function Marked(calls: seq<Call>, c: nat, status: Status): seq<Call>
    requires c < |calls|
  {
    calls[c := calls[c].(status := status)]
  }

  function Cleaned(calls: seq<Call>, c: nat): seq<Call>
    requires c < |calls|
  {
    calls[c := calls[c].(cleaned := true)]
  }

  function Dropped(calls: seq<Call>, tails: map<string, nat>, c: nat): map<string, nat>
    requires c < |calls|
  {
    if Tail(tails, calls[c].prompt) == Some(c) then tails - {calls[c].prompt} else tails
  }

  class Convergence {
    var calls: seq<Call>
    var tails: map<string, nat>

    ghost predicate Valid()
      reads this
    {
      Ok(calls, tails)
    }

    constructor ()
      ensures Valid() && calls == [] && tails == map[]
    {
      calls, tails := [], map[];
    }

    method Converge(promptId: string) returns (work: nat)
      requires Valid()
      modifies this
      ensures Valid()
      ensures work == |old(calls)| && calls == Called(old(calls), old(tails), promptId)
      ensures tails == old(tails)[promptId := work]
    {
      CallKeepsOk(calls, tails, promptId);
      var previous := if promptId in tails then Some(tails[promptId]) else None;
      work := |calls|;
      calls := calls + [Call(promptId, previous, Queued, false)];
      tails := tails[promptId := work];
    }

    // The promise the call waits for has settled, whether its body failed or not.
    method Start(c: nat)
      requires Valid() && c < |calls| && MayStart(calls, c)
      modifies this`calls
      ensures Valid() && calls == Marked(old(calls), c, Running)
    {
      StartKeepsOk(calls, tails, c);
      calls := calls[c := calls[c].(status := Running)];
    }

    method Finish(c: nat, failed: bool)
      requires Valid() && c < |calls| && calls[c].status == Running
      modifies this`calls
      ensures Valid() && calls == Marked(old(calls), c, Settled(failed))
    {
      FinishKeepsOk(calls, tails, c, failed);
      calls := calls[c := calls[c].(status := Settled(failed))];
    }

    method CleanUp(c: nat)
      requires Valid() && c < |calls| && calls[c].status.Settled? && !calls[c].cleaned
      modifies this
      ensures Valid() && calls == Cleaned(old(calls), c) && tails == Dropped(old(calls), old(tails), c)
    {
      CleanUpKeepsOk(calls, tails, c);
      var promptId := calls[c].prompt;
      calls := calls[c := calls[c].(cleaned := true)];
      if promptId in tails && tails[promptId] == c {
        tails := tails - {promptId};
      }
    }
  }

  lemma CallKeepsOk(calls: seq<Call>, tails: map<string, nat>, prompt: string)
    requires Ok(calls, tails)
    ensures Ok(Called(calls, tails, prompt), tails[prompt := |calls|])
  {
    var longer := Called(calls, tails, prompt);
    assert Chained(longer) by {
      forall a, b | 0 <= a < b < |longer| && SamePrompt(longer, a, b) && !longer[a].status.Settled?
        ensures longer[b].after.Some? && a <= longer[b].after.value
      {
        assert b < |calls| ==> SamePrompt(calls, a, b);
      }
    }
    assert InCallOrder(longer) by {
      forall a, b | 0 <= a < b < |longer| && SamePrompt(longer, a, b) && longer[b].status != Queued
        ensures longer[a].status.Settled?
      {
        assert SamePrompt(calls, a, b);
      }
    }
  }

  lemma StartKeepsOk(calls: seq<Call>, tails: map<string, nat>, c: nat)
    requires Ok(calls, tails) && c < |calls| && MayStart(calls, c)
    ensures Ok(Marked(calls, c, Running), tails)
  {
    StartKeepsOrder(calls, c);
    MarkKeepsShape(calls, tails, c, Running);
    var after := Marked(calls, c, Running);
    forall a, b | 0 <= a < b < |after| && SamePrompt(after, a, b) && after[b].status != Queued ensures after[a].status.Settled? {
      assert SamePrompt(calls, a, b);
    }
  }

  lemma FinishKeepsOk(calls: seq<Call>, tails: map<string, nat>, c: nat, failed: bool)
    requires Ok(calls, tails) && c < |calls| && calls[c].status == Running
    ensures Ok(Marked(calls, c, Settled(failed)), tails)
  {
    MarkKeepsShape(calls, tails, c, Settled(failed));
    var after := Marked(calls, c, Settled(failed));
    forall a, b | 0 <= a < b < |after| && SamePrompt(after, a, b) && after[b].status != Queued ensures after[a].status.Settled? {
      assert SamePrompt(calls, a, b);
    }
  }

  // Moving an unsettled call on keeps who waits for whom.
  lemma MarkKeepsShape(calls: seq<Call>, tails: map<string, nat>, c: nat, status: Status)
    requires Chained(calls) && Tailed(calls, tails) && c < |calls| && !calls[c].status.Settled?
    ensures Chained(Marked(calls, c, status)) && Tailed(Marked(calls, c, status), tails)
  {
    var after := Marked(calls, c, status);
    forall a, b | 0 <= a < b < |after| && SamePrompt(after, a, b) && !after[a].status.Settled?
      ensures after[b].after.Some? && a <= after[b].after.value
    {
      assert SamePrompt(calls, a, b);
    }
  }

  lemma CleanUpKeepsOk(calls: seq<Call>, tails: map<string, nat>, c: nat)
    requires Ok(calls, tails) && c < |calls| && calls[c].status.Settled? && !calls[c].cleaned
    ensures Ok(Cleaned(calls, c), Dropped(calls, tails, c))
  {
    var after := Cleaned(calls, c);
    forall a, b | 0 <= a < b < |after| && SamePrompt(after, a, b)
      ensures after[b].status != Queued ==> after[a].status.Settled?
      ensures !after[a].status.Settled? ==> after[b].after.Some? && a <= after[b].after.value
    {
      assert SamePrompt(calls, a, b);
    }
    CleanUpKeepsTails(calls, tails, c);
    forall a | 0 <= a < |after| && after[a].prompt !in Dropped(calls, tails, c) ensures after[a].status.Settled? {
      if a < c && calls[a].prompt == calls[c].prompt { assert SamePrompt(calls, a, c); }
    }
  }

  lemma StartKeepsOrder(calls: seq<Call>, c: nat)
    requires InCallOrder(calls) && Chained(calls) && c < |calls| && MayStart(calls, c)
    ensures forall a :: 0 <= a < c && SamePrompt(calls, a, c) ==> calls[a].status.Settled?
  {
    forall a | 0 <= a < c && SamePrompt(calls, a, c) ensures calls[a].status.Settled? {
      if !calls[a].status.Settled? {
        var last := calls[c].after.value;
        assert a < last && SamePrompt(calls, a, last);
      }
    }
  }

  lemma CleanUpKeepsTails(calls: seq<Call>, tails: map<string, nat>, c: nat)
    requires Ok(calls, tails) && c < |calls| && calls[c].status.Settled?
    ensures calls[c].prompt in tails && tails[calls[c].prompt] == c ==>
      forall a :: 0 <= a < |calls| && SamePrompt(calls, a, c) ==> calls[a].status.Settled?
  {}

  // --------------------------------------------------------------------- runs

  datatype Event = Converges(prompt: string) | Starts(c: nat) | Finishes(c: nat, failed: bool) | CleansUp(c: nat)

  datatype Queue = Queue(calls: seq<Call>, tails: map<string, nat>)

  // One step of the event loop, in any order the promises allow.
  predicate Step(q: Queue, e: Event, q': Queue)
  {
    match e
    case Converges(p) => q' == Queue(Called(q.calls, q.tails, p), q.tails[p := |q.calls|])
    case Starts(c) => c < |q.calls| && MayStart(q.calls, c) && q' == Queue(Marked(q.calls, c, Running), q.tails)
    case Finishes(c, failed) => c < |q.calls| && q.calls[c].status == Running && q' == Queue(Marked(q.calls, c, Settled(failed)), q.tails)
    case CleansUp(c) =>
      && c < |q.calls| && q.calls[c].status.Settled? && !q.calls[c].cleaned
      && q' == Queue(Cleaned(q.calls, c), Dropped(q.calls, q.tails, c))
  }

  predicate Run(states: seq<Queue>, events: seq<Event>)
  {
    && |states| == |events| + 1 && states[0] == Queue([], map[])
    && forall i :: 0 <= i < |events| ==> Step(states[i], events[i], states[i + 1])
  }

  /** Every interleaving of calls, bodies and clean-ups keeps the queue in order. */
  lemma {:induction false} EveryInterleavingIsOk(states: seq<Queue>, events: seq<Event>, n: nat)
    requires Run(states, events) && n <= |events|
    ensures Ok(states[n].calls, states[n].tails)
  {
    if n > 0 {
      var q := states[n - 1];
      EveryInterleavingIsOk(states, events, n - 1);
      assert Step(q, events[n - 1], states[n]);
      match events[n - 1]
      case Converges(p) => CallKeepsOk(q.calls, q.tails, p);
      case Starts(c) => StartKeepsOk(q.calls, q.tails, c);
      case Finishes(c, failed) => FinishKeepsOk(q.calls, q.tails, c, failed);
      case CleansUp(c) => CleanUpKeepsOk(q.calls, q.tails, c);
    }
  }

  /** Two bodies of one prompt never overlap, and the earlier call's is over before the later one's begins. */
  lemma BodiesNeverOverlap(states: seq<Queue>, events: seq<Event>, n: nat, a: nat, b: nat)
    requires Run(states, events) && n <= |events| && a < b < |states[n].calls| && SamePrompt(states[n].calls, a, b)
    ensures var calls := states[n].calls;
      && !(calls[a].status == Running && calls[b].status == Running)
      && (calls[b].status != Queued ==> calls[a].status.Settled?)
  {
    EveryInterleavingIsOk(states, events, n);
  }

  /** A prompt without an entry has nothing left to run, and when every clean-up has run there is no entry. */
  lemma TailsAreDroppedLast(states: seq<Queue>, events: seq<Event>, n: nat)
    requires Run(states, events) && n <= |events|
    ensures var calls, tails := states[n].calls, states[n].tails;
      && (forall c :: 0 <= c < |calls| && !calls[c].status.Settled? ==> calls[c].prompt in tails)
      && ((forall c :: 0 <= c < |calls| ==> calls[c].cleaned) ==> tails == map[])
  {
    EveryInterleavingIsOk(states, events, n);
    var calls, tails := states[n].calls, states[n].tails;
    if forall c :: 0 <= c < |calls| ==> calls[c].cleaned {
      forall p ensures p !in tails {}
    }
  }

  /** The queue never gets stuck: of the calls that are not over, the first can start or is running. */
  lemma FirstUnsettledCanGo(states: seq<Queue>, events: seq<Event>, n: nat, c: nat)
    requires Run(states, events) && n <= |events| && c < |states[n].calls| && !states[n].calls[c].status.Settled?
    requires forall a :: 0 <= a < c ==> states[n].calls[a].status.Settled?
    ensures states[n].calls[c].status == Running || MayStart(states[n].calls, c)
  {
    EveryInterleavingIsOk(states, events, n);
    var calls := states[n].calls;
    if calls[c].after.Some? { assert calls[calls[c].after.value].status.Settled?; }
  }

  // The body of call c ended before event n, and failed or not.
  ghost predicate Ended(events: seq<Event>, n: nat, c: nat, failed: bool)
    requires n <= |events|
  {
    exists m :: 0 <= m < n && events[m] == Finishes(c, failed)
  }

  /** A call's promise rejects exactly if its own body failed: a failure before it in the queue is caught. */
  lemma {:induction false} FailureIsOwn(states: seq<Queue>, events: seq<Event>, n: nat, c: nat, failed: bool)
    requires Run(states, events) && n <= |events|
    ensures (c < |states[n].calls| && Work(states[n].calls[c].status) == if failed then Rejected else Fulfilled) <==> Ended(events, n, c, failed)
  {
    if n > 0 {
      FailureIsOwn(states, events, n - 1, c, failed);
      assert Step(states[n - 1], events[n - 1], states[n]);
      if Ended(events, n - 1, c, failed) {
        var m :| 0 <= m < n - 1 && events[m] == Finishes(c, failed);
        assert Ended(events, n, c, failed);
      }
      if events[n - 1] == Finishes(c, failed) { assert Ended(events, n, c, failed); }
    }
  }
}
