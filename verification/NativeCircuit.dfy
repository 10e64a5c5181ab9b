/**
 The circuit around native requests. A request runs up to its await when it is admitted
 and from there when its answer is in, and any number of them overlap.
 */
module NativeCircuit {
  import opened Common

  datatype Options = Options(hasNative: bool, failureThreshold: Option<int>, openMs: Option<int>)
  {
    function Threshold(): (n: int)
      ensures n >= 1
    {
      Max(1, if failureThreshold.Some? then failureThreshold.value else 3)
    }

    function OpenMs(): (n: int)
      ensures n >= 1
    {
      Max(1, if openMs.Some? then openMs.value else 10_000)
    }
  }

  // A request that was admitted at a time, as a probe or not, and is live until it is answered.
  datatype Call = Call(at: nat, probing: bool, live: bool)

  // The three fields, the requests so far, and what was recorded: true for a success.
  datatype Circuit = Circuit(failures: nat, openUntil: nat, probeInFlight: bool, calls: seq<Call>, recorded: seq<bool>)

  const FRESH := Circuit(0, 0, false, [], [])

  datatype Status = Closed | HalfOpen | Open

  function StatusAt(openUntil: nat, now: nat): Status
  {
    if openUntil == 0 then Closed else if now >= openUntil then HalfOpen else Open
  }

  // The failures recorded since the last success.
  function Failures(recorded: seq<bool>): nat
  {
    if recorded == [] || recorded[|recorded| - 1] then 0 else 1 + Failures(recorded[..|recorded| - 1])
  }

  predicate Probing(c: Circuit, i: int) { 0 <= i < |c.calls| && c.calls[i].live && c.calls[i].probing }

  ghost predicate OneProbe(c: Circuit)
  {
    && (forall i, j :: Probing(c, i) && Probing(c, j) ==> i == j)
    && (c.probeInFlight <==> exists i :: Probing(c, i))
  }

  predicate Counted(c: Circuit, o: Options)
  {
    c.failures == Failures(c.recorded) && (c.openUntil > 0 <==> c.failures >= o.Threshold())
  }

  // The deadline counts from when some request was admitted.
  ghost predicate Dated(c: Circuit, o: Options)
  {
    c.openUntil > 0 ==> exists i :: 0 <= i < |c.calls| && !c.calls[i].live && c.openUntil == c.calls[i].at + o.OpenMs()
  }

  ghost predicate Ok(c: Circuit, o: Options) { OneProbe(c) && Counted(c, o) && Dated(c, o) }

  // -------------------------------------------------------------------- steps

  predicate Admits(c: Circuit, o: Options, now: nat) { o.hasNative && c.openUntil <= now && !c.probeInFlight }

  function Requested(c: Circuit, o: Options, now: nat): Circuit
  {
    if !Admits(c, o, now) then c
    else
      var probing := c.openUntil > 0;
      c.(calls := c.calls + [Call(now, probing, true)], probeInFlight := probing)
  }

  predicate Live(c: Circuit, i: nat) { i < |c.calls| && c.calls[i].live }

  function Finished(c: Circuit, i: nat): Circuit
    requires Live(c, i)
  {
    c.(calls := c.calls[i := c.calls[i].(live := false)], probeInFlight := c.probeInFlight && !c.calls[i].probing)
  }

  function Succeeded(c: Circuit, i: nat): Circuit
    requires Live(c, i)
  {
    Finished(c, i).(failures := 0, openUntil := 0, recorded := c.recorded + [true])
  }

  function Failed(c: Circuit, o: Options, i: nat): Circuit
    requires Live(c, i)
  {
    var openUntil := if c.failures + 1 >= o.Threshold() then c.calls[i].at + o.OpenMs() else c.openUntil;
    Finished(c, i).(failures := c.failures + 1, openUntil := openUntil, recorded := c.recorded + [false])
  }

  datatype Event = Requests(now: nat) | Succeeds(i: nat) | Fails(i: nat)

  predicate Step(c: Circuit, o: Options, e: Event, c': Circuit)
  {
    match e
    case Requests(now) => c' == Requested(c, o, now)
    case Succeeds(i) => Live(c, i) && c' == Succeeded(c, i)
    case Fails(i) => Live(c, i) && c' == Failed(c, o, i)
  }

  // ------------------------------------------------------------ what steps keep

  lemma FailuresAppend(recorded: seq<bool>, success: bool)
    ensures Failures(recorded + [success]) == if success then 0 else Failures(recorded) + 1
  {
    assert (recorded + [success])[..|recorded|] == recorded;
  }

  lemma RequestKeepsProbe(c: Circuit, o: Options, now: nat)
    requires OneProbe(c)
    ensures OneProbe(Requested(c, o, now))
  {
    var after := Requested(c, o, now);
    if Admits(c, o, now) {
      forall i ensures Probing(after, i) <==> Probing(c, i) || (i == |c.calls| && c.openUntil > 0) {}
      if c.openUntil > 0 { assert Probing(after, |c.calls|); }
    }
  }

  lemma FinishKeepsProbe(c: Circuit, i: nat)
    requires OneProbe(c) && Live(c, i)
    ensures OneProbe(Finished(c, i))
  {
    var after := Finished(c, i);
    forall j ensures Probing(after, j) <==> Probing(c, j) && j != i {}
    if c.calls[i].probing {
      assert Probing(c, i);
    } else if c.probeInFlight {
      var j :| Probing(c, j);
      assert Probing(after, j);
    }
  }

  lemma StepKeepsOk(c: Circuit, o: Options, e: Event, c': Circuit)
    requires Ok(c, o) && Step(c, o, e, c')
    ensures Ok(c', o)
  {
    match e
    case Requests(now) =>
      RequestKeepsProbe(c, o, now);
      if c.openUntil > 0 {
        var k :| 0 <= k < |c.calls| && !c.calls[k].live && c.openUntil == c.calls[k].at + o.OpenMs();
        assert c'.calls[k] == c.calls[k];
      }
    case Succeeds(i) =>
      FinishKeepsProbe(c, i);
      SameProbe(Finished(c, i), c');
      FailuresAppend(c.recorded, true);
    case Fails(i) =>
      FinishKeepsProbe(c, i);
      SameProbe(Finished(c, i), c');
      FailuresAppend(c.recorded, false);
      if c'.openUntil > 0 { assert !c'.calls[i].live && c'.openUntil == c'.calls[i].at + o.OpenMs(); }
  }

  lemma SameProbe(a: Circuit, b: Circuit)
    requires OneProbe(a) && b.calls == a.calls && b.probeInFlight == a.probeInFlight
    ensures OneProbe(b)
  {
    forall i ensures Probing(a, i) <==> Probing(b, i) {}
    if a.probeInFlight { var i :| Probing(a, i); assert Probing(b, i); }
  }

  // --------------------------------------------------------------------- runs

  predicate Run(states: seq<Circuit>, events: seq<Event>, o: Options)
  {
    && |states| == |events| + 1 && states[0] == FRESH
    && forall i :: 0 <= i < |events| ==> Step(states[i], o, events[i], states[i + 1])
  }

  lemma {:induction false} RunIsOk(states: seq<Circuit>, events: seq<Event>, o: Options, n: nat)
    requires Run(states, events, o) && n <= |events|
    ensures Ok(states[n], o)
  {
    if n > 0 {
      RunIsOk(states, events, o, n - 1);
      assert Step(states[n - 1], o, events[n - 1], states[n]);
      StepKeepsOk(states[n - 1], o, events[n - 1], states[n]);
    }
  }

  /** At most one probe is outstanding, and the flag is set exactly then. */
  lemma AtMostOneProbe(states: seq<Circuit>, events: seq<Event>, o: Options, n: nat, i: nat, j: nat)
    requires Run(states, events, o) && n <= |events| && Probing(states[n], i)
    ensures states[n].probeInFlight && (Probing(states[n], j) ==> i == j)
  {
    RunIsOk(states, events, o, n);
  }

  lemma FlagMeansProbe(states: seq<Circuit>, events: seq<Event>, o: Options, n: nat) returns (i: nat)
    requires Run(states, events, o) && n <= |events| && states[n].probeInFlight
    ensures Probing(states[n], i)
  {
    RunIsOk(states, events, o, n);
    i :| Probing(states[n], i);
  }

  /** There is a deadline exactly when the failures recorded since the last recorded success reach the threshold. */
  lemma DeadlineMeansFailures(states: seq<Circuit>, events: seq<Event>, o: Options, n: nat)
    requires Run(states, events, o) && n <= |events|
    ensures states[n].openUntil > 0 <==> Failures(states[n].recorded) >= o.Threshold()
  {
    RunIsOk(states, events, o, n);
  }

  /** A request is admitted exactly when the reported status is not open and no probe is outstanding. */
  lemma AdmittedIff(states: seq<Circuit>, events: seq<Event>, o: Options, n: nat, now: nat)
    requires Run(states, events, o) && n < |events| && events[n] == Requests(now) && o.hasNative
    ensures var c := states[n];
      |states[n + 1].calls| == |c.calls| + 1 <==> StatusAt(c.openUntil, now) != Open && !exists i :: Probing(c, i)
    ensures |states[n + 1].calls| == |states[n].calls| ==> states[n + 1] == states[n]
  {
    RunIsOk(states, events, o, n);
    assert Step(states[n], o, events[n], states[n + 1]);
  }

  // The request at step n is admitted.
  predicate AdmittedAt(states: seq<Circuit>, events: seq<Event>, n: nat)
    requires |states| == |events| + 1
  {
    n < |events| && events[n].Requests? && |states[n + 1].calls| == |states[n].calls| + 1
  }

  // And this while the failures since the last recorded success reach the threshold.
  predicate AdmittedHalfOpen(states: seq<Circuit>, events: seq<Event>, o: Options, n: nat)
    requires |states| == |events| + 1
  {
    AdmittedAt(states, events, n) && Failures(states[n].recorded) >= o.Threshold()
  }

  // The request that was admitted at step m is answered at step k.
  predicate AnsweredAt(states: seq<Circuit>, events: seq<Event>, m: nat, k: nat)
    requires |states| == |events| + 1 && m < |events| && k < |events|
  {
    events[k] == Succeeds(|states[m].calls|) || events[k] == Fails(|states[m].calls|)
  }

  /** An admitted request is a probe exactly when the failures since the last recorded success reach the threshold. */
  lemma ProbeIff(states: seq<Circuit>, events: seq<Event>, o: Options, n: nat)
    requires Run(states, events, o) && AdmittedAt(states, events, n)
    ensures states[n + 1].calls == states[n].calls + [Call(events[n].now, Failures(states[n].recorded) >= o.Threshold(), true)]
  {
    RunIsOk(states, events, o, n);
    assert Step(states[n], o, events[n], states[n + 1]);
  }

  lemma {:induction false} ProbeStays(states: seq<Circuit>, events: seq<Event>, o: Options, m: nat, n: nat)
    requires Run(states, events, o) && AdmittedHalfOpen(states, events, o, m) && m < n <= |events|
    requires forall k :: m < k < n ==> !AnsweredAt(states, events, m, k)
    ensures Probing(states[n], |states[m].calls|)
    decreases n
  {
    if n == m + 1 {
      ProbeIff(states, events, o, m);
    } else {
      ProbeStays(states, events, o, m, n - 1);
      assert Step(states[n - 1], o, events[n - 1], states[n]);
      assert !AnsweredAt(states, events, m, n - 1);
    }
  }

  /** From the admission of a request in the half-open state until its own answer, every other request is refused, at any time. */
  lemma ProbeShutsOthersOut(states: seq<Circuit>, events: seq<Event>, o: Options, m: nat, n: nat)
    requires Run(states, events, o) && AdmittedHalfOpen(states, events, o, m) && m < n < |events| && events[n].Requests?
    requires forall k :: m < k < n ==> !AnsweredAt(states, events, m, k)
    ensures states[n + 1] == states[n]
  {
    ProbeStays(states, events, o, m, n);
    AtMostOneProbe(states, events, o, n, |states[m].calls|, |states[m].calls|);
    assert Step(states[n], o, events[n], states[n + 1]);
  }

  /** So of two requests that were admitted in the half-open state the first was answered before the second was admitted. */
  lemma OneHalfOpenRequest(states: seq<Circuit>, events: seq<Event>, o: Options, m: nat, n: nat) returns (k: nat)
    requires Run(states, events, o) && AdmittedHalfOpen(states, events, o, m) && AdmittedHalfOpen(states, events, o, n) && m < n
    ensures m < k < n && AnsweredAt(states, events, m, k)
  {
    if forall k :: m < k < n ==> !AnsweredAt(states, events, m, k) {
      ProbeShutsOthersOut(states, events, o, m, n);
      assert false;
    }
    k :| m < k < n && AnsweredAt(states, events, m, k);
  }

  // ----------------------------------------------------------------- deadlines

  /**
   The deadline counts from the failed request's admission, not from its failure. So
   a failure brings an existing deadline forward exactly when the request was admitted
   before the one that set it.
   */
  lemma DeadlineMovesBack(states: seq<Circuit>, events: seq<Event>, o: Options, n: nat, i: nat) returns (setter: nat)
    requires Run(states, events, o) && n < |events| && events[n] == Fails(i) && states[n].openUntil > 0
    ensures setter < |states[n].calls| && states[n].openUntil == states[n].calls[setter].at + o.OpenMs()
    ensures i < |states[n].calls|
    ensures states[n + 1].openUntil < states[n].openUntil <==> states[n].calls[i].at < states[n].calls[setter].at
  {
    RunIsOk(states, events, o, n);
    var c := states[n];
    setter :| 0 <= setter < |c.calls| && !c.calls[setter].live && c.openUntil == c.calls[setter].at + o.OpenMs();
    assert Step(c, o, events[n], states[n + 1]);
  }

  // Two requests overlap and both fail, the later one first.
  lemma DeadlineMovesBackExample() returns (states: seq<Circuit>, events: seq<Event>)
    ensures Run(states, events, Options(true, Some(1), None))
    ensures |events| == 4 && states[3].openUntil == 10_005 && states[4].openUntil == 10_000
  {
    var o := Options(true, Some(1), None);
    events := [Requests(0), Requests(5), Fails(1), Fails(0)];
    var one := Requested(FRESH, o, 0);
    var two := Requested(one, o, 5);
    var three := Failed(two, o, 1);
    states := [FRESH, one, two, three, Failed(three, o, 0)];
  }

  // ------------------------------------------------------------------ adapter

  class NativeTransport {
    const options: Options
    var nativeFailures: nat
    var nativeOpenUntil: nat
    var nativeProbeInFlight: bool
    ghost var calls: seq<Call>
    ghost var recorded: seq<bool>

    ghost function Now(): Circuit
      reads this
    {
      Circuit(nativeFailures, nativeOpenUntil, nativeProbeInFlight, calls, recorded)
    }

    ghost predicate Valid()
      reads this
    {
      Ok(Now(), options)
    }

    constructor (options: Options)
      ensures Valid() && Now() == FRESH && this.options == options
    {
      this.options := options;
      nativeFailures, nativeOpenUntil, nativeProbeInFlight, calls, recorded := 0, 0, false, [], [];
    }

    // The reported status: open exactly while a deadline lies ahead, with the count of failures.
    method NativeTransportStatus(now: nat) returns (status: Status, consecutiveFailures: nat, nextProbeAt: Option<nat>)
      requires Valid()
      ensures status == Open <==> nativeOpenUntil > now
      ensures status == Closed <==> Failures(recorded) < options.Threshold()
      ensures consecutiveFailures == Failures(recorded)
      ensures nextProbeAt == if status == Closed then None else Some(nativeOpenUntil)
    {
      if nativeOpenUntil == 0 { return Closed, nativeFailures, None; }
      return if now >= nativeOpenUntil then HalfOpen else Open, nativeFailures, Some(nativeOpenUntil);
    }

    // Up to the await: the request's own view of the clock and of being a probe.
    method Request(now: nat) returns (admitted: bool, probing: bool)
      requires Valid()
      modifies this
      ensures Valid() && Now() == Requested(old(Now()), options, now)
      ensures admitted <==> options.hasNative && StatusAt(old(nativeOpenUntil), now) != Open && !old(nativeProbeInFlight)
      ensures admitted ==> calls == old(calls) + [Call(now, probing, true)]
    {
      StepKeepsOk(Now(), options, Requests(now), Requested(Now(), options, now));
      probing := false;
      if !options.hasNative { return false, false; }
      if nativeOpenUntil > now || nativeProbeInFlight { return false, false; }
      admitted, probing := true, nativeOpenUntil > 0;
      if probing { nativeProbeInFlight := true; }
      calls := calls + [Call(now, probing, true)];
    }

    // After the await of request i, which was admitted at `now`.
    method Answer(ghost i: nat, now: nat, probing: bool, success: bool)
      requires Valid() && Live(Now(), i) && calls[i] == Call(now, probing, true)
      modifies this
      ensures Valid() && Now() == if success then Succeeded(old(Now()), i) else Failed(old(Now()), options, i)
    {
      StepKeepsOk(Now(), options, if success then Succeeds(i) else Fails(i), if success then Succeeded(Now(), i) else Failed(Now(), options, i));
      if success {
        nativeFailures, nativeOpenUntil := 0, 0;
      } else {
        nativeFailures := nativeFailures + 1;
        if nativeFailures >= options.Threshold() { nativeOpenUntil := now + options.OpenMs(); }
      }
      if probing { nativeProbeInFlight := false; }
      calls := calls[i := calls[i].(live := false)];
      recorded := recorded + [success];
    }
  }
}
