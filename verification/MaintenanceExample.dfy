/**
 The history in which a resumed cycle starts the service without a database: an
 activation is killed after its first rename, and the put-back then fails.
 */
module MaintenanceExample {
  import opened Common
  import opened MaintenanceFiles
  import opened MaintenanceTrace
  import opened MaintenanceCycle

  // A history: the acts so far with the files and the summary they lead to.
  datatype Story = Story(trace: Trace, files: FileSystem, at: nat, sum: Summary)

  const QUIET := Turn(Done, map[])

  function TurnOf(i: nat): Turn
  {
    if i == 15 then Turn(Done, map[BACKUP := Some("s")])
    else if i == 29 then Turn(Done, map[CANDIDATE := Some("c")])
    else if i == 40 then Turn(Killed, map[]) else QUIET
  }

  function FirstTurns(n: nat): (turns: seq<Turn>)
    ensures |turns| == n && forall i :: 0 <= i < n ==> turns[i] == TurnOf(i)
  {
    if n == 0 then [] else FirstTurns(n - 1) + [TurnOf(n - 1)]
  }

  const LENGTH: nat := 41

  // The turns of the first process: every act is done up to its second rename, which is killed.
  const TURNS: seq<Turn> := FirstTurns(LENGTH)

  const BEFORE: FileSystem := map[DATABASE := "s"]
  const START := Then(Nil, Started(BEFORE))

  predicate Told(x: Story) { Recorded(FOLDS, START, TURNS, x.trace, x.files, x.at, x.sum) }

  // So far the dependency of every phase up to this one was called, in order.
  ghost predicate Forward(x: Story, phase: Phase)
  {
    && Told(x) && x.sum.furthest <= phase && x.sum.now <= phase && RanUpTo(phase, x.sum.seen)
    && x.sum.inOrder && x.sum.onceOnly && x.sum.first.None? && x.sum.swaps == 0
  }

  // A step that changes nothing.
  lemma Passes(x: Story, kind: Kind, phase: Phase) returns (y: Story)
    requires Forward(x, phase) && (kind.Check? || kind.Save? || kind.Compare?) && Due(x.trace, kind) && TurnAt(TURNS, x.at).fate == Done
    ensures Forward(y, phase) && y.at == x.at + 1 && y.files == x.files && y.sum == x.sum && Adds(y.trace, x.trace, kind, Done)
    ensures kind.Compare? && !Differs(kind, x.files) ==> Found(y.trace, kind.path)
  {
    var a := Act(kind, x.files, TurnAt(TURNS, x.at));
    y := Story(Then(x.trace, a), x.files, x.at + 1, x.sum);
    RecordOne(START, TURNS, x.trace, x.files, x.at, x.sum, kind);
  }

  // The dependency of the next phase is done.
  lemma Phased(x: Story, site: Site) returns (y: Story)
    requires PhaseOf(Ask(site)) >= 1 && Forward(x, PhaseOf(Ask(site)) - 1) && PhaseOf(Ask(site)) <= CANDIDATE_VALIDATED
    requires Due(x.trace, Ask(site)) && TurnAt(TURNS, x.at).fate == Done
    ensures Forward(y, PhaseOf(Ask(site))) && y.at == x.at + 1 && Did(y.trace, Ask(site))
    ensures y.files == Overlay(x.files, Bases(site), TurnAt(TURNS, x.at).written)
    ensures x.sum.seen <= y.sum.seen && Shown(site, x.files, y.files, y.sum.seen)
  {
    var turn := TurnAt(TURNS, x.at);
    y := Story(Then(x.trace, Act(Ask(site), x.files, turn)), Overlay(x.files, Bases(site), turn.written), x.at + 1, NotedAsk(x.sum, site, x.files, turn));
    RecordAsk(START, TURNS, x.trace, x.files, x.at, x.sum, site);
    AskNoted(site, x.files, x.sum, turn);
    RanOneMore(site, PhaseOf(Ask(site)) - 1, y.sum.seen);
  }

  // The same where it writes nothing.
  lemma Unwritten(x: Story, site: Site) returns (y: Story)
    requires PhaseOf(Ask(site)) >= 1 && Forward(x, PhaseOf(Ask(site)) - 1) && PhaseOf(Ask(site)) <= CANDIDATE_VALIDATED
    requires Due(x.trace, Ask(site)) && TurnAt(TURNS, x.at) == QUIET
    ensures Forward(y, PhaseOf(Ask(site))) && y.at == x.at + 1 && Did(y.trace, Ask(site)) && y.files == x.files
    ensures x.sum.seen <= y.sum.seen && Shown(site, x.files, y.files, y.sum.seen)
  {
    y := Phased(x, site);
    assert Overlay(x.files, Bases(site), map[]) == x.files;
  }

  // The phase is journaled.
  lemma Saved(x: Story, phase: Phase) returns (y: Story)
    requires Forward(x, phase) && DueSave(x.trace, phase) && x.at + 1 < 40
    ensures Forward(y, phase) && y.at == x.at + 2 && y.files == x.files && y.sum == x.sum
  {
    y := Passes(x, Save(phase), phase);
    y := Passes(y, Check(Sync), phase);
  }

  lemma Opened() returns (x: Story)
    ensures Forward(x, PREFLIGHT) && x.at == 2 && x.files == BEFORE
  {
    x := Story(START, BEFORE, 0, NO_ACT);
    assert Sum(START) == Noted(Sum(Nil), Started(BEFORE)) == NO_ACT;
    assert Orderly(START);
    Unfold(START, TURNS, START, BEFORE, 0, NO_ACT);
    x := Saved(x, PREFLIGHT);
  }

  lemma Stopped() returns (x: Story)
    ensures Forward(x, SERVICE_STOPPED) && x.at == 11 && x.files == BEFORE
  {
    x := Opened();
    x := Unwritten(x, AdmissionStop);
    x := Passes(x, Check(Deadline), ADMISSION_STOPPED);
    x := Saved(x, ADMISSION_STOPPED);
    x := Passes(x, Check(Deadline), ADMISSION_STOPPED);
    x := Unwritten(x, ServiceStop);
    x := Passes(x, Check(Deadline), SERVICE_STOPPED);
    x := Saved(x, SERVICE_STOPPED);
  }

  lemma Quiesced() returns (x: Story)
    ensures Forward(x, LEASE_RELEASED) && x.at == 14 && x.files == BEFORE && LeaseProved in x.sum.seen
  {
    x := Stopped();
    x := Unwritten(x, LeaseProof);
    x := Saved(x, LEASE_RELEASED);
  }

  lemma Copied() returns (x: Story)
    ensures Forward(x, BACKUP_CREATED) && x.at == 20 && x.files == BEFORE[BACKUP := "s"] && LeaseProved in x.sum.seen
  {
    x := Quiesced();
    x := Passes(x, Check(Deadline), LEASE_RELEASED);
    x := Phased(x, BackupCopy);
    assert x.files == BEFORE[BACKUP := "s"];
    x := Passes(x, Check(Deadline), BACKUP_CREATED);
    x := Passes(x, Compare(BACKUP, None), BACKUP_CREATED);
    x := Saved(x, BACKUP_CREATED);
  }

  lemma BackedUp() returns (x: Story)
    ensures Forward(x, RETENTION_DRAINED) && x.at == 27 && x.files == BEFORE[BACKUP := "s"]
    ensures LeaseProved in x.sum.seen && Passed(BackupRole, "s") in x.sum.seen
  {
    x := Copied();
    x := Unwritten(x, BackupCheck);
    x := Saved(x, BACKUP_VALIDATED);
    x := Unwritten(x, Drain);
    x := Passes(x, Check(Deadline), RETENTION_DRAINED);
    x := Saved(x, RETENTION_DRAINED);
  }

  lemma CandidateCopied() returns (x: Story)
    ensures Forward(x, CANDIDATE_CREATED) && x.at == 34 && x.files == BEFORE[BACKUP := "s"][CANDIDATE := "c"]
    ensures LeaseProved in x.sum.seen && Passed(BackupRole, "s") in x.sum.seen && Built("s", "c") in x.sum.seen
  {
    x := BackedUp();
    x := Passes(x, Check(Deadline), RETENTION_DRAINED);
    x := Passes(x, Compare(DATABASE, None), RETENTION_DRAINED);
    x := Phased(x, Vacuum);
    assert x.files == BEFORE[BACKUP := "s"][CANDIDATE := "c"];
    x := Passes(x, Check(Deadline), CANDIDATE_CREATED);
    x := Passes(x, Compare(CANDIDATE, None), CANDIDATE_CREATED);
    x := Saved(x, CANDIDATE_CREATED);
  }

  lemma CandidateBuilt() returns (x: Story)
    ensures Forward(x, CANDIDATE_VALIDATED) && x.at == 39 && x.files == BEFORE[BACKUP := "s"][CANDIDATE := "c"]
    ensures LeaseProved in x.sum.seen && Passed(BackupRole, "s") in x.sum.seen
    ensures Built("s", "c") in x.sum.seen && Passed(CandidateRole, "c") in x.sum.seen
    ensures Due(x.trace, Relocate(ACTIVATION[0]))
  {
    x := CandidateCopied();
    x := Unwritten(x, CandidateCheck);
    x := Saved(x, CANDIDATE_VALIDATED);
    x := Passes(x, Compare(DATABASE, Some("s")), CANDIDATE_VALIDATED);
    x := Passes(x, Check(Deadline), CANDIDATE_VALIDATED);
  }

  // What this process has journaled, and the files that it leaves.
  const VALIDATED := Record(CANDIDATE_VALIDATED, Running, Some("s"), Some("c"), None, Some("s"), [BackupRole, CandidateRole], false, false)

  const INTERRUPTED: FileSystem := map[ORIGINAL := "s", BACKUP := "s", CANDIDATE := "c"]

  // The files right before the activation.
  const READY: FileSystem := BEFORE[BACKUP := "s"][CANDIDATE := "c"]

  lemma MovingAway()
    ensures Renamed(READY, ACTIVATION[0]) == INTERRUPTED
  {
    assert ACTIVATION[0] == Rename(DATABASE, ORIGINAL);
  }

  // The first rename of the activation is done.
  lemma MovedAway(x: Story) returns (y: Story)
    requires Forward(x, CANDIDATE_VALIDATED) && x.at == 39 && x.files == READY && Due(x.trace, Relocate(ACTIVATION[0]))
    ensures Told(y) && y.at == 40 && y.files == INTERRUPTED && y.sum == NotedMove(x.sum, ACTIVATION[0], READY, Done)
  {
    var a := Act(Relocate(ACTIVATION[0]), READY, TURNS[39]);
    RecordOne(START, TURNS, x.trace, x.files, x.at, x.sum, a.kind);
    MovingAway();
    y := Story(Then(x.trace, a), INTERRUPTED, 40, NotedMove(x.sum, ACTIVATION[0], READY, Done));
  }

  // And the next one is killed.
  lemma CutOff(x: Story) returns (y: Story)
    requires Told(x) && x.at == 40 && x.files == INTERRUPTED
    ensures Told(y) && y.files == INTERRUPTED && Cut(y.trace) && y.sum == NotedMove(x.sum, ACTIVATION[3], INTERRUPTED, Killed)
  {
    assert ACTIVATION[0] == Rename(DATABASE, ORIGINAL) && ACTIVATION[3] == Rename(CANDIDATE, DATABASE);
    var b := Act(Relocate(ACTIVATION[3]), INTERRUPTED, TURNS[40]);
    RecordOne(START, TURNS, x.trace, x.files, x.at, x.sum, b.kind);
    y := Story(Then(x.trace, b), INTERRUPTED, 41, NotedMove(x.sum, ACTIVATION[3], INTERRUPTED, Killed));
  }

  // What the summary says by then.
  lemma CutOffNoted(s: Summary, now: Summary)
    requires s.inOrder && s.onceOnly && s.first.None? && s.swaps == 0 && s.furthest <= CANDIDATE_VALIDATED && s.now <= CANDIDATE_VALIDATED
    requires now == NotedMove(NotedMove(s, ACTIVATION[0], READY, Done), ACTIVATION[3], INTERRUPTED, Killed)
    ensures now.inOrder && now.onceOnly && now.first == Some(READY) && now.swaps == 0 && now.furthest == CANDIDATE_ACTIVATED && now.seen == s.seen
  {
    assert ACTIVATION[0] == Rename(DATABASE, ORIGINAL) && ACTIVATION[3] == Rename(CANDIDATE, DATABASE);
  }

  lemma InterruptedIsSound(s: Summary)
    requires s.inOrder && s.onceOnly && s.first == Some(READY) && s.swaps == 0 && s.furthest == CANDIDATE_ACTIVATED
    requires RanUpTo(CANDIDATE_VALIDATED, s.seen) && LeaseProved in s.seen && Passed(BackupRole, "s") in s.seen
    requires Built("s", "c") in s.seen && Passed(CandidateRole, "c") in s.seen
    ensures Sound(INTERRUPTED, VALIDATED, s)
  {
  }

  /** A process that was killed between the renames of its activation leaves a journal that holds. */
  lemma KilledActivation() returns (x: Story)
    ensures Told(x) && x.files == INTERRUPTED && Cut(x.trace) && Sound(INTERRUPTED, VALIDATED, x.sum)
  {
    x := CandidateBuilt();
    var s := x.sum;
    x := MovedAway(x);
    x := CutOff(x);
    CutOffNoted(s, x.sum);
    InterruptedIsSound(x.sum);
  }

  method KilledCycle(turns: seq<Turn>) returns (c: Cycle)
    ensures fresh(c) && c.History() && c.Consistent() && c.turns == turns && Cut(c.trace)
    ensures c.files == INTERRUPTED && c.journal == Some(VALIDATED)
  {
    c := new Cycle(INTERRUPTED, turns);
    ghost var x := KilledActivation();
    UnfoldSound(x.files, VALIDATED, x.sum);
    Unfold(START, TURNS, x.trace, x.files, x.at, x.sum);
    c.journal, c.trace, c.sum := Some(VALIDATED), x.trace, x.sum;
  }

  /**
   The next process resumes such a cycle, its put-back fails at the first rename, and it
   starts the service without a database and journals that the cycle was rolled back.
   */
  method RestartsWithoutDatabase() returns (c: Cycle, e: Ending)
    ensures c.History() && e == RollBack && c.sum.restarted == Some(INTERRUPTED) && DATABASE !in INTERRUPTED
    ensures c.journal.Some? && !Resumable(c.journal.value)
  {
    c := KilledCycle([QUIET, QUIET, QUIET, Turn(Broke, map[])]);
    assert c.PutBackFails();
    e := c.Run(true);
  }

  /**
   Whenever a cycle is about to activate a candidate and the preserved original cannot be read
   once the four renames are done, the failure is handled as if nothing had been activated: the
   service is started on the candidate, with the source beside it, and the journal says that
   the cycle was rolled back.
   */
  method UnrecordedActivation(c: Cycle) returns (e: Ending)
    requires c.Ready(CANDIDATE_VALIDATED) && Read(c.files) == NotStarted
    requires LosesHash(c.files, c.record.source, c.turns, c.at) && Calm(c.turns, c.at + 6, 3)
    modifies c
    ensures e == RollBack && c.sum.restarted == Some(ActivationPrefix(old(c.files), 4)) && c.sum.stopped.None?
    ensures c.journal.Some? && c.journal.value.phase == ROLLED_BACK && !Resumable(c.journal.value)
  {
    var o := c.Activate();
    e := c.HandleFailure();
  }
}
