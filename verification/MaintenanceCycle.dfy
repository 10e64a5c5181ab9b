/**
 The journaled maintenance cycle as a process that can be killed between any two
 effects. Every effect uses up a turn that says how it ends, so a contract that speaks
 of all turns speaks of every crash point and every failing dependency. A ghost trace
 records the acts of all processes; the files are always what the acts made of them.
 */
module MaintenanceCycle {
  import opened Common
  import opened MaintenanceFiles
  import opened MaintenanceTrace

  // ------------------------------------------------------------------ journal

  predicate PhaseReached(actual: Phase, expected: Phase) { actual >= expected }

  datatype Outcome = Running | Completed | Reverted

  datatype Record = Record(
    phase: Phase, outcome: Outcome,
    backup: Option<Content>, candidate: Option<Content>, original: Option<Content>, source: Option<Content>,
    validations: seq<Role>, activated: bool, rolledBack: bool)

  const FRESH := Record(PREFLIGHT, Running, None, None, None, None, [], false, false)

  predicate Resumable(r: Record)
  {
    && r.outcome == Running
    && r.phase >= 0
    && !r.rolledBack
    && (r.activated <==> PhaseReached(r.phase, CANDIDATE_ACTIVATED))
    && (PhaseReached(r.phase, CANDIDATE_CREATED) ==> r.source.Some?)
  }

  // ---------------------------------------------------------------- invariant

  // The dependency of every phase up to this one was done, and those after the activation
  // with the candidate in place.
  ghost predicate RanUpTo(phase: Phase, seen: set<Evidence>)
  {
    forall site :: 0 <= PhaseOf(Ask(site)) <= phase ==> Ran(site, PhaseOf(Ask(site)) > CANDIDATE_ACTIVATED) in seen
  }

  // The validations that a journal of this phase lists.
  function Validated(phase: Phase): seq<Role>
  {
    (if phase >= BACKUP_VALIDATED then [BackupRole] else []) + (if phase >= CANDIDATE_VALIDATED then [CandidateRole] else [])
  }

  // What the journal claims is what was observed.
  ghost predicate Evidenced(j: Record, seen: set<Evidence>)
  {
    && Resumable(j) && j.phase < SMOKE_PASSED && RanUpTo(j.phase, seen)
    && j.validations == Validated(j.phase) && (j.activated ==> j.original == j.source)
    && (PhaseReached(j.phase, LEASE_RELEASED) ==> LeaseProved in seen)
    && (PhaseReached(j.phase, BACKUP_CREATED) ==> j.backup.Some?)
    && (PhaseReached(j.phase, BACKUP_VALIDATED) ==> Passed(BackupRole, j.backup.value) in seen)
    && (PhaseReached(j.phase, CANDIDATE_CREATED) ==> j.candidate.Some? && Built(j.source.value, j.candidate.value) in seen)
    && (PhaseReached(j.phase, CANDIDATE_VALIDATED) ==> Passed(CandidateRole, j.candidate.value) in seen)
  }

  // Where the files are at each phase.
  ghost predicate Laid(fs: FileSystem, j: Record)
    requires Resumable(j) && (PhaseReached(j.phase, CANDIDATE_CREATED) ==> j.candidate.Some?)
  {
    if j.phase < CANDIDATE_CREATED then DATABASE in fs && Beside(fs, Original) == NOTHING
    else if j.phase == CANDIDATE_CREATED then Home(fs, j.candidate.value)
    else if j.phase == CANDIDATE_VALIDATED then Placed(fs, j.candidate.value) && (ORIGINAL in fs ==> At(fs, ORIGINAL) == j.source)
    else At(fs, ORIGINAL) == j.source && CANDIDATE !in fs
  }

  // The source as the first activation found it.
  function SourceParts(s: Summary): Parts
    requires s.first.Some?
  {
    Beside(s.first.value, Database)
  }

  // And the candidate it was about to put in place.
  function CandidateOf(s: Summary): Option<Content>
    requires s.first.Some?
  {
    At(s.first.value, CANDIDATE)
  }

  // The first activation found nothing of an earlier one, and what it found is still held.
  ghost predicate SourceHeld(fs: FileSystem, s: Summary)
    requires s.first.Some?
  {
    DATABASE in s.first.value && CANDIDATE in s.first.value && Beside(s.first.value, Original) == NOTHING && Held(fs) == SourceParts(s)
  }

  // The history fits the phase, and the source is still where an activation left it.
  ghost predicate Kept(fs: FileSystem, phase: Phase, s: Summary)
  {
    && s.inOrder && s.onceOnly && s.furthest <= phase + 1
    && (phase < CANDIDATE_VALIDATED ==> s.first.None?)
    && (phase > CANDIDATE_VALIDATED ==> s.first.Some?)
    && s.swaps == (if Swapped(fs) then 1 else 0)
    && if s.first.Some? then SourceHeld(fs, s) else Beside(fs, Original) == NOTHING
  }

  ghost predicate Sound(fs: FileSystem, j: Record, s: Summary)
  {
    Evidenced(j, s.seen) && Laid(fs, j) && Kept(fs, j.phase, s) && (s.first.Some? ==> j.candidate == CandidateOf(s))
  }

  // The same, folded, because most steps of the program only pass it on.
  ghost predicate Folded(folds: nat, fs: FileSystem, j: Record, s: Summary): (b: bool)
    ensures b ==> Resumable(j) && j.phase < SMOKE_PASSED && s.inOrder && s.onceOnly && (s.first.Some? ==> SourceHeld(fs, s))
    ensures b ==> (j.phase >= BACKUP_CREATED ==> j.backup.Some?) && (j.phase >= CANDIDATE_CREATED ==> j.candidate.Some?)
    decreases folds
  {
    if folds > 0 then Folded(folds - 1, fs, j, s) else Sound(fs, j, s)
  }

  lemma {:induction false} UnfoldSoundAll(folds: nat, fs: FileSystem, j: Record, s: Summary)
    ensures Folded(folds, fs, j, s) <==> Sound(fs, j, s)
  {
    if folds > 0 { UnfoldSoundAll(folds - 1, fs, j, s); }
  }

  lemma UnfoldSound(fs: FileSystem, j: Record, s: Summary)
    ensures Folded(FOLDS, fs, j, s) <==> Sound(fs, j, s)
  {
    UnfoldSoundAll(FOLDS, fs, j, s);
  }

  // The candidate has taken the database's place.
  predicate CandidateIsLive(fs: FileSystem) { DATABASE in fs && Swapped(fs) }

  // Everything that has to have happened before a candidate may be live.
  ghost predicate Earned(fs: FileSystem, j: Record, seen: set<Evidence>)
  {
    && PhaseReached(j.phase, CANDIDATE_VALIDATED)
    && LeaseProved in seen
    && j.backup.Some? && Passed(BackupRole, j.backup.value) in seen
    && j.candidate.Some? && Passed(CandidateRole, j.candidate.value) in seen
    && j.source.Some? && Built(j.source.value, j.candidate.value) in seen
    && At(fs, ORIGINAL) == j.source
    && (j.phase == CANDIDATE_VALIDATED ==> At(fs, DATABASE) == j.candidate)
  }

  /** A live candidate was earned, in every state the invariant describes. */
  lemma LiveCandidateIsEarned(fs: FileSystem, j: Record, s: Summary)
    requires Sound(fs, j, s) && CandidateIsLive(fs)
    ensures Earned(fs, j, s.seen)
  {
    assert j.phase < CANDIDATE_CREATED ==> Beside(fs, Original).main == None;
  }

  // ------------------------------------------------------------------ failures

  // Renames back that were all done have undone whatever was begun: the files are as the
  // first activation found them, or, when an earlier process began it, as this process
  // found them or as reconciliation makes them.
  predicate ReturnedTo(earlier: Option<FileSystem>, first: FileSystem, was: FileSystem, fs: FileSystem)
  {
    if earlier.None? then fs == first else fs == was || fs == Reconciled(was)
  }

  // Or the activation was completed and only its record is missing.
  predicate ActivatedFrom(earlier: Option<FileSystem>, first: FileSystem, was: FileSystem, fs: FileSystem)
  {
    && Read(fs) == Finished
    && if earlier.None? then fs == ActivationPrefix(first, 4) else fs == ActivationPrefix(was, 4) || fs == ActivationPrefix(Reconciled(was), 4)
  }

  predicate Resolved(earlier: Option<FileSystem>, first: FileSystem, was: FileSystem, fs: FileSystem)
  {
    ReturnedTo(earlier, first, was, fs) || ActivatedFrom(earlier, first, was, fs)
  }

  // Where the source is when a process fails that found `was` and the activation `earlier`.
  ghost predicate Salvage(fs: FileSystem, activated: bool, s: Summary, was: FileSystem, earlier: Option<FileSystem>)
  {
    if activated then
      s.first.Some? && ORIGINAL in fs && Beside(fs, Original) == SourceParts(s)
    else if s.first.None? then
      DATABASE in fs && Beside(fs, Original) == NOTHING
    else
      && CandidateOf(s).Some? && Placed(fs, CandidateOf(s).value) && SourceOf(fs) == SourceParts(s)
      && (s.backOk ==> Resolved(earlier, s.first.value, was, fs))
  }

  ghost predicate FoldedSalvage(folds: nat, fs: FileSystem, activated: bool, s: Summary, was: FileSystem, earlier: Option<FileSystem>)
    decreases folds
  {
    if folds > 0 then FoldedSalvage(folds - 1, fs, activated, s, was, earlier) else Salvage(fs, activated, s, was, earlier)
  }

  lemma {:induction false} UnfoldSalvageAll(folds: nat, fs: FileSystem, activated: bool, s: Summary, was: FileSystem, earlier: Option<FileSystem>)
    ensures FoldedSalvage(folds, fs, activated, s, was, earlier) <==> Salvage(fs, activated, s, was, earlier)
  {
    if folds > 0 { UnfoldSalvageAll(folds - 1, fs, activated, s, was, earlier); }
  }

  lemma UnfoldSalvage(fs: FileSystem, activated: bool, s: Summary, was: FileSystem, earlier: Option<FileSystem>)
    ensures FoldedSalvage(FOLDS, fs, activated, s, was, earlier) <==> Salvage(fs, activated, s, was, earlier)
  {
    UnfoldSalvageAll(FOLDS, fs, activated, s, was, earlier);
  }

  // The handler of a failure has not been here, and an earlier activation is not forgotten.
  predicate Unhandled(s: Summary, earlier: Option<FileSystem>)
  {
    s.stopped.None? && s.restarted.None? && (earlier.Some? ==> s.first == earlier)
  }

  // What the handler of a failure starts the service on. Without an activation the source
  // is where it was. After a rollback it is exactly the source if and only if the stopped
  // service left no stray sidecar; without one, if and only if the source is in place.
  ghost predicate RestartsOn(fs: FileSystem, s: Summary)
  {
    if s.first.None? then s.stopped.None? && DATABASE in fs && Beside(fs, Original) == NOTHING
    else if s.stopped.Some? then Beside(fs, Database) == SourceParts(s) <==> !Stray(s.stopped.value)
    else
      && CandidateOf(s).Some?
      && (Beside(fs, Database) == SourceParts(s) <==>
            Home(fs, CandidateOf(s).value) || (Read(fs) == Finished && SourceParts(s) == Parts(CandidateOf(s), None, None)))
  }

  // ------------------------------------------------------------- many processes

  // A kill that leaves the source as the first activation found it.
  ghost predicate Crashed(trace: Trace, fs: FileSystem)
  {
    Cut(trace) && (Sum(trace).first.Some? ==> SourceHeld(fs, Sum(trace)))
  }

  // One process after the other, each with the turns of its life, and each but the last killed.
  ghost predicate Lived(earlier: Trace, lives: seq<seq<Turn>>, trace: Trace)
    decreases |lives|
  {
    if lives == [] then trace == earlier
    else
      var n, start := |lives| - 1, Begun(trace);
      && start.Then? && Aligned(start, lives[n], trace)
      && Lived(earlier, lives[..n], start.prior)
      && (n > 0 ==> Crashed(start.prior, start.act.found))
  }

  // ------------------------------------------------------------------ program

  datatype Ending =
    | Finish                       // the cycle completed
    | Refusal                      // refused before anything was changed
    | Crash                        // killed on the forward path
    | RollBack                     // failed, undone and journaled as rolled back
    | Incomplete(phase: Phase)     // failed, and so did the rollback or the restart
    | Unrecorded                   // failed, and the failure could not be journaled or was cut short

  class Cycle {
    var files: FileSystem
    var journal: Option<Record>
    var record: Record
    var turns: seq<Turn>                   // how the acts of this process end, and how many were made
    var at: nat

    ghost var trace: Trace                 // the acts of all processes
    ghost var sum: Summary                 // what they amount to
    ghost var earlier: Trace               // the trace and the files when this process started
    ghost var files0: FileSystem
    ghost var first0: Option<FileSystem>   // whether an activation had begun by then

    constructor (fs: FileSystem, turns: seq<Turn>)
      ensures files == fs && journal == None && this.turns == turns && trace == Nil && sum == NO_ACT
      ensures History() && Consistent()
    {
      files, journal, record, this.turns, at := fs, None, FRESH, turns, 0;
      trace, sum, earlier, files0, first0 := Nil, NO_ACT, Nil, fs, None;
    }

    // The files are what the acts made of them, each when it was due, in order and with at most one swap.
    ghost predicate History()
      reads this`files, this`trace, this`sum
    {
      Chained(trace, files) && sum == Sum(trace) && Orderly(trace) && sum.inOrder && sum.onceOnly
    }

    // The acts of this process have used its turns one by one.
    ghost predicate Traced()
      reads this`files, this`turns, this`at, this`trace, this`sum, this`earlier
    {
      Recorded(FOLDS, earlier, turns, trace, files, at, sum)
    }

    // A later process can take over from here, whatever is in memory.
    ghost predicate Recoverable()
      reads this`files, this`journal, this`sum
    {
      journal.Some? && Folded(FOLDS, files, journal.value, sum)
    }

    // The journal says that the cycle is over, and rightly so.
    ghost predicate Over()
      reads this`files, this`journal, this`sum
    {
      && journal.Some? && journal.value.outcome == Completed && journal.value.phase == SMOKE_PASSED
      && journal.value.validations == Validated(SMOKE_PASSED) && RanUpTo(SMOKE_PASSED, sum.seen)
      && Earned(files, journal.value, sum.seen) && sum.furthest == SMOKE_PASSED
    }

    // Any journal that a later process would accept is one it can take over from, and
    // without one no phase has begun.
    ghost predicate Consistent()
      reads this`files, this`journal, this`sum
    {
      if journal.None? then sum.furthest == -1 && sum.first.None? && sum.swaps == 0 else Resumable(journal.value) ==> Recoverable()
    }

    // Where a failure leaves the source, for the handler to build on.
    ghost predicate Salvageable()
      reads this`files, this`record, this`sum, this`files0, this`first0
    {
      Unhandled(sum, first0) && FoldedSalvage(FOLDS, files, record.activated, sum, files0, first0)
    }

    // A crash leaves something to resume, and a failure something to restore.
    ghost predicate Safe()
      reads this`files, this`journal, this`record, this`turns, this`at, this`trace, this`sum, this`earlier, this`files0, this`first0
    {
      Traced() && Recoverable() && Salvageable()
    }

    // The journal is up to date and the next phase may begin.
    ghost predicate Ready(phase: Phase)
      reads this`files, this`journal, this`record, this`turns, this`at, this`trace, this`sum, this`earlier, this`files0, this`first0
    {
      Safe() && journal == Some(record) && record.phase == phase && sum.now <= phase && sum.backOk
    }

    // The phase `next` has begun; the journal is the one Ready spoke of.
    ghost predicate Underway(next: Phase)
      reads this`files, this`journal, this`record, this`turns, this`at, this`trace, this`sum, this`earlier, this`files0, this`first0
    {
      Safe() && journal == Some(record) && record.phase >= 0 && next == record.phase + 1 && sum.now <= next && sum.backOk
    }

    // The record in memory, at the phase `next`, is what the journal may say now.
    ghost predicate Prepared(next: Phase)
      reads this`files, this`journal, this`record, this`turns, this`at, this`trace, this`sum, this`earlier, this`files0, this`first0
    {
      Safe() && Folded(FOLDS, files, record.(phase := next), sum) && sum.now <= next && sum.backOk
    }

    method Draw() returns (turn: Turn)
      modifies this`at
      ensures turn == TurnAt(turns, old(at)) && at == old(at) + 1
    {
      turn, at := if at < |turns| then turns[at] else Turn(Done, map[]), at + 1;
    }

    // A step that changes no file: a check, or the write of a journal.
    method Pass(kind: Kind) returns (o: Fate)
      requires Traced() && (kind.Check? || kind.Save?) && Due(trace, kind)
      modifies this`at, this`trace, this`sum
      ensures Traced() && sum == old(sum) && at == old(at) + 1 && o == TurnAt(turns, old(at)).fate
      ensures Adds(trace, old(trace), kind, o)
      ensures (o == Killed ==> Cut(trace)) && (o == Broke ==> Faulty(trace))
      ensures Faulty(old(trace)) ==> Faulty(trace)
    {
      RecordOne(earlier, turns, trace, files, at, sum, kind);
      var turn := Draw();
      trace := Then(trace, Act(kind, files, turn));
      o := turn.fate;
    }

    // A dependency, which may have written any of its files by the time it ends.
    method AskFor(site: Site) returns (o: Fate)
      requires Traced() && Due(trace, Ask(site))
      modifies this`at, this`trace, this`sum, this`files
      ensures Traced() && at == old(at) + 1 && o == TurnAt(turns, old(at)).fate
      ensures files == Effect(Act(Ask(site), old(files), TurnAt(turns, old(at))))
      ensures sum == NotedAsk(old(sum), site, old(files), TurnAt(turns, old(at)))
      ensures Adds(trace, old(trace), Ask(site), o)
      ensures (o == Killed ==> Cut(trace)) && (o == Broke ==> Faulty(trace))
      ensures Faulty(old(trace)) ==> Faulty(trace)
    {
      RecordAsk(earlier, turns, trace, files, at, sum, site);
      var turn := Draw();
      ghost var found := files;
      files := Overlay(files, Bases(site), turn.written);
      trace, sum := Then(trace, Act(Ask(site), found, turn)), NotedAsk(sum, site, found, turn);
      o := turn.fate;
    }

    method TryRename(r: Rename) returns (o: Fate)
      requires Traced() && r.from in files && Due(trace, Relocate(r))
      modifies this`at, this`trace, this`sum, this`files
      ensures Traced() && at == old(at) + 1 && o == TurnAt(turns, old(at)).fate
      ensures files == if o == Done then Renamed(old(files), r) else old(files)
      ensures sum == NotedMove(old(sum), r, old(files), o)
      ensures Adds(trace, old(trace), Relocate(r), o)
      ensures (o == Killed ==> Cut(trace)) && (o == Broke ==> Faulty(trace))
      ensures Faulty(old(trace)) ==> Faulty(trace)
    {
      RecordOne(earlier, turns, trace, files, at, sum, Relocate(r));
      var turn := Draw();
      ghost var act := Act(Relocate(r), files, turn);
      o := turn.fate;
      if o == Done { files := Renamed(files, r); }
      assert files == Effect(act);
      trace, sum := Then(trace, act), Noted(sum, act);
    }

    // The journal is replaced by a rename, so it is the old record or the new one. A
    // failure can also come after the rename, when the directory is synced.
    method SavePhase(phase: Phase) returns (o: Fate)
      requires Traced() && DueSave(trace, phase)
      modifies this`at, this`trace, this`sum, this`journal, this`record
      ensures Traced() && sum == old(sum)
      ensures record == old(record).(phase := phase)
      ensures journal == if TurnAt(turns, old(at)).fate == Done then Some(record) else old(journal)
      ensures o == Done ==> journal == Some(record)
      ensures TurnAt(turns, old(at)).fate == Done && TurnAt(turns, old(at) + 1).fate == Done ==> o == Done
      ensures o == Broke ==> TurnAt(turns, old(at)).fate == Broke || TurnAt(turns, old(at) + 1).fate == Broke
      ensures o == Done ==> at == old(at) + 2
      ensures LastIs(trace, o)
      ensures (o == Killed ==> Cut(trace)) && (o == Broke ==> Faulty(trace))
      ensures Faulty(old(trace)) ==> Faulty(trace)
    {
      record := record.(phase := phase);
      o := Pass(Save(phase));
      if o == Done {
        journal := Some(record);
        o := Pass(Check(Sync));
      }
    }

    // The content of a file, which must be the expected one where one is given.
    method Identify(path: Path, expected: Option<Content>) returns (o: Fate, identity: Content)
      requires Traced()
      modifies this`at, this`trace, this`sum
      ensures Traced() && sum == old(sum)
      ensures o == Done ==> At(files, path) == Some(identity) && (expected.Some? ==> expected == Some(identity))
      ensures o == Done ==> Adds(trace, old(trace), Compare(path, expected), Done) && Found(trace, path)
      ensures at == old(at) + 1 && (o == Done <==> TurnAt(turns, old(at)).fate == Done && !Differs(Compare(path, expected), files))
      ensures TurnAt(turns, old(at)).fate == Broke ==> o == Broke
      ensures (o == Killed ==> Cut(trace)) && (o == Broke ==> Faulty(trace))
    {
      RecordOne(earlier, turns, trace, files, at, sum, Compare(path, expected));
      var turn := Draw();
      trace := Then(trace, Act(Compare(path, expected), files, turn));
      o, identity := turn.fate, "";
      if o == Done {
        if path in files && (expected == None || expected == Some(files[path])) {
          identity := files[path];
        } else {
          o := Broke;
        }
      }
    }

    // -------------------------------------------------------- forward phases

    // Begins a phase with a dependency. Whatever its fate, the journal still holds.
    method Perform(site: Site) returns (o: Fate)
      requires Ready(record.phase) && PhaseOf(Ask(site)) == record.phase + 1 && Due(trace, Ask(site))
      modifies this`at, this`trace, this`sum, this`files
      ensures Underway(old(record.phase) + 1)
      ensures forall b :: b !in Bases(site) ==> Beside(files, b) == Beside(old(files), b)
      ensures sum == old(sum).(furthest := record.phase + 1, now := record.phase + 1, seen := sum.seen)
      ensures old(sum).seen <= sum.seen && (o == Done ==> Shown(site, old(files), files, sum.seen))
      ensures o == Done ==> Did(trace, Ask(site))
      ensures (o == Killed ==> Cut(trace)) && (o == Broke ==> Faulty(trace))
    {
      AskKeepsSound(site, files, record, sum, TurnAt(turns, at), files0, first0);
      AskNoted(site, files, sum, TurnAt(turns, at));
      o := AskFor(site);
    }

    // The same, with the deadline checked afterwards.
    method PerformInTime(site: Site) returns (o: Fate)
      requires Ready(record.phase) && PhaseOf(Ask(site)) == record.phase + 1 && Due(trace, Ask(site))
      modifies this`at, this`trace, this`sum, this`files
      ensures Underway(old(record.phase) + 1)
      ensures forall b :: b !in Bases(site) ==> Beside(files, b) == Beside(old(files), b)
      ensures sum == old(sum).(furthest := record.phase + 1, now := record.phase + 1, seen := sum.seen)
      ensures old(sum).seen <= sum.seen && (o == Done ==> Shown(site, old(files), files, sum.seen))
      ensures o == Done ==> InTime(trace, site)
      ensures (o == Killed ==> Cut(trace)) && (o == Broke ==> Faulty(trace))
    {
      o := Perform(site);
      if o != Done { return; }
      o := Pass(Check(Deadline));
    }

    // The same for a dependency that writes one file, which is then identified.
    method Produce(site: Site, path: Path) returns (o: Fate, identity: Content)
      requires Ready(record.phase) && PhaseOf(Ask(site)) == record.phase + 1 && Due(trace, Ask(site))
      modifies this`at, this`trace, this`sum, this`files
      ensures Underway(old(record.phase) + 1)
      ensures o == Done ==> Shown(site, old(files), files, sum.seen) && At(files, path) == Some(identity)
      ensures o == Done ==> Found(trace, path) && InTime(trace.prior, site)
      ensures (o == Killed ==> Cut(trace)) && (o == Broke ==> Faulty(trace))
    {
      identity := "";
      o := PerformInTime(site);
      if o != Done { return; }
      o, identity := Identify(path, None);
    }

    method Commit(next: Phase) returns (o: Fate)
      requires Prepared(next) && DueSave(trace, next)
      modifies this`at, this`trace, this`sum, this`journal, this`record
      ensures record == old(record).(phase := next) && sum == old(sum)
      ensures o == Done ==> Ready(next)
      ensures o != Done ==> Safe()
      ensures (o == Killed ==> Cut(trace)) && (o == Broke ==> Faulty(trace))
    {
      o := SavePhase(next);
    }

    method StopAdmission() returns (o: Fate)
      requires Ready(PREFLIGHT)
      modifies this`at, this`trace, this`sum, this`files, this`journal, this`record
      ensures o == Done ==> Ready(ADMISSION_STOPPED)
      ensures o != Done ==> Safe()
      ensures (o == Killed ==> Cut(trace)) && (o == Broke ==> Faulty(trace))
    {
      o := PerformInTime(AdmissionStop);
      if o != Done { return; }
      Next(AdmissionStop, files, journal.value, record, sum);
      o := Commit(ADMISSION_STOPPED);
    }

    method StopService() returns (o: Fate)
      requires Ready(ADMISSION_STOPPED)
      modifies this`at, this`trace, this`sum, this`files, this`journal, this`record
      ensures o == Done ==> Ready(SERVICE_STOPPED)
      ensures o != Done ==> Safe()
      ensures (o == Killed ==> Cut(trace)) && (o == Broke ==> Faulty(trace))
    {
      o := Pass(Check(Deadline));
      if o != Done { return; }
      :- PerformInTime(ServiceStop);
      Next(ServiceStop, files, journal.value, record, sum);
      o := Commit(SERVICE_STOPPED);
    }

    method ProveLeaseReleased() returns (o: Fate)
      requires Ready(SERVICE_STOPPED)
      modifies this`at, this`trace, this`sum, this`files, this`journal, this`record
      ensures o == Done ==> Ready(LEASE_RELEASED)
      ensures o != Done ==> Safe()
      ensures (o == Killed ==> Cut(trace)) && (o == Broke ==> Faulty(trace))
    {
      o := Perform(LeaseProof);
      if o != Done { return; }
      Next(LeaseProof, files, journal.value, record, sum);
      o := Commit(LEASE_RELEASED);
    }

    method CreateBackup() returns (o: Fate)
      requires Ready(LEASE_RELEASED)
      modifies this`at, this`trace, this`sum, this`files, this`journal, this`record
      ensures o == Done ==> Ready(BACKUP_CREATED) && At(files, BACKUP) == record.backup
      ensures o != Done ==> Safe()
      ensures (o == Killed ==> Cut(trace)) && (o == Broke ==> Faulty(trace))
    {
      o := Pass(Check(Deadline));
      if o != Done { return; }
      var identity;
      o, identity := Produce(BackupCopy, BACKUP);
      if o != Done { return; }
      record := record.(backup := Some(identity));
      Next(BackupCopy, files, journal.value, record, sum);
      o := Commit(BACKUP_CREATED);
    }

    method ValidateBackup() returns (o: Fate)
      requires Ready(BACKUP_CREATED) && At(files, BACKUP) == record.backup
      modifies this`at, this`trace, this`sum, this`files, this`journal, this`record
      ensures o == Done ==> Ready(BACKUP_VALIDATED) && At(files, BACKUP) == record.backup
      ensures o != Done ==> Safe()
      ensures (o == Killed ==> Cut(trace)) && (o == Broke ==> Faulty(trace))
    {
      ghost var before := files;
      o := Perform(BackupCheck);
      if o != Done { return; }
      assert At(files, BACKUP) == Beside(files, Backup).main == Beside(before, Backup).main == At(before, BACKUP);
      record := record.(validations := record.validations + [BackupRole]);
      Next(BackupCheck, files, journal.value, record, sum);
      o := Commit(BACKUP_VALIDATED);
    }

    method DrainRetention() returns (o: Fate)
      requires Ready(BACKUP_VALIDATED)
      modifies this`at, this`trace, this`sum, this`files, this`journal, this`record
      ensures o == Done ==> Ready(RETENTION_DRAINED)
      ensures o != Done ==> Safe()
      ensures (o == Killed ==> Cut(trace)) && (o == Broke ==> Faulty(trace))
    {
      o := PerformInTime(Drain);
      if o != Done { return; }
      Next(Drain, files, journal.value, record, sum);
      o := Commit(RETENTION_DRAINED);
    }

    // The source is identified and then copied.
    method CopySource() returns (o: Fate, source: Content, candidate: Content)
      requires Ready(RETENTION_DRAINED)
      modifies this`at, this`trace, this`sum, this`files
      ensures o == Done ==> Underway(CANDIDATE_CREATED) && Found(trace, CANDIDATE) && InTime(trace.prior, Vacuum)
      ensures o == Done ==> Ran(Vacuum, false) in sum.seen && Built(source, candidate) in sum.seen && At(files, CANDIDATE) == Some(candidate)
      ensures o != Done ==> Safe()
      ensures (o == Killed ==> Cut(trace)) && (o == Broke ==> Faulty(trace))
    {
      source, candidate := "", "";
      o := Pass(Check(Deadline));
      if o != Done { return; }
      o, source := Identify(DATABASE, None);
      if o != Done { return; }
      o, candidate := Produce(Vacuum, CANDIDATE);
    }

    method CreateCandidate() returns (o: Fate)
      requires Ready(RETENTION_DRAINED)
      modifies this`at, this`trace, this`sum, this`files, this`journal, this`record
      ensures o == Done ==> Ready(CANDIDATE_CREATED)
      ensures o != Done ==> Safe()
      ensures (o == Killed ==> Cut(trace)) && (o == Broke ==> Faulty(trace))
    {
      var source, candidate;
      o, source, candidate := CopySource();
      if o != Done { return; }
      record := record.(candidate := Some(candidate), source := Some(source));
      Next(Vacuum, files, journal.value, record, sum);
      o := Commit(CANDIDATE_CREATED);
    }

    method ValidateCandidate() returns (o: Fate)
      requires Ready(CANDIDATE_CREATED)
      modifies this`at, this`trace, this`sum, this`files, this`journal, this`record
      ensures o == Done ==> Ready(CANDIDATE_VALIDATED) && Read(files) == NotStarted
      ensures o != Done ==> Safe()
      ensures (o == Killed ==> Cut(trace)) && (o == Broke ==> Faulty(trace))
    {
      CandidateIsThere(files, record, sum);
      o := Perform(CandidateCheck);
      if o != Done { return; }
      record := record.(validations := record.validations + [CandidateRole]);
      Next(CandidateCheck, files, journal.value, record, sum);
      o := Commit(CANDIDATE_VALIDATED);
    }

    method StartService() returns (o: Fate)
      requires Ready(CANDIDATE_ACTIVATED)
      modifies this`at, this`trace, this`sum, this`files, this`journal, this`record
      ensures o == Done ==> Ready(SERVICE_STARTED)
      ensures o != Done ==> Safe()
      ensures (o == Killed ==> Cut(trace)) && (o == Broke ==> Faulty(trace))
    {
      o := PerformInTime(ServiceStart);
      if o != Done { return; }
      Next(ServiceStart, files, journal.value, record, sum);
      o := Commit(SERVICE_STARTED);
    }

    method Smoke() returns (o: Fate)
      requires Ready(SERVICE_STARTED)
      modifies this`at, this`trace, this`sum, this`files, this`journal, this`record
      ensures Traced() && Unhandled(sum, first0) && (o == Done ==> Over() && journal == Some(record))
      ensures o != Done ==> (Recoverable() || Over()) && Salvageable()
      ensures sum.inOrder && sum.onceOnly && SourceHeldIfAny()
      ensures (o == Killed ==> Cut(trace)) && (o == Broke ==> Faulty(trace))
    {
      o := PerformInTime(SmokeTest);
      if o != Done { return; }
      SmokeEarns(files, record, sum);
      record := record.(outcome := Completed);
      o := SavePhase(SMOKE_PASSED);
    }

    ghost predicate SourceHeldIfAny()
      reads this`files, this`sum
    {
      sum.first.Some? ==> SourceHeld(files, sum)
    }

    // ------------------------------------------------------------ activation

    // Step k + 1 of activation, after the first.
    method StepForward(ghost before: FileSystem, ghost k: nat, r: Rename) returns (o: Fate)
      requires Traced() && 1 <= k <= 3 && r == ACTIVATION[k] && r.from in files && files == ActivationPrefix(before, k)
      requires sum.swaps == 0 && sum.onceOnly && sum.first.Some?
      modifies this`at, this`trace, this`sum, this`files
      ensures Traced() && files == ActivationPrefix(before, if o == Done then k + 1 else k)
      ensures sum == old(sum).(swaps := if o == Done && k == 3 then 1 else 0)
      ensures Adds(trace, old(trace), Relocate(r), o) && at == old(at) + 1 && o == TurnAt(turns, old(at)).fate
      ensures (o == Killed ==> Cut(trace)) && (o == Broke ==> Faulty(trace))
    {
      ForwardNoted(sum, k, files, TurnAt(turns, at).fate);
      o := TryRename(r);
    }

    // A sidecar follows the database if it is there.
    method MoveSidecar(ghost before: FileSystem, ghost c: Content, ghost k: nat, part: Part, moved: seq<Part>) returns (o: Fate, after: seq<Part>)
      requires Traced() && Placed(before, c) && Read(before) == NotStarted && 1 <= k <= 2 && part == ACTIVATION[k].from.part
      requires files == ActivationPrefix(before, k) && moved == MovedBy(before, k) && sum.swaps == 0 && sum.onceOnly && sum.first.Some?
      modifies this`at, this`trace, this`sum, this`files
      ensures Traced() && sum == old(sum)
      ensures files == ActivationPrefix(before, if o == Done then k + 1 else k)
      ensures after == MovedBy(before, if o == Done then k + 1 else k)
      ensures Path(Database, part) !in before ==> o == Done && at == old(at)
      ensures (o == Killed ==> Cut(trace)) && (o == Broke ==> Faulty(trace))
    {
      SidecarWaits(before, c, k);
      o, after := Done, moved;
      if Path(Database, part) in files {
        o := StepForward(before, k, Rename(Path(Database, part), Path(Original, part)));
        if o == Done { after := moved + [part]; }
      }
    }

    method MoveSidecars(ghost before: FileSystem, ghost c: Content) returns (o: Fate, moved: seq<Part>, ghost k: nat)
      requires Traced() && Placed(before, c) && Read(before) == NotStarted && files == ActivationPrefix(before, 1)
      requires sum.swaps == 0 && sum.onceOnly && sum.first.Some?
      modifies this`at, this`trace, this`sum, this`files
      ensures Traced() && 1 <= k <= 3 && files == ActivationPrefix(before, k) && moved == MovedBy(before, k)
      ensures sum == old(sum) && (o == Done ==> k == 3)
      ensures Alone(before) ==> o == Done && at == old(at)
      ensures (o == Killed ==> Cut(trace)) && (o == Broke ==> Faulty(trace))
    {
      o, moved, k := Done, [], 1;
      for i := 0 to 2
        invariant Traced() && sum == old(sum) && o == Done && (Alone(before) ==> at == old(at))
        invariant k == i + 1 && files == ActivationPrefix(before, k) && moved == MovedBy(before, k)
      {
        o, moved := MoveSidecar(before, c, k, if i == 0 then Wal else Shm, moved);
        if o != Done { return; }
        k := k + 1;
      }
    }

    // The guarded part of activation, from the moment the database was renamed away.
    method MoveCandidateIn(ghost before: FileSystem, ghost c: Content) returns (o: Fate, moved: seq<Part>, live: bool, ghost k: nat)
      requires Traced() && Placed(before, c) && Read(before) == NotStarted && files == ActivationPrefix(before, 1)
      requires sum.swaps == 0 && sum.onceOnly && sum.first.Some?
      modifies this`at, this`trace, this`sum, this`files
      ensures Traced() && 1 <= k <= 4 && files == ActivationPrefix(before, k)
      ensures moved == MovedBy(before, k) && (live <==> k == 4)
      ensures sum == old(sum).(swaps := if k == 4 then 1 else 0)
      ensures Alone(before) && Calm(turns, old(at), 2) ==> o == Done && at == old(at) + 2
      ensures o == Done ==> k == 4 && Did(trace, Check(Sync)) && Did(trace.prior, Relocate(ACTIVATION[3]))
      ensures (o == Killed ==> Cut(trace)) && (o == Broke ==> Faulty(trace))
    {
      live := false;
      o, moved, k := MoveSidecars(before, c);
      if o != Done { return; }
      ActivationCrashKeepsFiles(before, c, 3);
      o := StepForward(before, 3, Rename(CANDIDATE, DATABASE));
      if o != Done { return; }
      live, k := true, 4;
      o := Pass(Check(Sync));
    }

    // Step n + 1 of activation is renamed back, if what it moved is there.
    method UndoStep(ghost before: FileSystem, ghost c: Content, ghost n: nat, r: Rename) returns (o: Fate)
      requires Traced() && Placed(before, c) && Read(before) == NotStarted && n <= 3 && r == ACTIVATION[n]
      requires r.from in ActivationPrefix(before, n) && files == ActivationPrefix(before, n + 1)
      requires sum.onceOnly && sum.first.Some? && sum.swaps == if n == 3 then 1 else 0
      modifies this`at, this`trace, this`sum, this`files
      ensures Traced() && files == ActivationPrefix(before, if o == Done then n else n + 1)
      ensures sum == old(sum).(backOk := old(sum).backOk && o == Done, swaps := if o == Done then 0 else old(sum).swaps)
      ensures (o == Killed ==> Cut(trace)) && (o == Broke ==> Faulty(trace))
      ensures Faulty(old(trace)) ==> Faulty(trace)
    {
      UndoneStep(before, c, n);
      o := Done;
      if r.to in files {
        BackNoted(sum, Rename(r.to, r.from), files, TurnAt(turns, at).fate);
        o := TryRename(Rename(r.to, r.from));
      }
    }

    // The sidecar that was moved last goes back.
    method UndoSidecar(ghost before: FileSystem, ghost c: Content, part: Part, ghost k: nat) returns (o: Fate, ghost n: nat)
      requires Traced() && Placed(before, c) && Read(before) == NotStarted && 1 <= k <= 3 && sum.onceOnly && sum.first.Some? && sum.swaps == 0
      requires files == ActivationPrefix(before, k) && MovedBy(before, k) != [] && part == MovedBy(before, k)[|MovedBy(before, k)| - 1]
      modifies this`at, this`trace, this`sum, this`files
      ensures Traced() && 1 <= n <= k && files == ActivationPrefix(before, n) && sum == old(sum).(backOk := old(sum).backOk && o == Done)
      ensures o == Done ==> MovedBy(before, n) == MovedBy(before, k)[..|MovedBy(before, k)| - 1]
      ensures (o == Killed ==> Cut(trace)) && (o == Broke ==> Faulty(trace))
      ensures Faulty(old(trace)) ==> Faulty(trace)
    {
      n := LastMove(before, c, k);
      o := UndoStep(before, c, n, Rename(Path(Database, part), Path(Original, part)));
      if o != Done { n := k; }
    }

    // The sidecars that were moved go back, last first.
    method UndoSidecars(ghost before: FileSystem, ghost c: Content, moved: seq<Part>, ghost k: nat) returns (o: Fate, ghost n: nat)
      requires Traced() && Placed(before, c) && Read(before) == NotStarted && 1 <= k <= 3
      requires files == ActivationPrefix(before, k) && moved == MovedBy(before, k) && sum.onceOnly && sum.first.Some? && sum.swaps == 0
      modifies this`at, this`trace, this`sum, this`files
      ensures Traced() && 1 <= n <= 3 && files == ActivationPrefix(before, n) && (o == Done ==> n == 1)
      ensures sum == old(sum).(backOk := old(sum).backOk && o == Done)
      ensures (o == Killed ==> Cut(trace)) && (o == Broke ==> Faulty(trace))
      ensures Faulty(old(trace)) ==> Faulty(trace)
    {
      o, n := Done, k;
      var left := moved;
      while left != []
        invariant 1 <= n <= 3 && files == ActivationPrefix(before, n) && left == MovedBy(before, n)
        invariant Traced() && o == Done && sum == old(sum) && (Faulty(old(trace)) ==> Faulty(trace))
        decreases |left|
      {
        o, n := UndoSidecar(before, c, left[|left| - 1], n);
        if o != Done { return; }
        left := left[..|left| - 1];
      }
      NothingMoved(before, c, n);
      n := 1;
    }

    // The catch block: every rename that was done is undone, last first.
    method UndoActivation(ghost before: FileSystem, ghost c: Content, moved: seq<Part>, live: bool, ghost k: nat) returns (o: Fate, ghost n: nat)
      requires Traced() && Placed(before, c) && Read(before) == NotStarted && 1 <= k <= 4
      requires files == ActivationPrefix(before, k) && moved == MovedBy(before, k) && (live <==> k == 4)
      requires sum.onceOnly && sum.first.Some? && sum.swaps == (if live then 1 else 0) && Faulty(trace)
      modifies this`at, this`trace, this`sum, this`files
      ensures Traced() && o != Done && n <= 4 && files == ActivationPrefix(before, n)
      ensures sum == old(sum).(backOk := sum.backOk, swaps := if n == 4 then 1 else 0)
      ensures sum.backOk ==> old(sum).backOk && n == 0
      ensures n == 0 ==> trace.Then? && trace.act.Act? && trace.act.kind == Check(Sync)
      ensures (o == Killed ==> Cut(trace)) && (o == Broke ==> Faulty(trace))
    {
      n := k;
      if live {
        ActivationCrashKeepsFiles(before, c, 3);
        o := UndoStep(before, c, 3, Rename(CANDIDATE, DATABASE));
        if o != Done { return; }
        n := 3;
      }
      o, n := UndoSidecars(before, c, moved, n);
      if o != Done { return; }
      o := UndoStep(before, c, 0, Rename(DATABASE, ORIGINAL));
      if o != Done { return; }
      n := 0;
      o := Pass(Check(Sync));
      if o == Done { o := Broke; }
    }

    method ActivateCandidate(ghost c: Content) returns (o: Fate, ghost n: nat)
      requires Traced() && Placed(files, c) && Read(files) == NotStarted && sum.onceOnly && sum.swaps == 0
      requires Due(trace, Relocate(ACTIVATION[0]))
      modifies this`at, this`trace, this`sum, this`files
      ensures Traced() && n <= 4 && files == ActivationPrefix(old(files), n) && (o == Done ==> n == 4)
      ensures o == Done ==> Did(trace, Check(Sync)) && Did(trace.prior, Relocate(ACTIVATION[3]))
      ensures o == Broke && sum.backOk ==> n == 0
      ensures Alone(old(files)) && Calm(turns, old(at), 3) ==> o == Done && at == old(at) + 3
      ensures o == Done && old(sum).backOk ==> sum.backOk
      ensures sum.first == old(sum).first || (old(sum).first.None? && sum.first == Some(old(files)))
      ensures n > 0 ==> sum.first.Some?
      ensures sum == NotedMove(old(sum), ACTIVATION[0], old(files), TurnAt(turns, old(at)).fate).(backOk := sum.backOk, swaps := if n == 4 then 1 else 0)
      ensures sum.backOk ==> old(sum).backOk
      ensures (o == Killed ==> Cut(trace)) && (o == Broke ==> Faulty(trace))
    {
      ghost var before := files;
      n := 0;
      assert files == ActivationPrefix(before, 0);
      o := TryRename(Rename(DATABASE, ORIGINAL));
      if o != Done { return; }
      var moved, live;
      o, moved, live, n := MoveCandidateIn(before, c);
      if o == Broke {
        o, n := UndoActivation(before, c, moved, live, n);
      }
    }

    // The source must still be the file the candidate was built from.
    method VerifySource() returns (o: Fate)
      requires Ready(CANDIDATE_VALIDATED)
      modifies this`at, this`trace, this`sum
      ensures Ready(CANDIDATE_VALIDATED) && sum == old(sum)
      ensures At(files, DATABASE) == record.source && Calm(turns, old(at), 2) ==> o == Done && at == old(at) + 2
      ensures o == Done ==> At(files, DATABASE) == record.source && Did(trace, Check(Deadline)) && FoundAs(trace.prior, DATABASE)
      ensures (o == Killed ==> Cut(trace)) && (o == Broke ==> Faulty(trace))
    {
      var current;
      o, current := Identify(DATABASE, record.source);
      if o != Done { return; }
      o := Pass(Check(Deadline));
    }

    // All renames, or none of them where they could be undone.
    method Swap() returns (o: Fate)
      requires Ready(CANDIDATE_VALIDATED) && Read(files) == NotStarted && At(files, DATABASE) == record.source
      requires Due(trace, Relocate(ACTIVATION[0]))
      modifies this`at, this`trace, this`sum, this`files
      ensures Traced() && Recoverable() && (o != Killed ==> Salvageable())
      ensures o == Done ==> Did(trace, Check(Sync)) && Did(trace.prior, Relocate(ACTIVATION[3]))
      ensures sum.now <= CANDIDATE_ACTIVATED && Unhandled(sum, first0)
      ensures o == Done ==> Read(files) == Finished && files == ActivationPrefix(old(files), 4) && sum.backOk
      ensures Alone(old(files)) && Calm(turns, old(at), 3) ==> o == Done && at == old(at) + 3
      ensures (o == Killed ==> Cut(trace)) && (o == Broke ==> Faulty(trace))
    {
      ghost var before, c, s := files, record.candidate.value, sum;
      ghost var n;
      PlacedBy(files, record, sum);
      o, n := ActivateCandidate(c);
      ActivationCrashKeepsFiles(before, c, n);
      PrefixIsSound(before, files, record, s, sum, n);
      if o != Killed { PrefixIsSalvage(before, files, record, s, sum, n, files0, first0); }
    }

    // The same, and then the preserved original is identified; if it cannot be, the candidate stays.
    method SwapIn() returns (o: Fate, original: Content)
      requires Ready(CANDIDATE_VALIDATED) && Read(files) == NotStarted && At(files, DATABASE) == record.source
      requires Due(trace, Relocate(ACTIVATION[0]))
      modifies this`at, this`trace, this`sum, this`files
      ensures Traced() && Recoverable() && (o != Killed ==> Salvageable())
      ensures sum.now <= CANDIDATE_ACTIVATED && Unhandled(sum, first0)
      ensures o == Done ==> Read(files) == Finished && sum.backOk && At(files, ORIGINAL) == Some(original) && DueSave(trace, CANDIDATE_ACTIVATED)
      ensures Alone(old(files)) && Calm(turns, old(at), 3) && TurnAt(turns, old(at) + 3).fate == Broke ==>
        o == Broke && files == ActivationPrefix(old(files), 4) && at == old(at) + 4
      ensures (o == Killed ==> Cut(trace)) && (o == Broke ==> Faulty(trace))
    {
      original := "";
      o := Swap();
      if o != Done { return; }
      o, original := Identify(ORIGINAL, None);
    }

    // The candidate is in place and the journal does not say so yet.
    method RecordActivation(original: Content) returns (o: Fate)
      requires Traced() && Recoverable() && journal == Some(record) && record.phase == CANDIDATE_VALIDATED
      requires sum.now <= CANDIDATE_ACTIVATED && Unhandled(sum, first0) && sum.backOk && Read(files) == Finished
      requires At(files, ORIGINAL) == Some(original) && DueSave(trace, CANDIDATE_ACTIVATED)
      modifies this`at, this`trace, this`sum, this`journal, this`record
      ensures o == Done ==> Ready(CANDIDATE_ACTIVATED)
      ensures o != Done ==> Safe()
      ensures sum == old(sum)
      ensures (o == Killed ==> Cut(trace)) && (o == Broke ==> Faulty(trace))
    {
      ActivationIsSound(files, record, original, sum, files0, first0);
      record := record.(original := Some(original), activated := true);
      o := Commit(CANDIDATE_ACTIVATED);
    }

    method Activate() returns (o: Fate)
      requires Ready(CANDIDATE_VALIDATED) && Read(files) == NotStarted
      modifies this`at, this`trace, this`sum, this`files, this`journal, this`record
      ensures Traced() && Unhandled(sum, first0) && (o == Done ==> Ready(CANDIDATE_ACTIVATED))
      ensures LosesHash(old(files), old(record).source, turns, old(at)) ==>
        o == Broke && files == ActivationPrefix(old(files), 4) && record == old(record) && at == old(at) + 6
      ensures o != Done ==> Recoverable()
      ensures o == Broke ==> Salvageable()
      ensures (o == Killed ==> Cut(trace)) && (o == Broke ==> Faulty(trace))
    {
      o := VerifySource();
      if o != Done { return; }
      var original;
      o, original := SwapIn();
      if o != Done { return; }
      o := RecordActivation(original);
    }

    // -------------------------------------------------------- reconciliation

    // Step j + 1 of putting an interrupted original back.
    method StepBack(ghost before: FileSystem, ghost j: nat, r: Rename) returns (o: Fate)
      requires Traced() && Read(before) == Interrupted && j <= 2 && r == RETURN[j] && r.from in files && files == ReconcilePrefix(before, j)
      requires sum.onceOnly && sum.first.Some?
      modifies this`at, this`trace, this`sum, this`files
      ensures Traced() && files == ReconcilePrefix(before, if o == Done then j + 1 else j)
      ensures sum == old(sum).(backOk := old(sum).backOk && o == Done)
      ensures o == TurnAt(turns, old(at)).fate && at == old(at) + 1
      ensures (o == Killed ==> Cut(trace)) && (o == Broke ==> Faulty(trace))
    {
      BackNoted(sum, r, files, TurnAt(turns, at).fate);
      o := TryRename(r);
    }

    // A sidecar follows the original back if it is there.
    method ReturnSidecar(ghost before: FileSystem, ghost j: nat, part: Part) returns (o: Fate)
      requires Traced() && Read(before) == Interrupted && 1 <= j <= 2 && part == RETURN[j].from.part && files == ReconcilePrefix(before, j)
      requires sum.onceOnly && sum.first.Some?
      modifies this`at, this`trace, this`sum, this`files
      ensures Traced() && files == ReconcilePrefix(before, if o == Done then j + 1 else j)
      ensures sum == old(sum).(backOk := old(sum).backOk && o == Done)
      ensures (o == Killed ==> Cut(trace)) && (o == Broke ==> Faulty(trace))
    {
      o := Done;
      if Path(Original, part) in files {
        o := StepBack(before, j, Rename(Path(Original, part), Path(Database, part)));
      }
    }

    method ReturnSidecars(ghost before: FileSystem) returns (o: Fate, ghost j: nat)
      requires Traced() && Read(before) == Interrupted && files == ReconcilePrefix(before, 1) && sum.onceOnly && sum.first.Some?
      modifies this`at, this`trace, this`sum, this`files
      ensures Traced() && 1 <= j <= 3 && files == ReconcilePrefix(before, j) && (o == Done ==> j == 3)
      ensures sum == old(sum).(backOk := old(sum).backOk && o == Done)
      ensures (o == Killed ==> Cut(trace)) && (o == Broke ==> Faulty(trace))
    {
      o, j := Done, 1;
      for i := 0 to 2
        invariant Traced() && sum == old(sum) && o == Done
        invariant j == i + 1 && files == ReconcilePrefix(before, j)
      {
        o := ReturnSidecar(before, j, if i == 0 then Wal else Shm);
        if o != Done { return; }
        j := j + 1;
      }
    }

    // Puts an interrupted original back, main file first.
    method PutBack() returns (o: Fate, ghost j: nat)
      requires Traced() && Read(files) == Interrupted && sum.onceOnly && sum.first.Some?
      modifies this`at, this`trace, this`sum, this`files
      ensures Traced() && j <= 3 && files == ReconcilePrefix(old(files), j) && (o == Done ==> j == 3)
      ensures sum == old(sum).(backOk := sum.backOk)
      ensures sum.backOk ==> old(sum).backOk && j == 3
      ensures o == Done ==> Did(trace, Check(Sync))
      ensures o == Done && old(sum).backOk ==> sum.backOk
      ensures TurnAt(turns, old(at)).fate == Broke ==> o == Broke && files == old(files) && at == old(at) + 1
      ensures (o == Killed ==> Cut(trace)) && (o == Broke ==> Faulty(trace))
    {
      ghost var before := files;
      j := 0;
      assert files == ReconcilePrefix(before, 0);
      o := StepBack(before, 0, Rename(ORIGINAL, DATABASE));
      if o != Done { return; }
      o, j := ReturnSidecars(before);
      if o != Done { return; }
      o := Pass(Check(Sync));
    }

    // The put-back with what it means for the journal.
    method ReturnOriginal() returns (o: Fate)
      requires Ready(CANDIDATE_VALIDATED) && files == files0 && sum.first == first0 && Read(files) == Interrupted
      modifies this`at, this`trace, this`sum, this`files
      ensures o == Done ==> files == Reconciled(old(files)) && Ready(CANDIDATE_VALIDATED) && Read(files) == NotStarted
      ensures o != Done ==> Safe()
      ensures sum.first == first0
      ensures TurnAt(turns, old(at)).fate == Broke ==> o == Broke && files == old(files) && at == old(at) + 1
      ensures (o == Killed ==> Cut(trace)) && (o == Broke ==> Faulty(trace))
    {
      ghost var before, c, s := files, record.candidate.value, sum;
      ghost var j;
      PlacedBy(files, record, sum);
      o, j := PutBack();
      ReconcileCrashKeepsFiles(before, c, j);
      PutBackIsSound(before, files, record, s, sum, j);
    }

    // The activation was finished; it is confirmed if both files are the journaled ones.
    method ConfirmActivation() returns (o: Fate)
      requires Ready(CANDIDATE_VALIDATED) && sum.first == first0 && Read(files) == Finished
      modifies this`at, this`trace, this`sum, this`journal, this`record
      ensures o == Done ==> Ready(CANDIDATE_ACTIVATED)
      ensures o != Done ==> Safe()
      ensures sum == old(sum)
      ensures (o == Killed ==> Cut(trace)) && (o == Broke ==> Faulty(trace))
    {
      var active, original;
      o, active := Identify(DATABASE, record.candidate);
      if o != Done { return; }
      o, original := Identify(ORIGINAL, record.source);
      if o != Done { return; }
      o := RecordActivation(original);
    }

    method ReconcileInterruptedActivation() returns (o: Fate)
      requires Ready(CANDIDATE_VALIDATED) && files == files0 && sum.first == first0
      modifies this`at, this`trace, this`sum, this`files, this`journal, this`record
      ensures o == Done ==> files == Reconciled(old(files)) && (Read(old(files)) == NotStarted ==> Adds(trace, old(trace), Check(Probe), Done))
      ensures o == Done ==> if Read(old(files)) == Finished then Ready(CANDIDATE_ACTIVATED) else Ready(CANDIDATE_VALIDATED) && Read(files) == NotStarted
      ensures o != Done ==> Safe()
      ensures sum.first == first0
      ensures Read(old(files)) == Interrupted && TurnAt(turns, old(at)).fate == Done && TurnAt(turns, old(at) + 1).fate == Broke ==>
        o == Broke && files == old(files) && record == old(record) && at == old(at) + 2
      ensures (o == Killed ==> Cut(trace)) && (o == Broke ==> Faulty(trace))
    {
      PlacedBy(files, record, sum);
      var active, candidate, original := DATABASE in files, CANDIDATE in files, ORIGINAL in files;
      o := Pass(Check(Probe));
      if o != Done { return; }
      if active && candidate && !original {
        return Done;
      } else if active && !candidate && original {
        o := ConfirmActivation();
      } else if !active && candidate && original {
        o := ReturnOriginal();
      } else {
        assert false;
      }
    }

    // --------------------------------------------------------------- failure

    // Step i + 1 of a rollback, if there is something to rename.
    method StepRollback(ghost before: FileSystem, i: nat) returns (o: Fate)
      requires Traced() && sum.onceOnly && sum.first.Some? && i < 4 && files == AfterRenames(before, ROLLBACK, i)
      modifies this`at, this`trace, this`sum, this`files
      ensures Traced() && sum == old(sum).(backOk := sum.backOk)
      ensures o == Done ==> files == AfterRenames(before, ROLLBACK, i + 1)
      ensures o != Done ==> LastIs(trace, o)
      ensures Faulty(old(trace)) ==> Faulty(trace)
    {
      RollbackGoesBack(i);
      o := Done;
      if ROLLBACK[i].from in files {
        BackNoted(sum, ROLLBACK[i], files, TurnAt(turns, at).fate);
        o := TryRename(ROLLBACK[i]);
      }
    }

    method RestoreOriginal() returns (o: Fate)
      requires Traced() && sum.onceOnly && sum.first.Some?
      modifies this`at, this`trace, this`sum, this`files
      ensures Traced() && sum == old(sum).(backOk := sum.backOk)
      ensures o == Done ==> files == Restored(old(files)) && Did(trace, Check(Sync))
      ensures o != Done ==> LastIs(trace, o)
      ensures Faulty(old(trace)) ==> Faulty(trace)
    {
      ghost var before := files;
      for i := 0 to 4
        invariant Traced() && sum == old(sum).(backOk := sum.backOk) && (Faulty(old(trace)) ==> Faulty(trace))
        invariant files == AfterRenames(before, ROLLBACK, i)
      {
        :- StepRollback(before, i);
      }
      o := Pass(Check(Sync));
    }

    method StopForRollback() returns (o: Fate)
      requires Traced() && ORIGINAL in files
      modifies this`at, this`trace, this`sum, this`files
      ensures Traced() && sum == old(sum).(stopped := Some(files))
      ensures Beside(files, Original) == Beside(old(files), Original) && ORIGINAL in files
      ensures LastIs(trace, o)
      ensures (o == Killed ==> Cut(trace)) && (o == Broke ==> Faulty(trace))
      ensures Faulty(old(trace)) ==> Faulty(trace)
    {
      RollbackStopNoted(sum, files, TurnAt(turns, at));
      ghost var before := files;
      o := AskFor(RollbackStop);
      SameLayout(before, files, {Database});
    }

    // Stops the service, which may rewrite the database it ran on, and restores the original.
    method RollBackActivation() returns (o: Fate)
      requires Traced() && sum.onceOnly && sum.first.Some? && ORIGINAL in files
      modifies this`at, this`trace, this`sum, this`files
      ensures Traced() && sum == old(sum).(backOk := sum.backOk, stopped := sum.stopped)
      ensures sum.stopped.Some?
      ensures o == Done ==> (Beside(files, Database) == Beside(old(files), Original) <==> !Stray(sum.stopped.value))
      ensures o != Done ==> LastIs(trace, o)
      ensures Faulty(old(trace)) ==> Faulty(trace)
    {
      o := StopForRollback();
      if o != Done { return; }
      RestoreUndoesActivation(files);
      o := RestoreOriginal();
    }

    method AskForRestart() returns (o: Fate)
      requires Traced()
      modifies this`at, this`trace, this`sum, this`files
      ensures Traced() && sum == old(sum).(restarted := Some(old(files))) && at == old(at) + 1 && o == TurnAt(turns, old(at)).fate
      ensures Adds(trace, old(trace), Ask(Restart), o)
      ensures (o == Killed ==> Cut(trace)) && (o == Broke ==> Faulty(trace))
      ensures Faulty(old(trace)) ==> Faulty(trace)
    {
      RestartNoted(sum, files, TurnAt(turns, at));
      o := AskFor(Restart);
    }

    // What is journaled of a restart.
    function RestartRecord(r: Record, done: bool): Record
    {
      if done then r.(phase := ROLLED_BACK, outcome := Reverted, rolledBack := true) else r.(phase := RESTART_FAILED)
    }

    // Starts the service again and journals how that ended.
    method RestartService() returns (e: Ending)
      requires Traced()
      modifies this`at, this`trace, this`sum, this`files, this`journal, this`record
      ensures Traced() && sum == old(sum).(restarted := Some(old(files)))
      ensures e == RollBack || e == Incomplete(RESTART_FAILED) || e == Unrecorded
      ensures e != Unrecorded ==> journal == Some(record) && record == RestartRecord(old(record), e == RollBack)
      ensures e == Unrecorded ==> LastIs(trace, Broke) || LastIs(trace, Killed)
      ensures TurnAt(turns, old(at)).fate == Done && TurnAt(turns, old(at) + 1).fate == Done && TurnAt(turns, old(at) + 2).fate == Done ==> e == RollBack
      ensures Faulty(old(trace)) ==> Faulty(trace)
    {
      var o := AskForRestart();
      if o == Killed { return Unrecorded; }
      if o == Done { record := record.(outcome := Reverted, rolledBack := true); }
      e := if o == Done then RollBack else Incomplete(RESTART_FAILED);
      o := SavePhase(if o == Done then ROLLED_BACK else RESTART_FAILED);
      if o != Done { e := Unrecorded; }
    }

    // The service was started again on files that RestartsOn describes: without an activation
    // no process has renamed anything, and where every rename back was done these are the files
    // before what this process had begun.
    ghost predicate RestoredBy(earlierFirst: Option<FileSystem>, was: FileSystem)
      reads this`trace, this`sum
    {
      && sum.restarted.Some? && RestartsOn(sum.restarted.value, sum)
      && (sum.first.None? ==> Untouched(trace))
      && (sum.first.Some? && sum.stopped.None? && sum.backOk ==> Resolved(earlierFirst, sum.first.value, was, sum.restarted.value))
    }

    // How the handler of a failure ends. Some act or comparison of the process had failed. The
    // handler has started the service again, however that ended or was recorded, unless its own
    // rollback failed or it was killed.
    ghost predicate Handled(e: Ending, earlierFirst: Option<FileSystem>, was: FileSystem)
      reads this`trace, this`sum, this`journal
    {
      && Faulty(trace) && (e == RollBack || e == Incomplete(RESTART_FAILED) || e == Incomplete(ROLLBACK_FAILED) || e == Unrecorded)
      && (if e == Unrecorded then LastIs(trace, Broke) || LastIs(trace, Killed)
          else journal.Some? && !Resumable(journal.value) && !(e == RollBack && journal.value.activated))
      && (e == RollBack ==> journal.value.phase == ROLLED_BACK && journal.value.outcome == Reverted && journal.value.rolledBack)
      && (e.Incomplete? ==> journal.value.phase == e.phase)
      && (sum.restarted.Some? ==> RestoredBy(earlierFirst, was))
      && (e == RollBack || e == Incomplete(RESTART_FAILED) ==> sum.restarted.Some?)
      && (e == Incomplete(ROLLBACK_FAILED) ==> sum.stopped.Some? && sum.restarted.None?)
      && (sum.restarted.None? ==> sum.stopped.Some?)
    }

    // The candidate is live: it is rolled back first, and the service is not started if that fails.
    method HandleLive() returns (e: Ending)
      requires Traced() && Salvageable() && sum.onceOnly && record.activated && Faulty(trace)
      modifies this`at, this`trace, this`sum, this`files, this`journal, this`record
      ensures Traced() && sum == old(sum).(backOk := sum.backOk, stopped := sum.stopped, restarted := sum.restarted)
      ensures Handled(e, first0, files0)
    {
      UnfoldSalvage(files, true, sum, files0, first0);
      var o := RollBackActivation();
      if o == Killed { return Unrecorded; }
      if o == Broke {
        o := SavePhase(ROLLBACK_FAILED);
        return if o == Done then Incomplete(ROLLBACK_FAILED) else Unrecorded;
      }
      record := record.(rolledBack := true, activated := false);
      e := RestartService();
    }

    // Nothing is live: the service is started on the files as they are.
    method HandleIdle() returns (e: Ending)
      requires Traced() && Salvageable() && sum.inOrder && !record.activated && Faulty(trace)
      modifies this`at, this`trace, this`sum, this`files, this`journal, this`record
      ensures Traced() && sum == old(sum).(restarted := Some(old(files)))
      ensures Handled(e, first0, files0)
      ensures TurnAt(turns, old(at)).fate == Done && TurnAt(turns, old(at) + 1).fate == Done && TurnAt(turns, old(at) + 2).fate == Done ==> e == RollBack
    {
      IdleRestarts(files, sum, files0, first0);
      e := RestartService();
      if sum.first.None? { RecordedUntouched(earlier, turns, trace, files, at, sum); }
    }

    /**
     The handler of every failure on the forward path. Whenever it starts the service again,
     it does so on files that RestoredBy describes. A process killed in here is reported as
     an unrecorded failure.
     */
    method HandleFailure() returns (e: Ending)
      requires Traced() && Salvageable() && sum.inOrder && sum.onceOnly && Faulty(trace)
      modifies this`at, this`trace, this`sum, this`files, this`journal, this`record
      ensures Traced() && sum == old(sum).(backOk := sum.backOk, stopped := sum.stopped, restarted := sum.restarted)
      ensures Handled(e, first0, files0)
      ensures sum.stopped.Some? ==> old(record).activated
      ensures !old(record).activated && TurnAt(turns, old(at)).fate == Done && TurnAt(turns, old(at) + 1).fate == Done && TurnAt(turns, old(at) + 2).fate == Done ==>
        e == RollBack && sum.restarted == Some(old(files))
    {
      if record.activated {
        e := HandleLive();
      } else {
        e := HandleIdle();
      }
    }

    // ------------------------------------------------------------- the cycle

    // Up to a released lease, skipping what the journal has already passed.
    method Quiesce() returns (o: Fate)
      requires Ready(record.phase) && record.phase >= PREFLIGHT
      modifies this`at, this`trace, this`sum, this`files, this`journal, this`record
      ensures o == Done ==> Ready(record.phase) && record.phase == Max(old(record.phase), LEASE_RELEASED)
      ensures o != Done ==> Safe()
      ensures old(record.phase) >= LEASE_RELEASED ==> files == old(files)
      ensures (o == Killed ==> Cut(trace)) && (o == Broke ==> Faulty(trace))
    {
      if !PhaseReached(record.phase, ADMISSION_STOPPED) {
        :- StopAdmission();
      }
      if !PhaseReached(record.phase, SERVICE_STOPPED) {
        :- StopService();
      }
      if !PhaseReached(record.phase, LEASE_RELEASED) {
        :- ProveLeaseReleased();
      }
      return Done;
    }

    // Up to a validated backup.
    method Secure() returns (o: Fate)
      requires Ready(record.phase) && record.phase >= LEASE_RELEASED
      modifies this`at, this`trace, this`sum, this`files, this`journal, this`record
      ensures o == Done ==> Ready(record.phase) && record.phase == Max(old(record.phase), BACKUP_VALIDATED)
      ensures o != Done ==> Safe()
      ensures o == Done ==> At(files, BACKUP) == record.backup
      ensures old(record.phase) >= BACKUP_VALIDATED ==> files == old(files)
      ensures (o == Killed ==> Cut(trace)) && (o == Broke ==> Faulty(trace))
    {
      if !PhaseReached(record.phase, BACKUP_CREATED) {
        :- CreateBackup();
      } else {
        var identity;
        o, identity := Identify(BACKUP, record.backup);
        if o != Done { return; }
      }
      if !PhaseReached(record.phase, BACKUP_VALIDATED) {
        :- ValidateBackup();
      }
      return Done;
    }

    // Up to a validated candidate.
    method Build() returns (o: Fate)
      requires Ready(record.phase) && record.phase >= BACKUP_VALIDATED
      requires record.phase == CANDIDATE_VALIDATED ==> Read(files) == NotStarted
      modifies this`at, this`trace, this`sum, this`files, this`journal, this`record
      ensures o == Done ==> Ready(record.phase) && record.phase == Max(old(record.phase), CANDIDATE_VALIDATED)
      ensures o == Done && record.phase == CANDIDATE_VALIDATED ==> Read(files) == NotStarted
      ensures o != Done ==> Safe()
      ensures old(record.phase) >= CANDIDATE_VALIDATED ==> files == old(files)
      ensures (o == Killed ==> Cut(trace)) && (o == Broke ==> Faulty(trace))
    {
      if !PhaseReached(record.phase, RETENTION_DRAINED) {
        :- DrainRetention();
      }
      if !PhaseReached(record.phase, CANDIDATE_CREATED) {
        :- CreateCandidate();
      } else if !PhaseReached(record.phase, CANDIDATE_ACTIVATED) {
        var identity;
        o, identity := Identify(CANDIDATE, record.candidate);
        if o != Done { return; }
      }
      if !PhaseReached(record.phase, CANDIDATE_VALIDATED) {
        :- ValidateCandidate();
      }
      return Done;
    }

    // From a validated candidate to a service that runs on it.
    method GoLive() returns (o: Fate)
      requires Ready(record.phase) && CANDIDATE_VALIDATED <= record.phase < SMOKE_PASSED
      requires record.phase == CANDIDATE_VALIDATED ==> Read(files) == NotStarted
      modifies this`at, this`trace, this`sum, this`files, this`journal, this`record
      ensures Traced() && Unhandled(sum, first0) && (o == Done ==> Over() && journal == Some(record))
      ensures o != Done ==> Recoverable() || Over()
      ensures o == Broke ==> Salvageable()
      ensures sum.inOrder && sum.onceOnly && SourceHeldIfAny()
      ensures (o == Killed ==> Cut(trace)) && (o == Broke ==> Faulty(trace))
    {
      if !PhaseReached(record.phase, CANDIDATE_ACTIVATED) {
        :- Activate();
      }
      if !PhaseReached(record.phase, SERVICE_STARTED) {
        :- StartService();
      }
      o := Smoke();
    }

    // Reconciles when the journal stopped right before activation.
    method Settle() returns (o: Fate)
      requires Ready(record.phase) && files == files0 && sum.first == first0
      modifies this`at, this`trace, this`sum, this`files, this`journal, this`record
      ensures o == Done ==> Ready(record.phase)
      ensures o == Done ==> record.phase == if old(record.phase) == CANDIDATE_VALIDATED && Read(old(files)) == Finished then CANDIDATE_ACTIVATED else old(record.phase)
      ensures o == Done && record.phase == CANDIDATE_VALIDATED ==> Read(files) == NotStarted
      ensures o == Done && old(record.phase) == CANDIDATE_VALIDATED ==> Did(trace, Check(Probe))
      ensures o != Done ==> Safe()
      ensures old(record.phase) == CANDIDATE_VALIDATED && Read(old(files)) == Interrupted && TurnAt(turns, old(at)).fate == Done && TurnAt(turns, old(at) + 1).fate == Broke ==>
        o == Broke && files == old(files) && record == old(record) && at == old(at) + 2
      ensures (o == Killed ==> Cut(trace)) && (o == Broke ==> Faulty(trace))
    {
      if record.phase == CANDIDATE_VALIDATED {
        :- ReconcileInterruptedActivation();
        :- Pass(Check(Probe));
      }
      return Done;
    }

    method Prepare() returns (o: Fate)
      requires Ready(record.phase) && 0 <= record.phase
      requires record.phase == CANDIDATE_VALIDATED ==> Read(files) == NotStarted
      modifies this`at, this`trace, this`sum, this`files, this`journal, this`record
      ensures o == Done ==> Ready(record.phase) && record.phase == Max(old(record.phase), CANDIDATE_VALIDATED)
      ensures o == Done && record.phase == CANDIDATE_VALIDATED ==> Read(files) == NotStarted
      ensures o != Done ==> Safe()
      ensures (o == Killed ==> Cut(trace)) && (o == Broke ==> Faulty(trace))
    {
      o := Quiesce();
      if o != Done { return; }
      :- Secure();
      o := Build();
    }

    method Forward() returns (o: Fate)
      requires Ready(record.phase) && 0 <= record.phase < SMOKE_PASSED && files == files0 && sum.first == first0
      modifies this`at, this`trace, this`sum, this`files, this`journal, this`record
      ensures Traced() && Unhandled(sum, first0) && (o == Done ==> Over() && journal == Some(record))
      ensures o != Done ==> Recoverable() || Over()
      ensures o == Broke ==> Salvageable()
      ensures sum.inOrder && sum.onceOnly && SourceHeldIfAny()
      ensures old(record.phase) == CANDIDATE_VALIDATED && Read(old(files)) == Interrupted && TurnAt(turns, old(at)).fate == Done && TurnAt(turns, old(at) + 1).fate == Broke ==>
        o == Broke && files == old(files) && record == old(record) && at == old(at) + 2
      ensures (o == Killed ==> Cut(trace)) && (o == Broke ==> Faulty(trace))
    {
      o := Settle();
      if o != Done { return; }
      :- Prepare();
      o := GoLive();
    }

    // -------------------------------------------------------------- processes

    // Takes over a journal that may be resumed.
    method Resume() returns (refused: bool, o: Fate)
      requires Traced() && Consistent() && sum.now == -1 && sum.backOk && Unhandled(sum, first0) && first0 == sum.first && files0 == files
      requires trace.Then? && trace.act.Started?
      modifies this`at, this`trace, this`sum, this`journal, this`record
      ensures Traced() && sum == old(sum) && journal == old(journal) && Consistent()
      ensures journal.None? || !Resumable(journal.value) ==> refused
      ensures refused ==> journal.None? || !Resumable(journal.value) || TurnAt(turns, old(at)).fate == Broke || TurnAt(turns, old(at) + 1).fate == Broke
      ensures !refused ==> o != Broke && Recoverable()
      ensures !refused && o == Done ==> Ready(record.phase) && journal == Some(record) && 0 <= record.phase < SMOKE_PASSED
      ensures journal.Some? && Resumable(journal.value) && TurnAt(turns, old(at)).fate == Done && TurnAt(turns, old(at) + 1).fate == Done ==>
        !refused && o == Done && at == old(at) + 2
      ensures !refused && o == Killed ==> Cut(trace)
    {
      if journal.None? || !Resumable(journal.value) { return true, Broke; }
      o := TakeOver();
      refused := o == Broke;
    }

    method TakeOver() returns (o: Fate)
      requires Traced() && Recoverable() && sum.now == -1 && sum.backOk && Unhandled(sum, first0) && first0 == sum.first && files0 == files
      requires trace.Then? && trace.act.Started?
      modifies this`at, this`trace, this`sum, this`journal, this`record
      ensures Traced() && sum == old(sum) && journal == old(journal) == Some(record)
      ensures o == Done ==> Ready(record.phase)
      ensures o == Broke ==> TurnAt(turns, old(at)).fate == Broke || TurnAt(turns, old(at) + 1).fate == Broke
      ensures TurnAt(turns, old(at)).fate == Done && TurnAt(turns, old(at) + 1).fate == Done ==> o == Done && at == old(at) + 2
      ensures (o == Killed ==> Cut(trace)) && (o == Broke ==> Faulty(trace))
    {
      record := journal.value;
      SoundIsSalvageable(files, record, sum);
      o := SavePhase(record.phase);
    }

    // Starts a journal, unless a file of the cycle is already there.
    method Create() returns (refused: bool, o: Fate)
      requires Traced() && Consistent() && sum.inOrder && sum.onceOnly
      requires sum.now == -1 && sum.backOk && Unhandled(sum, first0) && first0 == sum.first && files0 == files
      requires trace.Then? && trace.act.Started?
      modifies this`at, this`trace, this`sum, this`journal, this`record
      ensures Traced() && sum == old(sum) && Consistent()
      ensures journal == old(journal) || (old(journal).None? && journal == Some(FRESH))
      ensures old(journal).Some? || Occupied(files) ==> refused && journal == old(journal)
      ensures refused ==> old(journal).Some? || Occupied(files) || TurnAt(turns, old(at)).fate == Broke || TurnAt(turns, old(at) + 1).fate == Broke
      ensures !refused ==> old(journal).None? && o != Broke && ORIGINAL !in files && (o == Done ==> Ready(PREFLIGHT) && record.phase == PREFLIGHT)
      ensures !refused && o == Killed ==> Cut(trace)
    {
      if journal.Some? || Occupied(files) { return true, Broke; }
      FreshIsSound(files, sum);
      record := FRESH;
      o := SavePhase(PREFLIGHT);
      refused := o == Broke;
    }

    // A process starts: nothing but the files, the journal and the trace is left of the ones before.
    method Start()
      requires History() && Consistent()
      modifies this`at, this`trace, this`sum, this`earlier, this`files0, this`first0
      ensures Traced() && Consistent() && trace == earlier == Then(old(trace), Started(files)) && sum == Noted(old(sum), Started(files))
      ensures at == 0 && files0 == files && first0 == sum.first == old(sum).first
      ensures sum.inOrder && sum.onceOnly && sum.now == -1 && sum.backOk && Unhandled(sum, first0)
    {
      if journal.Some? { StartedSound(files, journal.value, sum); }
      trace, sum := Then(trace, Started(files)), Noted(sum, Started(files));
      earlier, files0, first0, at := trace, files, sum.first, 0;
      Unfold(earlier, turns, trace, files, at, sum);
    }

    method Open(resume: bool) returns (refused: bool, o: Fate)
      requires History() && Consistent()
      modifies this
      ensures Traced() && files == old(files) && Consistent() && sum == Noted(old(sum), Started(files))
      ensures earlier == Then(old(trace), Started(files)) && turns == old(turns) && files0 == files && first0 == sum.first
      ensures journal == old(journal) || (!resume && old(journal).None? && journal == Some(FRESH))
      ensures Refused(resume, old(journal), files) ==> refused && journal == old(journal)
      ensures refused ==> Refused(resume, old(journal), files) || TurnAt(turns, 0).fate == Broke || TurnAt(turns, 1).fate == Broke
      ensures !refused ==> o != Broke && (if resume then Recoverable() else old(journal).None? && ORIGINAL !in files)
      ensures !refused && o == Done ==> Ready(record.phase) && 0 <= record.phase < SMOKE_PASSED && journal == Some(record)
      ensures resume && journal.Some? && Resumable(journal.value) && TurnAt(turns, 0).fate == Done && TurnAt(turns, 1).fate == Done ==>
        !refused && o == Done && at == 2
      ensures !refused && o == Killed ==> Cut(trace)
    {
      Start();
      if resume {
        refused, o := Resume();
      } else {
        refused, o := Create();
      }
    }

    // What every ending of a process promises, given what it found when it started. Unless a
    // failure could not be recorded, the next process can rely on the journal. Only a kill is
    // a crash, and it leaves a state that can be resumed, with the source still held; a live
    // candidate was earned; no finished, rolled back or failed journal is resumable; and a
    // failure was handled, with the service started again on files that RestoredBy describes.
    ghost predicate Promised(e: Ending, earlierFirst: Option<FileSystem>, was: FileSystem)
      reads this`files, this`journal, this`trace, this`sum
    {
      && (e != Unrecorded ==> Consistent())
      && (e == Crash ==> Cut(trace) && ((journal.None? && !CandidateIsLive(files)) || Recoverable() || Over()))
      && (e == Finish ==> Over() && !Resumable(journal.value))
      && (e == Crash || e == Finish ==> SourceHeldIfAny() && (CandidateIsLive(files) ==> journal.Some? && Earned(files, journal.value, sum.seen)))
      && if e in {Crash, Finish, Refusal} then sum.stopped.None? && sum.restarted.None? else Handled(e, earlierFirst, was)
    }

    // How a process ends that was killed or failed.
    method Conclude(o: Fate) returns (e: Ending)
      requires Traced() && sum.inOrder && sum.onceOnly && SourceHeldIfAny() && o != Done
      requires Recoverable() || Over() || (journal.None? && ORIGINAL !in files && Consistent())
      requires Unhandled(sum, first0) && (o == Broke ==> Salvageable() && Faulty(trace)) && (o == Killed ==> Cut(trace))
      modifies this`at, this`trace, this`sum, this`files, this`journal, this`record
      ensures Traced() && sum.inOrder && sum.onceOnly && e != Refusal && Promised(e, first0, files0)
      ensures o == Broke && !old(record).activated && TurnAt(turns, old(at)).fate == Done && TurnAt(turns, old(at) + 1).fate == Done && TurnAt(turns, old(at) + 2).fate == Done ==>
        e == RollBack && sum.restarted == Some(old(files))
    {
      if o == Killed {
        if Recoverable() && CandidateIsLive(files) { UnfoldSound(files, journal.value, sum); LiveCandidateIsEarned(files, journal.value, sum); }
        return Crash;
      }
      e := HandleFailure();
    }

    lemma FinishIsPromised()
      requires Over() && SourceHeldIfAny() && Unhandled(sum, first0)
      ensures Promised(Finish, first0, files0)
    {
    }

    // What follows once the journal is open.
    method Proceed() returns (e: Ending)
      requires Ready(record.phase) && 0 <= record.phase < SMOKE_PASSED && files == files0 && sum.first == first0
      modifies this`at, this`trace, this`sum, this`files, this`journal, this`record
      ensures Traced() && sum.inOrder && sum.onceOnly && e != Refusal && Promised(e, first0, files0)
      ensures old(record).phase == CANDIDATE_VALIDATED && Read(old(files)) == Interrupted && SecondFails(turns, old(at)) ==>
        e == RollBack && sum.restarted == Some(old(files))
    {
      var o := Forward();
      if o == Done {
        FinishIsPromised();
        return Finish;
      }
      e := Conclude(o);
    }

    // The put-back of an interrupted original fails at its first rename, and nothing after it does.
    ghost predicate PutBackFails()
      reads this`files, this`journal, this`turns
    {
      && journal.Some? && Resumable(journal.value) && journal.value.phase == CANDIDATE_VALIDATED && Read(files) == Interrupted
      && TurnAt(turns, 0).fate == Done && TurnAt(turns, 1).fate == Done && SecondFails(turns, 2)
    }

    // One process, up to its ending.
    method Process(resume: bool) returns (e: Ending)
      requires History() && Consistent()
      modifies this
      ensures Traced() && sum.inOrder && sum.onceOnly && earlier == Then(old(trace), Started(old(files))) && turns == old(turns)
      ensures Promised(e, old(sum).first, old(files))
      ensures Refused(resume, old(journal), old(files)) ==> e == Refusal && journal == old(journal)
      ensures e == Refusal ==> Refused(resume, old(journal), old(files)) || TurnAt(old(turns), 0).fate == Broke || TurnAt(old(turns), 1).fate == Broke
      ensures e == Refusal ==> files == old(files) && sum == Noted(old(sum), Started(files))
      ensures e == Refusal ==> journal == old(journal) || (!resume && old(journal).None? && journal == Some(FRESH))
      ensures resume && old(PutBackFails()) ==> e == RollBack && sum.restarted == Some(old(files))
    {
      var refused, o := Open(resume);
      if refused { return Refusal; }
      if o == Done {
        e := Proceed();
      } else {
        e := Conclude(o);
      }
    }

    // The service was started again on exactly the source: nothing had been renamed, or the
    // database is again what it was.
    ghost predicate SourceIsBack()
      reads this`trace, this`sum
    {
      sum.restarted.Some? && if sum.first.None? then Untouched(trace) else Beside(sum.restarted.value, Database) == SourceParts(sum)
    }

    // It was started on a candidate whose activation was completed and not recorded.
    ghost predicate CandidateIsLeft()
      reads this`sum
    {
      && sum.first.Some? && sum.stopped.None? && sum.restarted == Some(ActivationPrefix(sum.first.value, 4))
      && Read(sum.restarted.value) == Finished && SourceParts(sum) != Parts(CandidateOf(sum), None, None)
    }

    /**
     One process of the cycle, fresh or resumed, with every fate of every act. The acts use
     the given turns one by one and make the files what they are; the effects of the phases
     come in order over all processes, and no completed activation is applied again. However
     the process ends, it keeps what Promised says. A process without a killed turn does not
     crash, and one in which no act and no comparison fails finishes, unless it was refused; any
     other has started the service again unless its rollback failed.
     If no activation had begun before it and its renames back were done, that start was on
     exactly the source, unless the activation had been completed and the failure came before
     it was recorded: then it was on the candidate. Only a journal that may be resumed is resumed. If the put-back of an
     interrupted original fails, the service is started without any database, and the journal
     is not resumable.
     */
    method Run(resume: bool) returns (e: Ending)
      requires History() && Consistent()
      modifies this
      ensures History() && Extends(trace, Then(old(trace), Started(old(files)))) && Aligned(Then(old(trace), Started(old(files))), old(turns), trace)
      ensures Promised(e, old(sum).first, old(files)) && (e == Finish ==> Complete(trace))
      ensures NeverKilled(old(turns)) ==> !Cut(trace) && e != Crash
      ensures e in {Finish, Refusal, Crash} || (Faulty(trace) && (sum.restarted.Some? || sum.stopped.Some?))
      ensures sum.restarted.Some? && old(sum).first.None? && sum.backOk && (sum.stopped.Some? ==> !Stray(sum.stopped.value)) ==>
        (SourceIsBack() <==> !CandidateIsLeft())
      ensures Refused(resume, old(journal), old(files)) ==> e == Refusal && journal == old(journal)
      ensures e == Refusal ==> Refused(resume, old(journal), old(files)) || TurnAt(old(turns), 0).fate == Broke || TurnAt(old(turns), 1).fate == Broke
      ensures e == Refusal ==> files == old(files) && sum == Noted(old(sum), Started(files))
      ensures e == Refusal ==> journal == old(journal) || (!resume && old(journal).None? && journal == Some(FRESH))
      ensures resume && old(PutBackFails()) ==>
        e == RollBack && sum.restarted == Some(old(files)) && DATABASE !in old(files)
    {
      e := Process(resume);
      Unfold(earlier, turns, trace, files, at, sum);
      AlignedExtends(earlier, turns, trace);
      if NeverKilled(turns) { UncutWithoutKill(earlier, turns, trace); }
      if e == Finish { RanMeansComplete(trace, sum); }
    }

    // The latest process, which had these turns, keeps what Promised says of the files and the
    // activation it found at its start. It is refused only by a failing turn, a finished
    // journal or occupied names.
    ghost predicate Ended(e: Ending, life: seq<Turn>)
      reads this`files, this`journal, this`trace, this`sum
    {
      var start := Begun(trace);
      && start.Then? && Promised(e, Sum(start.prior).first, start.act.found) && (e == Finish ==> Complete(trace))
      && (NeverKilled(life) ==> e != Crash)
      && (e == Refusal ==> TurnAt(life, 0).fate == Broke || TurnAt(life, 1).fate == Broke || Over() || (journal.None? && Occupied(files)))
    }

    // One life of a cycle: fresh if there is no journal, resumed otherwise.
    method Live(life: seq<Turn>) returns (e: Ending)
      requires History() && Consistent() && (journal.Some? ==> Recoverable() || Over())
      modifies this
      ensures History() && Ended(e, life)
      ensures Aligned(Then(old(trace), Started(old(files))), life, trace)
    {
      turns := life;
      e := Run(journal.Some?);
      AlignedBegun(Then(old(trace), Started(old(files))), life, trace);
    }

    /**
     A cycle that is resumed after every crash, for as many lives as are given or until one does
     not end in a crash. The trace is the earlier one followed by the acts of each life, which
     use that life's turns; every life but the last was killed with the source still held; and
     the last one, whose start the trace shows, ends as Ended says.
     */
    method LiveThrough(lives: seq<seq<Turn>>) returns (e: Ending, n: nat)
      requires journal.None? && History() && Consistent()
      modifies this
      ensures n <= |lives| && (n == 0 <==> lives == []) && (n < |lives| ==> e != Crash)
      ensures History() && Lived(old(trace), lives[..n], trace)
      ensures if n == 0 then files == old(files) && journal == old(journal) else Ended(e, lives[n - 1])
    {
      e, n := Refusal, 0;
      while n < |lives| && (n == 0 || e == Crash)
        invariant n <= |lives| && History() && Lived(old(trace), lives[..n], trace)
        invariant if n == 0 then files == old(files) && journal.None? && Consistent() && e == Refusal else Ended(e, lives[n - 1])
        decreases |lives| - n
      {
        ghost var before, found := trace, files;
        assert n > 0 ==> Crashed(before, found);
        e := Live(lives[n]);
        LivedOn(old(trace), lives, n, before, found, trace);
        n := n + 1;
      }
    }
  }

  lemma LivedOn(earlier: Trace, lives: seq<seq<Turn>>, n: nat, before: Trace, found: FileSystem, trace: Trace)
    requires n < |lives| && Lived(earlier, lives[..n], before) && (n > 0 ==> Crashed(before, found))
    requires Aligned(Then(before, Started(found)), lives[n], trace)
    ensures Lived(earlier, lives[..n + 1], trace)
  {
    AlignedBegun(Then(before, Started(found)), lives[n], trace);
    assert lives[..n + 1][..n] == lives[..n];
  }

  // The sidecars that the first k renames of activation really moved.
  function MovedBy(before: FileSystem, k: nat): seq<Part>
  {
    (if k >= 2 && Path(Database, Wal) in before then [Wal] else []) +
    (if k >= 3 && Path(Database, Shm) in before then [Shm] else [])
  }

  lemma SidecarWaits(before: FileSystem, c: Content, k: nat)
    requires Placed(before, c) && Read(before) == NotStarted && 1 <= k <= 2
    ensures k == 1 ==> At(ActivationPrefix(before, k), Path(Database, Wal)) == At(before, Path(Database, Wal))
    ensures At(ActivationPrefix(before, k), Path(Database, Shm)) == At(before, Path(Database, Shm))
    ensures ACTIVATION[k].from !in ActivationPrefix(before, k) ==> ActivationPrefix(before, k + 1) == ActivationPrefix(before, k)
  {
    assert ActivationPrefix(before, 0) == before;
    assert ActivationPrefix(before, 1) == Renamed(ActivationPrefix(before, 0), ACTIVATION[0]);
    assert ActivationPrefix(before, 2) == Renamed(ActivationPrefix(before, 1), ACTIVATION[1]);
  }

  // Undoing step k + 1 of activation, when it moved something.
  lemma UndoneStep(before: FileSystem, c: Content, k: nat)
    requires Placed(before, c) && Read(before) == NotStarted && k <= 3
    requires ACTIVATION[k].from in ActivationPrefix(before, k)
    ensures var r := ACTIVATION[k];
      Renamed(ActivationPrefix(before, k + 1), Rename(r.to, r.from)) == ActivationPrefix(before, k)
    ensures ACTIVATION[k].to in ActivationPrefix(before, k + 1)
  {
    ActivationCrashKeepsFiles(before, c, k);
    RenameBack(ActivationPrefix(before, k), ACTIVATION[k]);
  }

  // The step before the last sidecar that was moved: nothing was moved since.
  lemma LastMove(before: FileSystem, c: Content, k: nat) returns (n: nat)
    requires Placed(before, c) && Read(before) == NotStarted && 1 <= k <= 3 && MovedBy(before, k) != []
    ensures 1 <= n < k && ActivationPrefix(before, n + 1) == ActivationPrefix(before, k)
    ensures ACTIVATION[n].from in ActivationPrefix(before, n)
    ensures MovedBy(before, k) == MovedBy(before, n) + [ACTIVATION[n].from.part]
  {
    SidecarWaits(before, c, 1);
    SidecarWaits(before, c, 2);
    n := if k == 3 && Path(Database, Shm) in before then 2 else 1;
  }

  lemma NothingMoved(before: FileSystem, c: Content, k: nat)
    requires Placed(before, c) && Read(before) == NotStarted && 1 <= k <= 3 && MovedBy(before, k) == []
    ensures ActivationPrefix(before, k) == ActivationPrefix(before, 1)
  {
    SidecarWaits(before, c, 1);
    SidecarWaits(before, c, 2);
  }

  // The summary of an activation that stopped after n renames, or whose undo did.
  predicate AfterActivation(before: FileSystem, s: Summary, now: Summary, n: nat)
  {
    && now.inOrder && now.onceOnly && now.furthest == CANDIDATE_ACTIVATED && now.now <= CANDIDATE_ACTIVATED
    && now.seen == s.seen && now.stopped == s.stopped && now.swaps == (if n == 4 then 1 else 0)
    && (now.first == s.first || (s.first.None? && now.first == Some(before))) && (n > 0 ==> now.first.Some?)
  }

  lemma PrefixIsSound(before: FileSystem, fs: FileSystem, j: Record, s: Summary, now: Summary, n: nat)
    requires Folded(FOLDS, before, j, s) && j.phase == CANDIDATE_VALIDATED && Read(before) == NotStarted && At(before, DATABASE) == j.source
    requires n <= 4 && fs == ActivationPrefix(before, n) && AfterActivation(before, s, now, n)
    ensures Folded(FOLDS, fs, j, now)
    ensures now.first.Some? ==> CandidateOf(now) == j.candidate && Placed(fs, j.candidate.value) && SourceOf(fs) == SourceParts(now)
  {
    var c := j.candidate.value;
    UnfoldSound(before, j, s);
    UnfoldSound(fs, j, now);
    ActivationCrashKeepsFiles(before, c, n);
    HeldIsSource(before, c);
    HeldIsSource(fs, c);
    assert SourceOf(fs).main == SourceOf(before).main;
  }

  // A failed activation has either undone its renames or recorded that it could not.
  lemma PrefixIsSalvage(before: FileSystem, fs: FileSystem, j: Record, s: Summary, now: Summary, n: nat, was: FileSystem, earlier: Option<FileSystem>)
    requires Folded(FOLDS, before, j, s) && j.phase == CANDIDATE_VALIDATED && Read(before) == NotStarted && At(before, DATABASE) == j.source
    requires n <= 4 && fs == ActivationPrefix(before, n) && AfterActivation(before, s, now, n)
    requires FoldedSalvage(FOLDS, before, false, s, was, earlier) && s.backOk && (earlier.Some? ==> s.first == earlier) && (now.backOk ==> n == 0 || n == 4)
    ensures FoldedSalvage(FOLDS, fs, false, now, was, earlier)
  {
    PrefixIsSound(before, fs, j, s, now, n);
    UnfoldSalvage(before, false, s, was, earlier);
    UnfoldSalvage(fs, false, now, was, earlier);
  }

  // A put-back that stopped after j renames leaves a journal that holds.
  lemma PutBackIsSound(before: FileSystem, fs: FileSystem, j: Record, s: Summary, now: Summary, n: nat)
    requires Folded(FOLDS, before, j, s) && j.phase == CANDIDATE_VALIDATED && Read(before) == Interrupted
    requires n <= 3 && fs == ReconcilePrefix(before, n) && now == s.(backOk := now.backOk) && (now.backOk ==> n == 3)
    ensures Folded(FOLDS, fs, j, now) && FoldedSalvage(FOLDS, fs, false, now, before, s.first)
  {
    var c := j.candidate.value;
    UnfoldSound(before, j, s);
    UnfoldSound(fs, j, now);
    UnfoldSalvage(fs, false, now, before, s.first);
    ReconcileCrashKeepsFiles(before, c, n);
    HeldIsSource(before, c);
    HeldIsSource(fs, c);
    assert SourceOf(fs).main == SourceOf(before).main;
    assert s.first.None? ==> Beside(before, Original).main == None;
  }

  // The layout that a journal which stopped right before activation vouches for.
  lemma PlacedBy(fs: FileSystem, j: Record, s: Summary)
    requires Folded(FOLDS, fs, j, s) && j.phase == CANDIDATE_VALIDATED
    ensures Placed(fs, j.candidate.value) && (Read(fs) == Interrupted ==> s.first.Some?) && s.swaps == (if Read(fs) == Finished then 1 else 0)
    ensures s.furthest <= CANDIDATE_ACTIVATED
  {
    UnfoldSound(fs, j, s);
    assert s.first.None? ==> Beside(fs, Original).main == None;
  }

  // A new process begins with a journal that holds.
  lemma StartedSound(fs: FileSystem, j: Record, s: Summary)
    ensures Folded(FOLDS, fs, j, s) ==> Folded(FOLDS, fs, j, Noted(s, Started(fs)))
  {
    UnfoldSound(fs, j, s);
    UnfoldSound(fs, j, Noted(s, Started(fs)));
  }

  lemma CandidateIsThere(fs: FileSystem, j: Record, s: Summary)
    requires Folded(FOLDS, fs, j, s) && j.phase == CANDIDATE_CREATED
    ensures At(fs, CANDIDATE) == j.candidate && Read(fs) == NotStarted
  {
    UnfoldSound(fs, j, s);
  }

  lemma RanMeansComplete(trace: Trace, s: Summary)
    requires s == Sum(trace) && s.inOrder && s.onceOnly && RanUpTo(SMOKE_PASSED, s.seen)
    ensures Complete(trace)
  {
    assert PhaseOf(Ask(ServiceStop)) == SERVICE_STOPPED && PhaseOf(Ask(ServiceStart)) == SERVICE_STARTED && PhaseOf(Ask(SmokeTest)) == SMOKE_PASSED;
    NotedMeansComplete(trace);
  }

  /** What a journal that holds says was done, phase by phase, was done by an act of the trace. */
  lemma EveryPhaseWasDone(fs: FileSystem, j: Record, trace: Trace, site: Site) returns (t: Trace)
    requires Sound(fs, j, Sum(trace)) && 0 <= PhaseOf(Ask(site)) <= j.phase
    ensures Extends(trace, t) && Did(t, Ask(site)) && (Sum(t.prior).swaps == 1 <==> PhaseOf(Ask(site)) > CANDIDATE_ACTIVATED)
  {
    t := RanMeansDone(trace, site, PhaseOf(Ask(site)) > CANDIDATE_ACTIVATED);
  }

  lemma RanOneMore(site: Site, phase: Phase, seen: set<Evidence>)
    requires RanUpTo(phase, seen) && PhaseOf(Ask(site)) == phase + 1 >= 0 && Ran(site, phase >= CANDIDATE_ACTIVATED) in seen
    ensures RanUpTo(phase + 1, seen)
  {
    forall other | PhaseOf(Ask(other)) == phase + 1 ensures other == site {}
  }

  // What has to have been observed before the next phase is journaled.
  predicate Earns(fs: FileSystem, j: Record, r: Record, seen: set<Evidence>)
  {
    && r == j.(backup := r.backup, candidate := r.candidate, source := r.source, validations := r.validations)
    && r.validations == j.validations + (if j.phase == BACKUP_CREATED then [BackupRole] else if j.phase == CANDIDATE_CREATED then [CandidateRole] else [])
    && (if j.phase == LEASE_RELEASED then r.backup.Some? else r.backup == j.backup)
    && (if j.phase == RETENTION_DRAINED then
          r.source.Some? && r.candidate.Some? && Built(r.source.value, r.candidate.value) in seen && At(fs, CANDIDATE) == r.candidate
        else r.source == j.source && r.candidate == j.candidate)
    && (j.phase == SERVICE_STOPPED ==> LeaseProved in seen)
    && (j.phase == BACKUP_CREATED ==> r.backup.Some? && Passed(BackupRole, r.backup.value) in seen)
    && (j.phase == CANDIDATE_CREATED ==> r.candidate.Some? && Passed(CandidateRole, r.candidate.value) in seen)
  }

  // The journal may then say that it has passed.
  lemma Next(site: Site, fs: FileSystem, j: Record, r: Record, s: Summary)
    requires Folded(FOLDS, fs, j, s) && 0 <= j.phase < SERVICE_STARTED && PhaseOf(Ask(site)) == j.phase + 1 && Earns(fs, j, r, s.seen)
    requires Ran(site, j.phase >= CANDIDATE_ACTIVATED) in s.seen
    ensures Folded(FOLDS, fs, r.(phase := j.phase + 1), s) && (j.phase == CANDIDATE_CREATED ==> Read(fs) == NotStarted)
  {
    assert RanUpTo(j.phase, s.seen) by { UnfoldSound(fs, j, s); }
    RanOneMore(site, j.phase, s.seen);
    UnfoldSound(fs, j, s);
    UnfoldSound(fs, r.(phase := j.phase + 1), s);
  }

  // The candidate is in place, so the journal may say that it was activated.
  lemma ActivationIsSound(fs: FileSystem, j: Record, original: Content, s: Summary, was: FileSystem, earlier: Option<FileSystem>)
    requires Folded(FOLDS, fs, j, s) && j.phase == CANDIDATE_VALIDATED && Read(fs) == Finished && At(fs, ORIGINAL) == Some(original)
    ensures Folded(FOLDS, fs, j.(original := Some(original), activated := true, phase := CANDIDATE_ACTIVATED), s)
    ensures FoldedSalvage(FOLDS, fs, true, s, was, earlier)
  {
    var r := j.(original := Some(original), activated := true, phase := CANDIDATE_ACTIVATED);
    UnfoldSound(fs, j, s);
    UnfoldSound(fs, r, s);
    UnfoldSalvage(fs, true, s, was, earlier);
    HeldIsSource(fs, j.candidate.value);
    assert s.first.None? ==> Beside(fs, Original).main == None;
  }

  lemma SmokeEarns(fs: FileSystem, j: Record, s: Summary)
    requires Folded(FOLDS, fs, j, s) && j.phase == SERVICE_STARTED && Ran(SmokeTest, true) in s.seen
    ensures Earned(fs, j.(outcome := Completed, phase := SMOKE_PASSED), s.seen)
    ensures j.validations == Validated(SMOKE_PASSED) && RanUpTo(SMOKE_PASSED, s.seen)
  {
    UnfoldSound(fs, j, s);
    RanOneMore(SmokeTest, j.phase, s.seen);
  }

  // A journal that holds says where the source is.
  lemma SoundIsSalvageable(fs: FileSystem, j: Record, s: Summary)
    requires Folded(FOLDS, fs, j, s)
    ensures FoldedSalvage(FOLDS, fs, j.activated, s, fs, s.first)
  {
    UnfoldSound(fs, j, s);
    UnfoldSalvage(fs, j.activated, s, fs, s.first);
    if s.first.Some? && !j.activated { HeldIsSource(fs, j.candidate.value); }
  }

  lemma FreshIsSound(fs: FileSystem, s: Summary)
    requires !Occupied(fs) && s.inOrder && s.onceOnly && s.furthest == -1 && s.first.None? && s.swaps == 0
    ensures Folded(FOLDS, fs, FRESH, s) && FoldedSalvage(FOLDS, fs, false, s, fs, s.first)
  {
    UnfoldSound(fs, FRESH, s);
    UnfoldSalvage(fs, false, s, fs, s.first);
  }

  lemma RollbackGoesBack(i: nat)
    requires i < 4
    ensures Back(ROLLBACK[i]) && ROLLBACK[i] != UNSWAP
  {
    if i == 0 {
      assert ROLLBACK[i] == Rename(DATABASE, FAILED);
    } else {
      assert ROLLBACK[i] == RETURN[i - 1];
    }
  }

  // Of five turns in a row, the second breaks.
  predicate SecondFails(turns: seq<Turn>, at: nat)
  {
    && TurnAt(turns, at).fate == Done && TurnAt(turns, at + 1).fate == Broke
    && TurnAt(turns, at + 2).fate == Done && TurnAt(turns, at + 3).fate == Done && TurnAt(turns, at + 4).fate == Done
  }

  // The next n turns are done.
  predicate Calm(turns: seq<Turn>, at: nat, n: nat) { forall i :: at <= i < at + n ==> TurnAt(turns, i).fate == Done }

  // The database has no sidecars.
  predicate Alone(fs: FileSystem) { Path(Database, Wal) !in fs && Path(Database, Shm) !in fs }

  // An activation is completed, and then the preserved original cannot be read.
  predicate LosesHash(fs: FileSystem, source: Option<Content>, turns: seq<Turn>, at: nat)
  {
    Alone(fs) && At(fs, DATABASE) == source && Calm(turns, at, 5) && TurnAt(turns, at + 5).fate == Broke
  }

  // A new cycle needs a database and free names for all its files.
  predicate Occupied(fs: FileSystem)
  {
    || DATABASE !in fs || BACKUP in fs || CANDIDATE in fs || FAILED in fs
    || ORIGINAL in fs || Path(Original, Wal) in fs || Path(Original, Shm) in fs
  }

  predicate Refused(resume: bool, journal: Option<Record>, fs: FileSystem)
  {
    if resume then journal.None? || !Resumable(journal.value) else journal.Some? || Occupied(fs)
  }

  // Without a rollback the service is started on the files as they are.
  lemma IdleRestarts(fs: FileSystem, s: Summary, was: FileSystem, earlier: Option<FileSystem>)
    requires s.stopped.None? && FoldedSalvage(FOLDS, fs, false, s, was, earlier)
    ensures RestartsOn(fs, s.(restarted := Some(fs)))
    ensures s.first.Some? && s.backOk ==> Resolved(earlier, s.first.value, was, fs)
  {
    UnfoldSalvage(fs, false, s, was, earlier);
    if s.first.Some? { InPlaceIff(fs, CandidateOf(s).value); }
  }

  // What the summary says of a dependency that begins the next phase.
  lemma AskNoted(site: Site, before: FileSystem, s: Summary, turn: Turn)
    requires 0 <= PhaseOf(Ask(site)) && s.now < PhaseOf(Ask(site)) && s.furthest <= PhaseOf(Ask(site))
    requires s.swaps == 1 <==> PhaseOf(Ask(site)) > CANDIDATE_ACTIVATED
    ensures var p, now := PhaseOf(Ask(site)), NotedAsk(s, site, before, turn);
      && now == s.(furthest := p, now := p, seen := now.seen) && s.seen <= now.seen
      && (turn.fate == Done ==> Shown(site, before, Effect(Act(Ask(site), before, turn)), now.seen))
  {
  }

  // The layout after a dependency that stays away from all other files.
  predicate SameElsewhere(site: Site, before: FileSystem, after: FileSystem)
  {
    (forall b :: b !in Bases(site) ==> Beside(after, b) == Beside(before, b)) && (DATABASE in before ==> DATABASE in after)
  }

  lemma LayoutKeepsSound(site: Site, before: FileSystem, after: FileSystem, j: Record, s: Summary, now: Summary)
    requires Folded(FOLDS, before, j, s) && SameElsewhere(site, before, after) && PhaseOf(Ask(site)) == j.phase + 1
    requires now == s.(furthest := j.phase + 1, now := j.phase + 1, seen := now.seen) && s.seen <= now.seen
    ensures Folded(FOLDS, after, j, now)
  {
    UnfoldSound(before, j, s);
    UnfoldSound(after, j, now);
    SameLayout(before, after, Bases(site));
  }

  lemma LayoutKeepsSource(site: Site, before: FileSystem, after: FileSystem, j: Record, s: Summary, now: Summary, was: FileSystem, earlier: Option<FileSystem>)
    requires Folded(FOLDS, before, j, s) && SameElsewhere(site, before, after) && PhaseOf(Ask(site)) == j.phase + 1
    requires now == s.(furthest := now.furthest, now := now.now, seen := now.seen) && FoldedSalvage(FOLDS, before, j.activated, s, was, earlier)
    ensures FoldedSalvage(FOLDS, after, j.activated, now, was, earlier)
  {
    UnfoldSound(before, j, s);
    UnfoldSalvage(before, j.activated, s, was, earlier);
    UnfoldSalvage(after, j.activated, now, was, earlier);
    SameLayout(before, after, Bases(site));
  }

  // Right before a phase that has a dependency, the candidate is in place exactly if it was activated.
  lemma SwapsByPhase(fs: FileSystem, j: Record, s: Summary)
    requires Folded(FOLDS, fs, j, s) && j.phase != CANDIDATE_VALIDATED
    ensures s.furthest <= j.phase + 1 && (s.swaps == 1 <==> j.phase >= CANDIDATE_ACTIVATED)
  {
    UnfoldSound(fs, j, s);
    assert j.phase < CANDIDATE_CREATED ==> Beside(fs, Original).main == None;
  }

  // A dependency that begins the next phase keeps the journal sound and the source where it was.
  lemma AskKeepsSound(site: Site, before: FileSystem, j: Record, s: Summary, turn: Turn, was: FileSystem, earlier: Option<FileSystem>)
    requires Folded(FOLDS, before, j, s) && FoldedSalvage(FOLDS, before, j.activated, s, was, earlier)
    requires PhaseOf(Ask(site)) == j.phase + 1 && s.now <= j.phase
    ensures var after, now := Effect(Act(Ask(site), before, turn)), NotedAsk(s, site, before, turn);
      Folded(FOLDS, after, j, now) && FoldedSalvage(FOLDS, after, j.activated, now, was, earlier)
    ensures s.furthest <= j.phase + 1 && (s.swaps == 1 <==> j.phase >= CANDIDATE_ACTIVATED)
  {
    var after, now := Effect(Act(Ask(site), before, turn)), NotedAsk(s, site, before, turn);
    SwapsByPhase(before, j, s);
    AskNoted(site, before, s, turn);
    LayoutKeepsSound(site, before, after, j, s, now);
    LayoutKeepsSource(site, before, after, j, s, now, was, earlier);
  }

  // What a dependency that was done has shown of the files before and after it.
  predicate Shown(site: Site, before: FileSystem, after: FileSystem, seen: set<Evidence>)
  {
    && Ran(site, PhaseOf(Ask(site)) > CANDIDATE_ACTIVATED) in seen
    && match site
    case LeaseProof => LeaseProved in seen
    case BackupCheck => BACKUP in before ==> Passed(BackupRole, before[BACKUP]) in seen
    case CandidateCheck => CANDIDATE in before ==> Passed(CandidateRole, before[CANDIDATE]) in seen
    case Vacuum => DATABASE in before && CANDIDATE in after ==> Built(before[DATABASE], after[CANDIDATE]) in seen
    case _ => true
  }

  // A dependency that stays away from the original and the candidate leaves the layout.
  lemma SameLayout(was: FileSystem, now: FileSystem, bases: set<Base>)
    requires forall b :: b !in bases ==> Beside(now, b) == Beside(was, b)
    ensures Original !in bases ==> Beside(now, Original) == Beside(was, Original) && (ORIGINAL in now <==> ORIGINAL in was)
    ensures Candidate !in bases ==> At(now, CANDIDATE) == At(was, CANDIDATE)
    ensures Database !in bases ==> Beside(now, Database) == Beside(was, Database)
  {
    assert Beside(was, Candidate).main == At(was, CANDIDATE) && Beside(now, Candidate).main == At(now, CANDIDATE);
    assert Beside(was, Original).main == At(was, ORIGINAL) && Beside(now, Original).main == At(now, ORIGINAL);
  }
}
