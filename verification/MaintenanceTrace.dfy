/**
 What the processes of a maintenance cycle do to the files, act by act. Every act
 uses up one turn, which says how the act ends and what a dependency writes. The
 turns are given beforehand, so the files are determined by which acts are chosen.
 */
module MaintenanceTrace {
  import opened Common
  import opened MaintenanceFiles

  // A phase is its position in the phase list; the three failure phases are not in the list.
  type Phase = int

  const PREFLIGHT: Phase := 0
  const ADMISSION_STOPPED: Phase := 1
  const SERVICE_STOPPED: Phase := 2
  const LEASE_RELEASED: Phase := 3
  const BACKUP_CREATED: Phase := 4
  const BACKUP_VALIDATED: Phase := 5
  const RETENTION_DRAINED: Phase := 6
  const CANDIDATE_CREATED: Phase := 7
  const CANDIDATE_VALIDATED: Phase := 8
  const CANDIDATE_ACTIVATED: Phase := 9
  const SERVICE_STARTED: Phase := 10
  const SMOKE_PASSED: Phase := 11
  const ROLLBACK_FAILED: Phase := -1
  const RESTART_FAILED: Phase := -2
  const ROLLED_BACK: Phase := -3

  // -------------------------------------------------------------------- turns

  datatype Fate = Done | Broke | Killed {
    predicate IsFailure() { !Done? }
    function PropagateFailure(): Fate { this }
  }

  // How an act ends and, for a dependency, what it has written and removed by then.
  datatype Turn = Turn(fate: Fate, written: map<Path, Option<Content>>)

  // An act beyond the last turn is done and writes nothing.
  function TurnAt(turns: seq<Turn>, i: nat): Turn { if i < |turns| then turns[i] else Turn(Done, map[]) }

  // A dependency rewrites files under the bases it may touch; it never removes the database.
  function Overlay(fs: FileSystem, bases: set<Base>, written: map<Path, Option<Content>>): (r: FileSystem)
    ensures forall b :: b !in bases ==> Beside(r, b) == Beside(fs, b)
    ensures DATABASE in fs ==> DATABASE in r
  {
    var kept := map p | p in fs && (p.base !in bases || p !in written || (p == DATABASE && written[p].None?)) :: fs[p];
    var touched := map p | p in written && p.base in bases && written[p].Some? :: written[p].value;
    kept + touched
  }

  // --------------------------------------------------------------------- acts

  // Where a dependency is called: once per phase that has one, and twice in the handler of a failure.
  datatype Site =
    | AdmissionStop | ServiceStop | LeaseProof | BackupCopy | BackupCheck | Drain
    | Vacuum | CandidateCheck | ServiceStart | SmokeTest | RollbackStop | Restart

  function Bases(site: Site): set<Base>
  {
    match site
    case LeaseProof => {}
    case BackupCheck => {}
    case CandidateCheck => {}
    case BackupCopy => {Backup, Database}
    case Vacuum => {Candidate, Database}
    case _ => {Database}
  }

  // A check is a step that changes no file: a look at the deadline, the sync of a directory,
  // the probe of a file's mode. A save replaces the journal by one that says the phase. A
  // comparison looks for a file and, where one is expected, for its content.
  datatype What = Deadline | Sync | Probe

  datatype Kind =
    | Check(what: What) | Save(phase: Phase) | Compare(path: Path, expected: Option<Content>)
    | Ask(site: Site) | Relocate(rename: Rename)

  // An act with the files it found, or the start of a process with the files it found.
  datatype Act = Started(found: FileSystem) | Act(kind: Kind, before: FileSystem, turn: Turn)

  function Effect(a: Act): FileSystem
    requires a.Act?
  {
    match a.kind
    case Check(_) => a.before
    case Save(_) => a.before
    case Compare(_, _) => a.before
    case Ask(site) => Overlay(a.before, Bases(site), a.turn.written)
    case Relocate(r) => if a.turn.fate == Done then Renamed(a.before, r) else a.before
  }

  // All acts so far, the latest last.
  datatype Trace = Nil | Then(prior: Trace, act: Act)

  function Count(trace: Trace): nat { if trace.Nil? then 0 else Count(trace.prior) + 1 }

  predicate Extends(trace: Trace, earlier: Trace) { trace == earlier || (trace.Then? && Extends(trace.prior, earlier)) }

  // The files are what the acts made of them, one after the other.
  predicate Chained(trace: Trace, files: FileSystem)
  {
    match trace
    case Nil => true
    case Then(prior, act) => if act.Started? then files == act.found && Chained(prior, files) else files == Effect(act) && Chained(prior, act.before)
  }

  // The acts after `earlier` used the turns one by one.
  predicate Aligned(earlier: Trace, turns: seq<Turn>, trace: Trace)
  {
    trace == earlier ||
    (trace.Then? && Count(trace) > Count(earlier) && trace.act.Act? && trace.act.turn == TurnAt(turns, Count(trace.prior) - Count(earlier))
     && Aligned(earlier, turns, trace.prior))
  }

  lemma {:induction false} AlignedExtends(earlier: Trace, turns: seq<Turn>, trace: Trace)
    requires Aligned(earlier, turns, trace)
    ensures Extends(trace, earlier) && Count(trace) >= Count(earlier)
  {
    if trace != earlier { AlignedExtends(earlier, turns, trace.prior); }
  }

  // A comparison that finds no file or another content.
  predicate Differs(kind: Kind, fs: FileSystem)
  {
    kind.Compare? && (kind.path !in fs || (kind.expected.Some? && kind.expected.value != fs[kind.path]))
  }

  // An act of the latest process failed, or a comparison did.
  predicate Faulty(trace: Trace)
  {
    trace.Then? && trace.act.Act? && (trace.act.turn.fate == Broke || Differs(trace.act.kind, trace.act.before) || Faulty(trace.prior))
  }

  // The trace up to the start of the latest process.
  function Begun(trace: Trace): (start: Trace)
    ensures start.Then? ==> start.act.Started?
  {
    match trace
    case Nil => Nil
    case Then(prior, act) => if act.Started? then trace else Begun(prior)
  }

  lemma {:induction false} AlignedBegun(start: Trace, turns: seq<Turn>, trace: Trace)
    requires Aligned(start, turns, trace) && start.Then? && start.act.Started?
    ensures Begun(trace) == start
  {
    if trace != start { AlignedBegun(start, turns, trace.prior); }
  }

  predicate LastIs(trace: Trace, fate: Fate) { trace.Then? && trace.act.Act? && trace.act.turn.fate == fate }

  // The last act was cut short by a kill.
  predicate Cut(trace: Trace) { LastIs(trace, Killed) }

  predicate NeverKilled(turns: seq<Turn>) { forall i :: 0 <= i < |turns| ==> turns[i].fate != Killed }

  /** Only a turn that kills can cut the acts of a process short. */
  lemma UncutWithoutKill(start: Trace, turns: seq<Turn>, trace: Trace)
    requires Aligned(start, turns, trace) && start.Then? && start.act.Started? && NeverKilled(turns)
    ensures !Cut(trace)
  {
  }

  // ------------------------------------------------------------------ summary

  datatype Role = BackupRole | CandidateRole

  // What was really observed, at an act that was done.
  datatype Evidence =
    | Ran(site: Site, live: bool)   // a phase's dependency, and whether the candidate was in place by then
    | LeaseProved
    | Passed(role: Role, content: Content)
    | Built(source: Content, candidate: Content)

  function PhaseOf(kind: Kind): Phase
  {
    match kind
    case Check(_) => -1
    case Save(_) => -1
    case Compare(_, _) => -1
    case Relocate(r) => if r == ACTIVATION[0] then CANDIDATE_ACTIVATED else -1
    case Ask(site) =>
      match site
      case AdmissionStop => ADMISSION_STOPPED
      case ServiceStop => SERVICE_STOPPED
      case LeaseProof => LEASE_RELEASED
      case BackupCopy => BACKUP_CREATED
      case BackupCheck => BACKUP_VALIDATED
      case Drain => RETENTION_DRAINED
      case Vacuum => CANDIDATE_CREATED
      case CandidateCheck => CANDIDATE_VALIDATED
      case ServiceStart => SERVICE_STARTED
      case SmokeTest => SMOKE_PASSED
      case RollbackStop => -1
      case Restart => -1
  }

  const UNSWAP := Rename(DATABASE, CANDIDATE)

  // A rename that puts something back, as opposed to the four of an activation.
  predicate Back(r: Rename) { r.from.base == Original || r == UNSWAP || r == Rename(DATABASE, FAILED) }

  // The last rename of an activation makes a swap, and its undo takes it away.
  function SwapChange(kind: Kind, fate: Fate): int
  {
    if fate != Done then 0 else if kind == Relocate(ACTIVATION[3]) then 1 else if kind == Relocate(UNSWAP) then -1 else 0
  }

  predicate Moves(kind: Kind, fate: Fate) { kind.Relocate? && fate == Done }

  // What a dependency that was done has shown.
  function Learned(a: Act, live: bool): set<Evidence>
    requires a.Act?
  {
    if a.turn.fate != Done || !a.kind.Ask? || PhaseOf(a.kind) < 0 then {}
    else
      {Ran(a.kind.site, live)} +
      match a.kind.site
      case LeaseProof => {LeaseProved}
      case BackupCheck => if BACKUP in a.before then {Passed(BackupRole, a.before[BACKUP])} else {}
      case CandidateCheck => if CANDIDATE in a.before then {Passed(CandidateRole, a.before[CANDIDATE])} else {}
      case Vacuum =>
        if DATABASE in a.before && CANDIDATE in Effect(a) then {Built(a.before[DATABASE], Effect(a)[CANDIDATE])} else {}
      case _ => {}
  }

  datatype Summary = Summary(
    inOrder: bool,               // every phase is beyond all others of its process and not before any other,
                                 // and no rename was done before those of the first activation
    furthest: int,               // the furthest phase so far
    now: int,                    // and of the current process
    first: Option<FileSystem>,   // the files that the first activation found
    swaps: int,                  // the activations that were completed and not undone
    onceOnly: bool,              // that number was never above one
    seen: set<Evidence>,
    backOk: bool,                // every rename back of the current process was done
    stopped: Option<FileSystem>, // the files once the current process had stopped the service for a rollback
    restarted: Option<FileSystem>) // the files on which it has started the service again

  const NO_ACT := Summary(true, -1, -1, None, 0, true, {}, true, None, None)

  // A dependency was called.
  function NotedAsk(s: Summary, site: Site, before: FileSystem, turn: Turn): Summary
  {
    var a, p := Act(Ask(site), before, turn), PhaseOf(Ask(site));
    s.(inOrder := s.inOrder && (p >= 0 ==> p >= s.furthest && p > s.now),
       furthest := if p >= 0 then Max(p, s.furthest) else s.furthest,
       now := if p >= 0 then Max(p, s.now) else s.now,
       seen := s.seen + Learned(a, s.swaps == 1),
       stopped := if site == RollbackStop then Some(Effect(a)) else s.stopped,
       restarted := if site == Restart then Some(before) else s.restarted)
  }

  // A rename was tried.
  function NotedMove(s: Summary, r: Rename, before: FileSystem, fate: Fate): Summary
  {
    var p, change, done := PhaseOf(Relocate(r)), SwapChange(Relocate(r), fate), fate == Done;
    s.(inOrder := s.inOrder && (p >= 0 ==> p >= s.furthest && p > s.now) && (done ==> s.first.Some? || r == ACTIVATION[0]),
       furthest := if p >= 0 then Max(p, s.furthest) else s.furthest,
       now := if p >= 0 then Max(p, s.now) else s.now,
       first := if s.first.None? && r == ACTIVATION[0] && done then Some(before) else s.first,
       swaps := s.swaps + change,
       onceOnly := s.onceOnly && (change != 0 ==> 0 <= s.swaps + change <= 1),
       backOk := s.backOk && (Back(r) ==> done))
  }

  function Noted(s: Summary, a: Act): Summary
  {
    match a
    case Started(_) => s.(now := -1, backOk := true, stopped := None, restarted := None)
    case Act(kind, before, turn) =>
      match kind
      case Ask(site) => NotedAsk(s, site, before, turn)
      case Relocate(r) => NotedMove(s, r, before, turn.fate)
      case _ => s
  }

  function Sum(trace: Trace): Summary
  {
    match trace
    case Nil => NO_ACT
    case Then(prior, act) => Noted(Sum(prior), act)
  }

  // ---------------------------------------------------------------- due order

  // The last act was of this kind and was done.
  predicate Did(trace: Trace, kind: Kind) { LastIs(trace, Done) && trace.act.kind == kind }

  // One act more, with this fate.
  predicate Adds(trace: Trace, earlier: Trace, kind: Kind, fate: Fate)
  {
    LastIs(trace, fate) && trace.act.kind == kind && trace.prior == earlier
  }

  // A dependency was done, and then the deadline had not passed.
  predicate InTime(trace: Trace, site: Site) { Did(trace, Check(Deadline)) && Did(trace.prior, Ask(site)) }

  // The last act found the file, with the expected content if there is one.
  predicate Found(trace: Trace, path: Path)
  {
    LastIs(trace, Done) && trace.act.kind.Compare? && trace.act.kind.path == path && !Differs(trace.act.kind, trace.act.before)
  }

  predicate FoundAs(trace: Trace, path: Path) { Found(trace, path) && trace.act.kind.expected.Some? }

  // What comes right before a phase is journaled. A process journals the phase it resumes at
  // once, an activation is journaled after its last rename was synced or both files were
  // identified, and a failure phase after what failed.
  predicate DueSave(trace: Trace, phase: Phase)
  {
    || (trace.Then? && trace.act.Started?)
    || (phase == ADMISSION_STOPPED && InTime(trace, AdmissionStop))
    || (phase == SERVICE_STOPPED && InTime(trace, ServiceStop))
    || (phase == LEASE_RELEASED && Did(trace, Ask(LeaseProof)))
    || (phase == BACKUP_CREATED && Found(trace, BACKUP) && InTime(trace.prior, BackupCopy))
    || (phase == BACKUP_VALIDATED && Did(trace, Ask(BackupCheck)))
    || (phase == RETENTION_DRAINED && InTime(trace, Drain))
    || (phase == CANDIDATE_CREATED && Found(trace, CANDIDATE) && InTime(trace.prior, Vacuum))
    || (phase == CANDIDATE_VALIDATED && Did(trace, Ask(CandidateCheck)))
    || (phase == CANDIDATE_ACTIVATED && Found(trace, ORIGINAL) && Did(trace.prior, Check(Sync)) && Did(trace.prior.prior, Relocate(ACTIVATION[3])))
    || (phase == CANDIDATE_ACTIVATED && FoundAs(trace, ORIGINAL) && FoundAs(trace.prior, DATABASE))
    || (phase == SERVICE_STARTED && InTime(trace, ServiceStart))
    || (phase == SMOKE_PASSED && InTime(trace, SmokeTest))
    || (phase == ROLLED_BACK && Did(trace, Ask(Restart)))
    || (phase == RESTART_FAILED && LastIs(trace, Broke) && trace.act.kind == Ask(Restart))
    || (phase == ROLLBACK_FAILED && LastIs(trace, Broke))
  }

  // What comes right before an act: the deadline is looked at before the service is stopped,
  // the backup is made, the source is identified for a candidate and the database is moved
  // away, which is then still the expected one.
  predicate Due(trace: Trace, kind: Kind)
  {
    match kind
    case Save(phase) => DueSave(trace, phase)
    case Ask(ServiceStop) => Did(trace, Check(Deadline))
    case Ask(BackupCopy) => Did(trace, Check(Deadline))
    case Ask(Vacuum) => Found(trace, DATABASE) && Did(trace.prior, Check(Deadline))
    case Relocate(r) => r == ACTIVATION[0] ==> Did(trace, Check(Deadline)) && FoundAs(trace.prior, DATABASE)
    case _ => true
  }

  // Every act came when it was due.
  predicate Orderly(trace: Trace)
  {
    trace.Then? ==> Orderly(trace.prior) && (trace.act.Act? ==> Due(trace.prior, trace.act.kind))
  }

  // The files are what the acts made of them, the acts after `earlier` have used the first
  // `at` turns one by one, and `sum` is their summary. Most steps of the program only pass
  // this on.
  predicate Recorded(folds: nat, earlier: Trace, turns: seq<Turn>, trace: Trace, files: FileSystem, at: nat, sum: Summary)
    decreases folds
  {
    if folds > 0 then Recorded(folds - 1, earlier, turns, trace, files, at, sum)
    else Chained(trace, files) && sum == Sum(trace) && Count(trace) == Count(earlier) + at && Aligned(earlier, turns, trace) && Orderly(trace)
  }

  lemma {:induction false} UnfoldAll(folds: nat, earlier: Trace, turns: seq<Turn>, trace: Trace, files: FileSystem, at: nat, sum: Summary)
    ensures Recorded(folds, earlier, turns, trace, files, at, sum) <==>
      Chained(trace, files) && sum == Sum(trace) && Count(trace) == Count(earlier) + at && Aligned(earlier, turns, trace) && Orderly(trace)
  {
    if folds > 0 { UnfoldAll(folds - 1, earlier, turns, trace, files, at, sum); }
  }

  lemma Unfold(earlier: Trace, turns: seq<Turn>, trace: Trace, files: FileSystem, at: nat, sum: Summary)
    ensures Recorded(FOLDS, earlier, turns, trace, files, at, sum) <==>
      Chained(trace, files) && sum == Sum(trace) && Count(trace) == Count(earlier) + at && Aligned(earlier, turns, trace) && Orderly(trace)
  {
    UnfoldAll(FOLDS, earlier, turns, trace, files, at, sum);
  }

  // One more act, which is what has just been done to the files.
  lemma RecordOne(earlier: Trace, turns: seq<Turn>, trace: Trace, files: FileSystem, at: nat, sum: Summary, kind: Kind)
    requires Recorded(FOLDS, earlier, turns, trace, files, at, sum) && Due(trace, kind)
    ensures var a := Act(kind, files, TurnAt(turns, at));
      Recorded(FOLDS, earlier, turns, Then(trace, a), Effect(a), at + 1, Noted(sum, a))
  {
    var a := Act(kind, files, TurnAt(turns, at));
    var longer, after := Then(trace, a), Effect(a);
    Unfold(earlier, turns, trace, files, at, sum);
    assert Chained(longer, after) && Sum(longer) == Noted(sum, a);
    assert Count(longer) == Count(trace) + 1 && Aligned(earlier, turns, longer) && Orderly(longer);
    Unfold(earlier, turns, longer, after, at + 1, Noted(sum, a));
  }

  // A dependency that was called.
  lemma RecordAsk(earlier: Trace, turns: seq<Turn>, trace: Trace, files: FileSystem, at: nat, sum: Summary, site: Site)
    requires Recorded(FOLDS, earlier, turns, trace, files, at, sum) && Due(trace, Ask(site))
    ensures var turn := TurnAt(turns, at);
      Recorded(FOLDS, earlier, turns, Then(trace, Act(Ask(site), files, turn)), Overlay(files, Bases(site), turn.written), at + 1, NotedAsk(sum, site, files, turn))
  {
    RecordOne(earlier, turns, trace, files, at, sum, Ask(site));
  }

  // The two calls of the handler are no phases; both are remembered.
  lemma RestartNoted(s: Summary, before: FileSystem, turn: Turn)
    ensures NotedAsk(s, Restart, before, turn) == s.(restarted := Some(before))
  {
  }

  lemma RollbackStopNoted(s: Summary, before: FileSystem, turn: Turn)
    ensures NotedAsk(s, RollbackStop, before, turn) == s.(stopped := Some(Effect(Act(Ask(RollbackStop), before, turn))))
  {
  }

  // A rename of an activation after the first is not a phase, and the last one makes the swap.
  lemma ForwardNoted(s: Summary, k: nat, before: FileSystem, fate: Fate)
    requires 1 <= k <= 3 && s.swaps == 0 && s.onceOnly && s.first.Some?
    ensures ACTIVATION[k] != ACTIVATION[0] && NotedMove(s, ACTIVATION[k], before, fate) == s.(swaps := if fate == Done && k == 3 then 1 else 0)
  {
    if k == 1 { assert ACTIVATION[k] == Rename(Path(Database, Wal), Path(Original, Wal)); }
    else if k == 2 { assert ACTIVATION[k] == Rename(Path(Database, Shm), Path(Original, Shm)); }
    else { assert ACTIVATION[k] == Rename(CANDIDATE, DATABASE); }
  }

  // A rename back tells only whether it was done, and that of the last rename takes the swap away.
  lemma BackNoted(s: Summary, r: Rename, before: FileSystem, fate: Fate)
    requires Back(r) && s.onceOnly && s.first.Some? && (r == UNSWAP ==> s.swaps == 1)
    ensures r != ACTIVATION[0]
    ensures NotedMove(s, r, before, fate) ==
      s.(backOk := s.backOk && fate == Done, swaps := if fate == Done && r == UNSWAP then 0 else s.swaps)
  {
    assert ACTIVATION[0] == Rename(DATABASE, ORIGINAL) && ACTIVATION[3] == Rename(CANDIDATE, DATABASE);
  }

  // ---------------------------------------------------------- what it says of a trace

  predicate HasPhase(a: Act) { a.Act? && PhaseOf(a.kind) >= 0 }

  // A process was started between the two points.
  predicate StartedSince(t: Trace, u: Trace) { u != t && u.Then? && (u.act.Started? || StartedSince(t, u.prior)) }

  lemma {:induction false} FurthestBounds(t: Trace, u: Trace)
    requires t.Then? && HasPhase(t.act) && Extends(u, t)
    ensures PhaseOf(t.act.kind) <= Sum(u).furthest && (StartedSince(t, u) || PhaseOf(t.act.kind) <= Sum(u).now)
  {
    if u != t { FurthestBounds(t, u.prior); }
  }

  lemma {:induction false} OnceInOrder(trace: Trace, u: Trace)
    requires Sum(trace).inOrder && Extends(trace, u)
    ensures Sum(u).inOrder
  {
    if trace != u { OnceInOrder(trace.prior, u); }
  }

  /** In such a trace the effects of the phases come in phase order, and one is repeated only by a later process. */
  lemma InOrderMeansPhaseOrder(trace: Trace, t: Trace, u: Trace)
    requires Sum(trace).inOrder && Extends(trace, u) && u.Then? && HasPhase(u.act)
    requires Extends(u.prior, t) && t.Then? && HasPhase(t.act)
    ensures PhaseOf(t.act.kind) <= PhaseOf(u.act.kind)
    ensures PhaseOf(t.act.kind) == PhaseOf(u.act.kind) ==> StartedSince(t, u.prior)
  {
    OnceInOrder(trace, u);
    FurthestBounds(t, u.prior);
  }

  // No process has renamed anything.
  predicate Untouched(trace: Trace)
  {
    trace.Then? ==> !(trace.act.Act? && Moves(trace.act.kind, trace.act.turn.fate)) && Untouched(trace.prior)
  }

  /** In such a trace without an activation nothing was renamed at all. */
  lemma {:induction false} NothingRenamed(trace: Trace)
    requires Sum(trace).inOrder && Sum(trace).first.None?
    ensures Untouched(trace)
  {
    if trace.Then? { NothingRenamed(trace.prior); }
  }

  lemma RecordedUntouched(earlier: Trace, turns: seq<Turn>, trace: Trace, files: FileSystem, at: nat, sum: Summary)
    requires Recorded(FOLDS, earlier, turns, trace, files, at, sum) && sum.inOrder && sum.first.None?
    ensures Untouched(trace)
  {
    Unfold(earlier, turns, trace, files, at, sum);
    NothingRenamed(trace);
  }

  predicate IsMove(a: Act, r: Rename) { a.Act? && a.kind == Relocate(r) && a.turn.fate == Done }

  // A swap was undone between the two points.
  predicate UndoneSince(t: Trace, u: Trace) { u != t && u.Then? && (IsMove(u.act, UNSWAP) || UndoneSince(t, u.prior)) }

  lemma {:induction false} AtMostOneSwap(trace: Trace)
    requires Sum(trace).onceOnly
    ensures 0 <= Sum(trace).swaps <= 1
  {
    if trace.Then? { AtMostOneSwap(trace.prior); }
  }

  lemma {:induction false} SwapsStay(t: Trace, u: Trace)
    requires t.Then? && IsMove(t.act, ACTIVATION[3]) && Extends(u, t) && Sum(u).onceOnly
    ensures Sum(u).swaps >= 1 || UndoneSince(t, u)
  {
    if u == t { AtMostOneSwap(t.prior); } else { SwapsStay(t, u.prior); }
  }

  lemma {:induction false} OnceOnly(trace: Trace, u: Trace)
    requires Sum(trace).onceOnly && Extends(trace, u)
    ensures Sum(u).onceOnly
  {
    if trace != u { OnceOnly(trace.prior, u); }
  }

  /** A completed activation is applied a second time only after the first was undone. */
  lemma OnceOnlyMeansOnce(trace: Trace, t: Trace, u: Trace)
    requires Sum(trace).onceOnly && Extends(trace, u) && u.Then? && IsMove(u.act, ACTIVATION[3])
    requires Extends(u.prior, t) && t.Then? && IsMove(t.act, ACTIVATION[3])
    ensures UndoneSince(t, u.prior)
  {
    OnceOnly(trace, u);
    SwapsStay(t, u.prior);
  }

  /** Every act of an orderly trace came when it was due, whichever process made it. */
  lemma {:induction false} OrderlyMeansDue(trace: Trace, u: Trace)
    requires Orderly(trace) && Extends(trace, u) && u.Then? && u.act.Act?
    ensures Due(u.prior, u.act.kind)
  {
    if trace != u { OrderlyMeansDue(trace.prior, u); }
  }

  /** What was noted of a dependency was really done, at an act of the trace. */
  lemma {:induction false} RanMeansDone(trace: Trace, site: Site, live: bool) returns (t: Trace)
    requires Ran(site, live) in Sum(trace).seen
    ensures Extends(trace, t) && Did(t, Ask(site)) && (live <==> Sum(t.prior).swaps == 1)
  {
    t := trace;
    if !(trace.act.Act? && Ran(site, live) in Learned(trace.act, Sum(trace.prior).swaps == 1)) {
      t := RanMeansDone(trace.prior, site, live);
    }
  }

  // A candidate that is in place was put there, and that was not undone.
  lemma {:induction false} SwapWasMade(trace: Trace) returns (t: Trace)
    requires Sum(trace).onceOnly && Sum(trace).swaps == 1
    ensures Extends(trace, t) && t.Then? && IsMove(t.act, ACTIVATION[3]) && !UndoneSince(t, trace)
  {
    t := trace;
    AtMostOneSwap(trace.prior);
    if !IsMove(trace.act, ACTIVATION[3]) { t := SwapWasMade(trace.prior); }
  }

  lemma {:induction false} OneComesFirst(trace: Trace, t: Trace, u: Trace)
    requires Extends(trace, t) && Extends(trace, u)
    ensures Extends(t, u) || Extends(u, t)
  {
    if trace != t && trace != u { OneComesFirst(trace.prior, t, u); }
  }

  // Of two acts with phases, the one of the earlier phase came first.
  lemma EarlierPhaseFirst(trace: Trace, t: Trace, u: Trace)
    requires Sum(trace).inOrder && Extends(trace, t) && Extends(trace, u) && t.Then? && u.Then? && HasPhase(t.act) && HasPhase(u.act)
    requires PhaseOf(t.act.kind) < PhaseOf(u.act.kind)
    ensures Extends(u.prior, t)
  {
    OneComesFirst(trace, t, u);
    if !Extends(u.prior, t) { InOrderMeansPhaseOrder(trace, u, t); }
  }

  lemma {:induction false} FirstMoveWasMade(trace: Trace) returns (t: Trace)
    requires Sum(trace).first.Some?
    ensures Extends(trace, t) && t.Then? && IsMove(t.act, ACTIVATION[0])
  {
    t := trace;
    if !IsMove(trace.act, ACTIVATION[0]) { t := FirstMoveWasMade(trace.prior); }
  }

  // In this order the service was stopped, the database moved away, the candidate put in its
  // place, which was not undone before the service was started, and the smoke test passed.
  predicate InSequence(trace: Trace, stop: Trace, move: Trace, swap: Trace, start: Trace, smoke: Trace)
  {
    && Extends(trace, smoke) && Did(smoke, Ask(SmokeTest))
    && Extends(smoke.prior, start) && Did(start, Ask(ServiceStart))
    && Extends(start.prior, swap) && Did(swap, Relocate(ACTIVATION[3])) && !UndoneSince(swap, start.prior)
    && Extends(swap.prior, move) && Did(move, Relocate(ACTIVATION[0]))
    && Extends(move.prior, stop) && Did(stop, Ask(ServiceStop))
  }

  ghost predicate Complete(trace: Trace)
  {
    exists stop, move, swap, start, smoke :: InSequence(trace, stop, move, swap, start, smoke)
  }

  lemma {:induction false} ExtendsTwice(a: Trace, b: Trace, c: Trace)
    requires Extends(a, b) && Extends(b, c)
    ensures Extends(a, c)
  {
    if a != b { ExtendsTwice(a.prior, b, c); }
  }

  // The swap that a later act found in place, and the rename that began it.
  lemma SwapBefore(trace: Trace, start: Trace) returns (move: Trace, swap: Trace)
    requires Sum(trace).inOrder && Sum(trace).onceOnly && Extends(trace, start) && start.Then? && Sum(start.prior).swaps == 1
    ensures Extends(start.prior, swap) && Did(swap, Relocate(ACTIVATION[3])) && !UndoneSince(swap, start.prior)
    ensures Extends(swap.prior, move) && Did(move, Relocate(ACTIVATION[0])) && Extends(trace, move)
  {
    ExtendsTwice(trace, start, start.prior);
    OnceOnly(trace, start.prior);
    swap := SwapWasMade(start.prior);
    ExtendsTwice(trace, start.prior, swap);
    OnceInOrder(trace, swap);
    move := FirstMoveWasMade(swap.prior);
    ExtendsTwice(trace, swap, swap.prior);
    ExtendsTwice(trace, swap.prior, move);
  }

  /** What was noted of three dependencies, in a history in phase order, makes it complete. */
  lemma NotedMeansComplete(trace: Trace)
    requires Sum(trace).inOrder && Sum(trace).onceOnly
    requires Ran(ServiceStop, false) in Sum(trace).seen && Ran(ServiceStart, true) in Sum(trace).seen && Ran(SmokeTest, true) in Sum(trace).seen
    ensures Complete(trace)
  {
    var stop := RanMeansDone(trace, ServiceStop, false);
    var start := RanMeansDone(trace, ServiceStart, true);
    var smoke := RanMeansDone(trace, SmokeTest, true);
    var move, swap := SwapBefore(trace, start);
    EarlierPhaseFirst(trace, start, smoke);
    EarlierPhaseFirst(trace, stop, move);
    assert InSequence(trace, stop, move, swap, start, smoke);
  }
}
