/**
 The files that one SQLite maintenance cycle renames, and what each prefix of a
 rename sequence leaves behind. A crash can stop a sequence after any number of
 renames, so the sequences are defined by how many of their steps were done.
 */
module MaintenanceFiles {
  import opened Common

  // Two files have the same identity exactly when their contents are equal.
  type Content = string

  datatype Base = Database | Backup | Candidate | Original | FailedCandidate
  datatype Part = Main | Wal | Shm
  datatype Path = Path(base: Base, part: Part)

  type FileSystem = map<Path, Content>

  const DATABASE := Path(Database, Main)
  const BACKUP := Path(Backup, Main)
  const CANDIDATE := Path(Candidate, Main)
  const ORIGINAL := Path(Original, Main)
  const FAILED := Path(FailedCandidate, Main)

  function At(fs: FileSystem, path: Path): Option<Content>
  {
    if path in fs then Some(fs[path]) else None
  }

  // A database and its sidecars.
  datatype Parts = Parts(main: Option<Content>, wal: Option<Content>, shm: Option<Content>)

  const NOTHING := Parts(None, None, None)

  // The files that sit beside one another under one base name.
  function Beside(fs: FileSystem, base: Base): Parts
  {
    Parts(At(fs, Path(base, Main)), At(fs, Path(base, Wal)), At(fs, Path(base, Shm)))
  }

  // An atomic rename, which replaces whatever was at the destination.
  function Move(fs: FileSystem, from: Path, to: Path): FileSystem
    requires from in fs
  {
    (fs - {from})[to := fs[from]]
  }

  datatype Rename = Rename(from: Path, to: Path)

  function Renamed(fs: FileSystem, r: Rename): FileSystem
  {
    if r.from in fs then Move(fs, r.from, r.to) else fs
  }

  // The result of the first k renames in order, each skipped when its source is missing.
  function AfterRenames(fs: FileSystem, rs: seq<Rename>, k: nat): FileSystem
    requires k <= |rs|
  {
    if k == 0 then fs else Renamed(AfterRenames(fs, rs, k - 1), rs[k - 1])
  }

  /** Renaming back undoes a rename that replaced nothing. */
  lemma RenameBack(fs: FileSystem, r: Rename)
    requires r.from in fs && r.to !in fs
    ensures Renamed(Renamed(fs, r), Rename(r.to, r.from)) == fs
  {}

  // ---------------------------------------------------------------- sequences

  // The database becomes the original, its two sidecars follow it, and the
  // candidate becomes the database.
  const ACTIVATION: seq<Rename> := [
    Rename(DATABASE, ORIGINAL),
    Rename(Path(Database, Wal), Path(Original, Wal)),
    Rename(Path(Database, Shm), Path(Original, Shm)),
    Rename(CANDIDATE, DATABASE)]

  function ActivationPrefix(fs: FileSystem, k: nat): FileSystem
    requires k <= 4
  {
    AfterRenames(fs, ACTIVATION, k)
  }

  // What the presence of the three main files says about an earlier activation.
  datatype Reading = NotStarted | Finished | Interrupted | Inconsistent

  function Read(fs: FileSystem): Reading
  {
    if DATABASE in fs && CANDIDATE in fs && ORIGINAL !in fs then NotStarted
    else if DATABASE in fs && CANDIDATE !in fs && ORIGINAL in fs then Finished
    else if DATABASE !in fs && CANDIDATE in fs && ORIGINAL in fs then Interrupted
    else Inconsistent
  }

  // How an interrupted original is put back, main file first.
  const RETURN: seq<Rename> := [
    Rename(ORIGINAL, DATABASE),
    Rename(Path(Original, Wal), Path(Database, Wal)),
    Rename(Path(Original, Shm), Path(Database, Shm))]

  function ReconcilePrefix(fs: FileSystem, j: nat): FileSystem
    requires j <= 3
  {
    if Read(fs) == Interrupted then AfterRenames(fs, RETURN, j) else fs
  }

  function Reconciled(fs: FileSystem): FileSystem { ReconcilePrefix(fs, 3) }

  // The renames of a rollback once the candidate was activated.
  const ROLLBACK: seq<Rename> := [Rename(DATABASE, FAILED)] + RETURN

  function Restored(fs: FileSystem): FileSystem { AfterRenames(fs, ROLLBACK, 4) }

  // --------------------------------------------------------------- invariants

  function OrElse(a: Option<Content>, b: Option<Content>): Option<Content> { if a.Some? then a else b }

  // The source's files, whichever of the two names each one has.
  function SourceOf(fs: FileSystem): Parts
  {
    var preserved, active := Beside(fs, Original), Beside(fs, Database);
    Parts(OrElse(preserved.main, active.main), OrElse(preserved.wal, active.wal), OrElse(preserved.shm, active.shm))
  }

  // The candidate `c` and the source's main file are each at exactly one path,
  // and no sidecar is under both names; once the candidate is the database, the
  // source's sidecars are all beside the original.
  predicate Placed(fs: FileSystem, c: Content)
  {
    && (match Read(fs)
        case NotStarted => At(fs, CANDIDATE) == Some(c)
        case Interrupted => At(fs, CANDIDATE) == Some(c)
        case Finished => Beside(fs, Database) == Parts(Some(c), None, None)
        case Inconsistent => false)
    && !(Path(Database, Wal) in fs && Path(Original, Wal) in fs)
    && !(Path(Database, Shm) in fs && Path(Original, Shm) in fs)
  }

  // Nothing of an earlier activation is left.
  predicate Home(fs: FileSystem, c: Content)
  {
    Placed(fs, c) && Read(fs) == NotStarted && Beside(fs, Original) == NOTHING
  }

  // The state of an activation after k of its renames.
  function ReadingAfter(k: nat): Reading
  {
    if k == 0 then NotStarted else if k < 4 then Interrupted else Finished
  }

  // Which sidecars are already beside the original after k renames.
  predicate MovedSoFar(fs: FileSystem, k: nat)
  {
    && (k >= 2 ==> Path(Database, Wal) !in fs)
    && (k >= 3 ==> Path(Database, Shm) !in fs)
  }

  /** Every crash point of activation keeps both main files at one path each and loses no source file. */
  lemma {:induction false} ActivationCrashKeepsFiles(fs: FileSystem, c: Content, k: nat)
    requires k <= 4 && Placed(fs, c) && Read(fs) == NotStarted
    ensures Placed(ActivationPrefix(fs, k), c)
    ensures Read(ActivationPrefix(fs, k)) == ReadingAfter(k)
    ensures SourceOf(ActivationPrefix(fs, k)) == SourceOf(fs)
    ensures MovedSoFar(ActivationPrefix(fs, k), k)
  {
    if k > 0 {
      ActivationCrashKeepsFiles(fs, c, k - 1);
    }
  }

  /** Every crash point of reconciliation does too; a finished one is not interrupted any more. */
  lemma {:induction false} ReconcileCrashKeepsFiles(fs: FileSystem, c: Content, j: nat)
    requires j <= 3 && Placed(fs, c)
    ensures Placed(ReconcilePrefix(fs, j), c)
    ensures Read(ReconcilePrefix(fs, j)) == if Read(fs) == Interrupted && j > 0 then NotStarted else Read(fs)
    ensures SourceOf(ReconcilePrefix(fs, j)) == SourceOf(fs)
    ensures Read(fs) == Interrupted ==> Beside(ReconcilePrefix(fs, j), Original) == Left(fs, j)
  {
    if Read(fs) == Interrupted && j > 0 {
      ReconcileCrashKeepsFiles(fs, c, j - 1);
    }
  }

  // What is still beside the original after j steps of putting it back.
  function Left(fs: FileSystem, j: nat): Parts
  {
    Parts(if j >= 1 then None else At(fs, ORIGINAL),
          if j >= 2 then None else At(fs, Path(Original, Wal)),
          if j >= 3 then None else At(fs, Path(Original, Shm)))
  }

  // ------------------------------------------------------------ crash histories

  // One process: it reconciles, stopped after j of 3 renames, and if nothing is
  // left to reconcile and the candidate is not active, it activates, stopped
  // after k of 4 renames. A life with j == 3 and k == 4 was not stopped.
  datatype Life = Life(j: nat, k: nat)

  predicate Legal(lives: seq<Life>) { forall i :: 0 <= i < |lives| ==> lives[i].j <= 3 && lives[i].k <= 4 }

  function AfterLife(fs: FileSystem, life: Life): FileSystem
    requires life.j <= 3 && life.k <= 4
  {
    var r := ReconcilePrefix(fs, life.j);
    if Read(r) == NotStarted && (Read(fs) == Interrupted ==> life.j == 3) then ActivationPrefix(r, life.k) else r
  }

  function AfterLives(fs: FileSystem, lives: seq<Life>): FileSystem
    requires Legal(lives)
  {
    if lives == [] then fs
    else AfterLife(AfterLives(fs, lives[..|lives| - 1]), lives[|lives| - 1])
  }

  lemma LifeKeepsFiles(fs: FileSystem, c: Content, life: Life)
    requires life.j <= 3 && life.k <= 4 && Placed(fs, c)
    ensures Placed(AfterLife(fs, life), c) && SourceOf(AfterLife(fs, life)) == SourceOf(fs)
  {
    var r := ReconcilePrefix(fs, life.j);
    ReconcileCrashKeepsFiles(fs, c, life.j);
    if Read(r) == NotStarted { ActivationCrashKeepsFiles(r, c, life.k); }
  }

  /**
   For every history of crashed lives, however many and wherever each was stopped:
   the main files are at one path each, the inconsistent branch is not taken, no
   source file is lost, and the next uninterrupted reconciliation ends in the
   layout before activation or in exactly the layout of a confirmed activation.
   */
  lemma {:induction false} EveryHistoryReconciles(fs: FileSystem, c: Content, lives: seq<Life>)
    requires Home(fs, c) && Legal(lives)
    ensures var now := AfterLives(fs, lives);
      && Placed(now, c) && SourceOf(now) == Beside(fs, Database)
      && Read(now) != Inconsistent
      && Read(Reconciled(now)) in {NotStarted, Finished}
      && (Read(now) == Finished ==> Beside(now, Database) == Parts(Some(c), None, None) && Beside(now, Original) == Beside(fs, Database))
  {
    if lives != [] {
      var earlier := lives[..|lives| - 1];
      EveryHistoryReconciles(fs, c, earlier);
      LifeKeepsFiles(AfterLives(fs, earlier), c, lives[|lives| - 1]);
    }
    ReconcileCrashKeepsFiles(AfterLives(fs, lives), c, 3);
  }

  /** A finished activation is final: no later life touches a file. */
  lemma {:induction false} FinishedIsFinal(fs: FileSystem, lives: seq<Life>)
    requires Read(fs) == Finished && Legal(lives)
    ensures AfterLives(fs, lives) == fs
  {
    if lives != [] { FinishedIsFinal(fs, lives[..|lives| - 1]); }
  }

  // The names that activation and reconciliation touch.
  predicate Touched(path: Path) { path.base in {Database, Original} || path == CANDIDATE }

  lemma {:induction false} RenamesLeaveOthersAlone(fs: FileSystem, rs: seq<Rename>, k: nat, path: Path)
    requires !Touched(path) && k <= |rs|
    requires forall i :: 0 <= i < |rs| ==> Touched(rs[i].from) && Touched(rs[i].to)
    ensures At(AfterRenames(fs, rs, k), path) == At(fs, path)
  {
    if k > 0 { RenamesLeaveOthersAlone(fs, rs, k - 1, path); }
  }

  lemma SameFiles(a: FileSystem, b: FileSystem)
    requires forall path: Path :: At(a, path) == At(b, path)
    ensures a == b
  {
    forall path: Path ensures path in a <==> path in b { assert At(a, path) == At(b, path); }
    forall path: Path | path in a ensures a[path] == b[path] { assert At(a, path) == At(b, path); }
  }

  // Two file systems with the same relevant files, reached by touching no others.
  lemma SameAfterRenames(fs: FileSystem, a: FileSystem, b: FileSystem)
    requires forall path: Path :: !Touched(path) ==> At(a, path) == At(fs, path) == At(b, path)
    requires Beside(a, Database) == Beside(b, Database) && Beside(a, Original) == Beside(b, Original)
    requires At(a, CANDIDATE) == At(b, CANDIDATE)
    ensures a == b
  {
    forall path: Path ensures At(a, path) == At(b, path) {
      match path.part
      case Main =>
      case Wal =>
      case Shm =>
    }
    SameFiles(a, b);
  }

  lemma PrefixesLeaveOthersAlone(fs: FileSystem, k: nat, j: nat)
    requires k <= 4 && j <= 3
    ensures forall path: Path :: !Touched(path) ==> At(ActivationPrefix(fs, k), path) == At(fs, path)
    ensures forall path: Path :: !Touched(path) ==> At(ReconcilePrefix(fs, j), path) == At(fs, path)
  {
    forall path: Path | !Touched(path)
      ensures At(ActivationPrefix(fs, k), path) == At(fs, path)
      ensures At(ReconcilePrefix(fs, j), path) == At(fs, path)
    {
      RenamesLeaveOthersAlone(fs, ACTIVATION, k, path);
      RenamesLeaveOthersAlone(fs, RETURN, j, path);
    }
  }

  /**
   One crash inside activation followed by one whole reconciliation puts every
   file back under the name it had, sidecars included, unless all four renames
   were done, and then changes nothing.
   */
  lemma OneCrashIsUndone(fs: FileSystem, c: Content, k: nat)
    requires Home(fs, c) && k <= 4
    ensures Reconciled(ActivationPrefix(fs, k)) == if k < 4 then fs else ActivationPrefix(fs, 4)
  {
    var crashed := ActivationPrefix(fs, k);
    ActivationCrashKeepsFiles(fs, c, k);
    ReconcileCrashKeepsFiles(crashed, c, 3);
    PrefixesLeaveOthersAlone(fs, k, 3);
    PrefixesLeaveOthersAlone(crashed, k, 3);
    if 0 < k < 4 {
      assert SourceOf(Reconciled(crashed)) == SourceOf(fs);
      SameAfterRenames(fs, Reconciled(crashed), fs);
    }
  }

  /**
   A crash inside reconciliation itself is different: the resumed process sees the
   main file back in place and returns at once, so the sidecars are back beside it
   exactly when the crash came before the first rename or left no sidecar to move.
   */
  lemma SecondCrashStrandsSidecars(fs: FileSystem, c: Content, j: nat)
    requires Placed(fs, c) && Read(fs) == Interrupted && j <= 3
    ensures Home(Reconciled(ReconcilePrefix(fs, j)), c) <==> (j == 0 || Left(fs, j) == NOTHING)
  {
    ReconcileCrashKeepsFiles(fs, c, j);
    ReconcileCrashKeepsFiles(ReconcilePrefix(fs, j), c, 3);
  }

  /** The smallest such case: a write-ahead log left beside the original, away from its database. */
  lemma StrandedSidecarExample()
    ensures var fs := map[ORIGINAL := "source", Path(Original, Wal) := "log", CANDIDATE := "compact"];
      var resumed := Reconciled(ReconcilePrefix(fs, 1));
      && Placed(fs, "compact")
      && Beside(resumed, Database) == Parts(Some("source"), None, None)
      && Beside(resumed, Original) == Parts(None, Some("log"), None)
  {
    var fs := map[ORIGINAL := "source", Path(Original, Wal) := "log", CANDIDATE := "compact"];
    assert Read(fs) == Interrupted;
    ReconcileCrashKeepsFiles(fs, "compact", 1);
  }

  /** A stranded sidecar is not lost when the cycle goes on: activation ends in the same files either way. */
  lemma StrandedActivationAgrees(fs: FileSystem, c: Content, j: nat)
    requires Placed(fs, c) && Read(fs) == Interrupted && 0 < j <= 3
    ensures ActivationPrefix(ReconcilePrefix(fs, j), 4) == ActivationPrefix(Reconciled(fs), 4)
  {
    var stranded, whole := ReconcilePrefix(fs, j), Reconciled(fs);
    ReconcileCrashKeepsFiles(fs, c, j);
    ReconcileCrashKeepsFiles(fs, c, 3);
    ActivationCrashKeepsFiles(stranded, c, 4);
    ActivationCrashKeepsFiles(whole, c, 4);
    PrefixesLeaveOthersAlone(fs, 0, j);
    PrefixesLeaveOthersAlone(fs, 0, 3);
    PrefixesLeaveOthersAlone(stranded, 4, 0);
    PrefixesLeaveOthersAlone(whole, 4, 0);
    SameAfterRenames(fs, ActivationPrefix(stranded, 4), ActivationPrefix(whole, 4));
  }

  // ---------------------------------------------------------------- in place

  // The candidate has been renamed away and the source preserved.
  predicate Swapped(fs: FileSystem) { ORIGINAL in fs && CANDIDATE !in fs }

  // The source's files, also once a service may have written beside the database.
  function Held(fs: FileSystem): Parts { if Swapped(fs) then Beside(fs, Original) else SourceOf(fs) }

  lemma HeldIsSource(fs: FileSystem, c: Content)
    requires Placed(fs, c)
    ensures Held(fs) == SourceOf(fs) && (Swapped(fs) <==> Read(fs) == Finished)
  {
  }

  /**
   The database's files are exactly the source's if and only if nothing of an activation is
   left, or the candidate took the place of a source without sidecars and of the same content.
   */
  lemma InPlaceIff(fs: FileSystem, c: Content)
    requires Placed(fs, c)
    ensures Beside(fs, Database) == SourceOf(fs) <==> Home(fs, c) || (Read(fs) == Finished && SourceOf(fs) == Parts(Some(c), None, None))
  {
  }

  /**
   Where a reconciliation that stops after j renames leaves the source: in place if it never
   left, or if it was interrupted and all of it is back.
   */
  lemma PutBackIff(fs: FileSystem, c: Content, j: nat)
    requires Placed(fs, c) && j <= 3
    ensures Beside(ReconcilePrefix(fs, j), Database) == SourceOf(fs) <==>
      match Read(fs)
      case NotStarted => Beside(fs, Original) == NOTHING
      case Interrupted => j > 0 && Left(fs, j) == NOTHING
      case _ => SourceOf(fs) == Parts(Some(c), None, None)
  {
    ReconcileCrashKeepsFiles(fs, c, j);
    InPlaceIff(ReconcilePrefix(fs, j), c);
  }

  // ----------------------------------------------------------------- rollback

  // A sidecar beside the database where the preserved original had none.
  predicate Stray(fs: FileSystem)
  {
    || (Path(Database, Wal) in fs && Path(Original, Wal) !in fs)
    || (Path(Database, Shm) in fs && Path(Original, Shm) !in fs)
  }

  lemma RollbackSteps(fs: FileSystem)
    ensures Restored(fs) == Renamed(Renamed(Renamed(Renamed(fs, ROLLBACK[0]), ROLLBACK[1]), ROLLBACK[2]), ROLLBACK[3])
  {
    assert AfterRenames(fs, ROLLBACK, 1) == Renamed(fs, ROLLBACK[0]);
    assert AfterRenames(fs, ROLLBACK, 2) == Renamed(AfterRenames(fs, ROLLBACK, 1), ROLLBACK[1]);
    assert AfterRenames(fs, ROLLBACK, 3) == Renamed(AfterRenames(fs, ROLLBACK, 2), ROLLBACK[2]);
  }

  /**
   Rollback after the service ran on the candidate, whatever it did to the
   database's own files: the database is again exactly the preserved source, if
   and only if the stopped service left no sidecar where the source had none.
   */
  lemma RestoreUndoesActivation(fs: FileSystem)
    requires ORIGINAL in fs
    ensures Beside(Restored(fs), Database) == Beside(fs, Original) <==> !Stray(fs)
    ensures DATABASE in fs ==> At(Restored(fs), FAILED) == At(fs, DATABASE)
    ensures Beside(Restored(fs), Original) == NOTHING
  {
    RollbackSteps(fs);
  }

  /** The smallest stray sidecar: the write-ahead log of the failed candidate ends up beside the restored source. */
  lemma StraySidecarExample()
    ensures var fs := map[DATABASE := "compact", Path(Database, Wal) := "log", ORIGINAL := "source"];
      && Stray(fs) && Beside(fs, Original) == Parts(Some("source"), None, None)
      && Beside(Restored(fs), Database) == Parts(Some("source"), Some("log"), None)
  {
    RollbackSteps(map[DATABASE := "compact", Path(Database, Wal) := "log", ORIGINAL := "source"]);
  }
}
