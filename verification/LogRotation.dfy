/** Rotating the service log by renames, with a list of the renames to undo. */
module LogRotation {
  import opened Common

  datatype LogPath = Current | Rotated | Pending

  type Logs = map<LogPath, string>

  datatype Rename = Rename(from: LogPath, to: LogPath)

  const ROTATION_SIZE := 16 * 1024 * 1024

  function Moved(logs: Logs, r: Rename): Logs
    requires r.from in logs
  {
    (logs - {r.from})[r.to := logs[r.from]]
  }

  // The renames of a rotation: an older rotated log is displaced first.
  function Renames(logs: Logs): seq<Rename>
  {
    if Rotated in logs then [Rename(Rotated, Pending), Rename(Current, Rotated)] else [Rename(Current, Rotated)]
  }

  predicate Rotatable(logs: Logs) { Current in logs && Pending !in logs }

  // The logs after the first n renames; none of them replaces anything.
  function After(was: Logs, n: nat): (now: Logs)
    requires Rotatable(was) && n <= |Renames(was)|
    ensures n < |Renames(was)| ==> Renames(was)[n].from in now && Renames(was)[n].to !in now
    ensures n > 0 ==> Renames(was)[n - 1].to in now && Renames(was)[n - 1].from !in now
    ensures now == was <==> n == 0
  {
    if n == 0 then was else Moved(After(was, n - 1), Renames(was)[n - 1])
  }

  // Those logs, or with the replacement already created after the last rename.
  predicate Stopped(was: Logs, n: nat, now: Logs)
    requires Rotatable(was) && n <= |Renames(was)|
  {
    now == After(was, n) || (n == |Renames(was)| && now == After(was, n)[Current := ""])
  }

  /** Renaming the last one back gives the logs before it, and replaces a log created since. */
  lemma UndoLast(was: Logs, n: nat, now: Logs)
    requires Rotatable(was) && 0 < n <= |Renames(was)| && Stopped(was, n, now)
    ensures var r := Renames(was)[n - 1];
      r.to in now && Moved(now, Rename(r.to, r.from)) == After(was, n - 1)
  {
    var r := Renames(was)[n - 1];
    var before, back := After(was, n - 1), Moved(now, Rename(r.to, r.from));
    forall p: LogPath ensures (p in back <==> p in before) && (p in back ==> back[p] == before[p]) {}
  }

  // After all renames only the creation and the removal of the displaced log are left to do.
  lemma AllMoved(was: Logs)
    requires Rotatable(was)
    ensures var now := After(was, |Renames(was)|);
      && (Pending in now <==> Rotated in was)
      && now[Current := ""] - {Pending} == map[Current := "", Rotated := was[Current]]
      && (Rotated !in was ==> now[Current := ""] == map[Current := "", Rotated := was[Current]])
  {
    var now, expected := After(was, |Renames(was)|), map[Current := "", Rotated := was[Current]];
    if Rotated in was { assert now == Moved(After(was, 1), Rename(Current, Rotated)); } else { assert now == Moved(After(was, 0), Rename(Current, Rotated)); }
    var ended := now[Current := ""] - {Pending};
    forall p: LogPath ensures (p in ended <==> p in expected) && (p in ended ==> ended[p] == expected[p]) {
      match p
      case Current =>
      case Rotated =>
      case Pending =>
    }
    assert Rotated !in was ==> now[Current := ""] == ended;
  }

  // While a rename is not undone, the logs differ from what they were.
  lemma StillMoved(was: Logs, n: nat, now: Logs)
    requires Rotatable(was) && 0 < n <= |Renames(was)| && Stopped(was, n, now)
    ensures now != was
  {
    if now != After(was, n) {
      assert Renames(was)[n - 1] == Rename(Current, Rotated);
      if Rotated in was { assert Pending in After(was, 1) && Pending in After(was, 2); }
    }
  }

  // --------------------------------------------------------------------- fates

  // How one effect ends; a creation can also fail after the file was made.
  datatype Fate = Done | Broke | BrokeAfter

  // The fates still to come; an effect beyond the last one is done.
  function FateAt(fates: seq<Fate>, i: nat): Fate { if i < |fates| then fates[i] else Done }

  function Dropped(fates: seq<Fate>, n: nat): (rest: seq<Fate>)
    ensures forall i: nat :: FateAt(rest, i) == FateAt(fates, n + i)
  {
    if n <= |fates| then fates[n..] else []
  }

  lemma DropTwice(fates: seq<Fate>, a: nat, b: nat)
    ensures Dropped(Dropped(fates, a), b) == Dropped(fates, a + b)
  {
  }

  // The renames, the creation and, if an older log was displaced, its removal.
  function Effects(logs: Logs): nat { if Rotated in logs then 4 else 2 }

  predicate AllDone(fates: seq<Fate>, n: nat) { n == 0 || (AllDone(fates, n - 1) && FateAt(fates, n - 1) == Done) }

  lemma {:induction false} EachDone(fates: seq<Fate>, i: nat, n: nat)
    requires AllDone(fates, n) && i < n
    ensures FateAt(fates, i) == Done
  {
    if i < n - 1 { EachDone(fates, i, n - 1); }
  }

  // Which of the first n effects is the first that is not done, or n.
  function FirstBad(fates: seq<Fate>, n: nat): (k: nat)
    ensures k <= n && AllDone(fates, k) && (k < n ==> FateAt(fates, k) != Done)
  {
    if n == 0 then 0
    else
      var k := FirstBad(fates, n - 1);
      if k == n - 1 && FateAt(fates, k) == Done then n else k
  }

  lemma FirstBadIs(fates: seq<Fate>, k: nat, n: nat)
    requires AllDone(fates, k) && k <= n && (k < n ==> FateAt(fates, k) != Done)
    ensures FirstBad(fates, n) == k
  {
    var first := FirstBad(fates, n);
    if first < k { EachDone(fates, first, k); }
    if k < first { EachDone(fates, k, first); }
  }

  // Whether a failed rotation is undone: every rename made before the failure goes back.
  predicate Undone(logs: Logs, fates: seq<Fate>)
  {
    var k := FirstBad(fates, Effects(logs));
    AllDone(Dropped(fates, k + 1), Min(k, |Renames(logs)|))
  }

  predicate AtMostOneBad(fates: seq<Fate>)
  {
    forall i, j :: 0 <= i < j < |fates| ==> fates[i] == Done || fates[j] == Done
  }

  lemma {:induction false} DoneAfter(fates: seq<Fate>, k: nat, n: nat)
    requires AtMostOneBad(fates) && FateAt(fates, k) != Done
    ensures AllDone(Dropped(fates, k + 1), n)
  {
    if n > 0 { DoneAfter(fates, k, n - 1); }
  }

  // The creation fails and so does the second rename back.
  const TWO_FAILURES: seq<Fate> := [Done, Done, Broke, Done, Broke]

  lemma TwoFailuresDisplace(logs: Logs)
    requires Rotated in logs
    ensures FirstBad(TWO_FAILURES, Effects(logs)) == 2 && !Undone(logs, TWO_FAILURES)
  {
    assert AllDone(TWO_FAILURES, 1);
    FirstBadIs(TWO_FAILURES, 2, 4);
    assert FateAt(Dropped(TWO_FAILURES, 3), 1) == Broke;
    assert !AllDone(Dropped(TWO_FAILURES, 3), 2);
  }

  // ------------------------------------------------------------------ rotation

  datatype Outcome = TooSmall | Refused | RotatedLog | Failed

  class LogDirectory {
    var logs: Logs
    var fates: seq<Fate>

    constructor (logs: Logs, fates: seq<Fate>)
      ensures this.logs == logs && this.fates == fates
    {
      this.logs, this.fates := logs, fates;
    }

    method Draw() returns (fate: Fate)
      modifies this`fates
      ensures fate == FateAt(old(fates), 0) && fates == Dropped(old(fates), 1)
    {
      if fates == [] {
        fate := Done;
      } else {
        fate, fates := fates[0], fates[1..];
      }
    }

    method RenameFile(r: Rename) returns (ok: bool)
      requires r.from in logs
      modifies this`logs, this`fates
      ensures fates == Dropped(old(fates), 1) && (ok <==> FateAt(old(fates), 0) == Done)
      ensures logs == if ok then Moved(old(logs), r) else old(logs)
    {
      var fate := Draw();
      ok := fate == Done;
      if ok { logs := Moved(logs, r); }
    }

    // Creates the file, which must not exist; a failure may come after the creation.
    method CreateCurrent() returns (ok: bool)
      requires Current !in logs
      modifies this`logs, this`fates
      ensures fates == Dropped(old(fates), 1) && (ok <==> FateAt(old(fates), 0) == Done)
      ensures logs == if FateAt(old(fates), 0) == Broke then old(logs) else old(logs)[Current := ""]
    {
      var fate := Draw();
      if fate != Broke { logs := logs[Current := ""]; }
      ok := fate == Done;
    }

    method Unlink(path: LogPath) returns (ok: bool)
      modifies this`logs, this`fates
      ensures fates == Dropped(old(fates), 1) && (ok <==> FateAt(old(fates), 0) == Done)
      ensures logs == if ok then old(logs) - {path} else old(logs)
    {
      var fate := Draw();
      ok := fate == Done;
      if ok { logs := logs - {path}; }
    }

    // Moves the older rotated log out of the way, if there is one, and the current log after it.
    method Displace() returns (ok: bool, completed: seq<Rename>)
      requires Rotatable(logs)
      modifies this`logs, this`fates
      ensures |completed| <= |Renames(old(logs))| && completed == Renames(old(logs))[..|completed|]
      ensures logs == After(old(logs), |completed|) && AllDone(old(fates), |completed|)
      ensures ok <==> |completed| == |Renames(old(logs))|
      ensures !ok ==> FateAt(old(fates), |completed|) != Done
      ensures fates == Dropped(old(fates), if ok then |completed| else |completed| + 1)
    {
      completed := [];
      if Rotated in logs {
        var r := Rename(Rotated, Pending);
        ok := RenameFile(r);
        if !ok { return; }
        completed := [r];
        DropTwice(old(fates), 1, 1);
      }
      var r := Rename(Current, Rotated);
      ok := RenameFile(r);
      if !ok { return; }
      completed := completed + [r];
    }

    // The guarded part: the list says which renames were done when it stops.
    method MoveLogs() returns (ok: bool, completed: seq<Rename>)
      requires Rotatable(logs)
      modifies this`logs, this`fates
      ensures |completed| <= |Renames(old(logs))| && completed == Renames(old(logs))[..|completed|]
      ensures var k := FirstBad(old(fates), Effects(old(logs)));
        && (ok <==> k == Effects(old(logs))) && |completed| == Min(k, |Renames(old(logs))|)
        && (!ok ==> fates == Dropped(old(fates), k + 1))
      ensures if ok then logs == map[Current := "", Rotated := old(logs)[Current]]
        else Stopped(old(logs), |completed|, logs)
    {
      AllMoved(logs);
      ok, completed := Displace();
      ghost var n := |completed|;
      if !ok { FirstBadIs(old(fates), n, Effects(old(logs))); return; }
      ok := CreateCurrent();
      DropTwice(old(fates), n, 1);
      if !ok { FirstBadIs(old(fates), n, Effects(old(logs))); return; }
      if Pending in logs {
        ok := Unlink(Pending);
        DropTwice(old(fates), n + 1, 1);
        if !ok { FirstBadIs(old(fates), n + 1, Effects(old(logs))); return; }
      }
      FirstBadIs(old(fates), Effects(old(logs)), Effects(old(logs)));
    }

    // Renames back what was renamed, last first, and gives up on the first that fails.
    method Undo(completed: seq<Rename>, ghost was: Logs) returns (ok: bool)
      requires Rotatable(was) && |completed| <= |Renames(was)| && completed == Renames(was)[..|completed|]
      requires Stopped(was, |completed|, logs)
      modifies this`logs, this`fates
      ensures ok <==> AllDone(old(fates), |completed|)
      ensures logs == was <==> ok
    {
      var left := |completed|;
      assert fates == Dropped(old(fates), 0);
      while left > 0
        invariant 0 <= left <= |completed| && Stopped(was, left, logs)
        invariant fates == Dropped(old(fates), |completed| - left) && AllDone(old(fates), |completed| - left)
      {
        var r := completed[left - 1];
        ghost var n := |completed| - left;
        UndoLast(was, left, logs);
        if r.to in logs {
          StillMoved(was, left, logs);
          ok := RenameFile(Rename(r.to, r.from));
          if !ok {
            if AllDone(old(fates), |completed|) { EachDone(old(fates), n, |completed|); }
            return;
          }
          DropTwice(old(fates), n, 1);
        }
        left := left - 1;
      }
      ok := true;
    }

    /**
     Rotation happens whole, or the failure is followed by the undo. Every log is then as
     it was if and only if each rename made before the failure could be renamed back, and
     that is so whenever no second effect fails. Which effects fail is given beforehand.
     */
    method RotateLogs() returns (r: Outcome)
      modifies this`logs, this`fates
      ensures r == TooSmall <==> Current in old(logs) && |old(logs)[Current]| <= ROTATION_SIZE
      ensures r == Refused <==> Current !in old(logs) || (r != TooSmall && Pending in old(logs))
      ensures r in {TooSmall, Refused} ==> logs == old(logs)
      ensures r in {RotatedLog, Failed} ==> (r == RotatedLog <==> FirstBad(old(fates), Effects(old(logs))) == Effects(old(logs)))
      ensures r == RotatedLog ==> logs == map[Current := "", Rotated := old(logs)[Current]]
      ensures r == Failed ==> (logs == old(logs) <==> Undone(old(logs), old(fates)))
      ensures AtMostOneBad(old(fates)) ==> r == RotatedLog || logs == old(logs)
    {
      if Current !in logs { return Refused; }
      if |logs[Current]| <= ROTATION_SIZE { return TooSmall; }
      if Pending in logs { return Refused; }
      var ok, completed := MoveLogs();
      if ok { return RotatedLog; }
      ok := Undo(completed, old(logs));
      if AtMostOneBad(old(fates)) { DoneAfter(old(fates), FirstBad(old(fates), Effects(old(logs))), |completed|); }
      return Failed;
    }
  }

  /** With these two failures every rotation that displaces an older log fails and leaves the logs changed. */
  method DisplacedExample(logs: Logs) returns (r: Outcome, now: Logs)
    requires Rotatable(logs) && Rotated in logs && |logs[Current]| > ROTATION_SIZE
    ensures r == Failed && now != logs
  {
    var directory := new LogDirectory(logs, TWO_FAILURES);
    TwoFailuresDisplace(logs);
    r := directory.RotateLogs();
    now := directory.logs;
  }

  /** There is such a directory. */
  method DisplacedLog() returns (logs: Logs, r: Outcome, now: Logs)
    ensures r == Failed && now != logs
  {
    logs := map[Current := seq(ROTATION_SIZE + 1, _ => 'x'), Rotated := "old"];
    r, now := DisplacedExample(logs);
  }
}
