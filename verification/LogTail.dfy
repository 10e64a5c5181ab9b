/**
 Reading the end of a log through a window of bytes. The reference is the plain
 division of a whole file into lines, each with the position where it begins.
 */
module LogTail {
  import opened Common

  newtype byte = x: int | 0 <= x < 256

  type Bytes = seq<byte>

  const NEWLINE: byte := 10

  // ---------------------------------------------------------------- reference

  // The first newline at or after i, or the end.
  function LineEnd(f: Bytes, i: nat): (e: nat)
    requires i <= |f|
    ensures i <= e <= |f|
    decreases |f| - i
  {
    if i == |f| || f[i] == NEWLINE then i else LineEnd(f, i + 1)
  }

  lemma {:induction false} LineEndIsNext(f: Bytes, i: nat, k: nat)
    requires i <= |f|
    ensures LineEnd(f, i) < |f| ==> f[LineEnd(f, i)] == NEWLINE
    ensures i <= k < LineEnd(f, i) ==> f[k] != NEWLINE
    decreases |f| - i
  {
    if i < |f| && f[i] != NEWLINE { LineEndIsNext(f, i + 1, k); }
  }

  // The file's lines from the line start i on, but only those that begin at `from` or
  // later. A newline at the very end begins no further line.
  function LinesFrom(f: Bytes, i: nat, from: int): seq<Bytes>
    decreases |f| + 1 - i
  {
    if i >= |f| then []
    else
      var e := LineEnd(f, i);
      if i >= from then [f[i..e]] + LinesFrom(f, e + 1, from) else LinesFrom(f, e + 1, from)
  }

  function TailLines(f: Bytes, from: int): seq<Bytes> { LinesFrom(f, 0, from) }

  // The first line is the one that ends at e.
  lemma LinesStep(f: Bytes, i: nat, e: nat, from: int)
    requires from <= i < |f| && e == LineEnd(f, i)
    ensures LinesFrom(f, i, from) == [f[i..e]] + LinesFrom(f, e + 1, from)
  {
  }

  // ----------------------------------------------------------------- splitting

  // The pieces between newlines, as a string split gives them: one more than there are newlines.
  function Split(s: Bytes, i: nat): (pieces: seq<Bytes>)
    ensures pieces == [] <==> i > |s|
    decreases |s| + 1 - i
  {
    if i > |s| then []
    else
      var e := LineEnd(s, i);
      [s[i..e]] + Split(s, e + 1)
  }

  function WithoutEmptyLast(pieces: seq<Bytes>): seq<Bytes>
  {
    if pieces != [] && pieces[|pieces| - 1] == [] then pieces[..|pieces| - 1] else pieces
  }

  // What the reader makes of the bytes it got.
  function Pieces(window: Bytes, startsAtBoundary: bool): seq<Bytes>
  {
    WithoutEmptyLast(if startsAtBoundary then Split(window, 0) else Split(window, 0)[1..])
  }

  lemma KeepFirst(first: Bytes, later: seq<Bytes>, kept: seq<Bytes>)
    requires (later != [] || first != []) && WithoutEmptyLast(later) == kept
    ensures WithoutEmptyLast([first] + later) == [first] + kept
  {
    var all := [first] + later;
    if later != [] {
      assert all[|all| - 1] == later[|later| - 1];
      assert all[..|all| - 1] == [first] + later[..|later| - 1];
    }
  }

  lemma SplitStep(s: Bytes, i: nat, e: nat)
    requires i <= |s| && e == LineEnd(s, i)
    ensures Split(s, i) == [s[i..e]] + Split(s, e + 1)
  {
  }

  lemma {:induction false} SplitIsLines(s: Bytes, i: nat)
    ensures WithoutEmptyLast(Split(s, i)) == LinesFrom(s, i, 0)
    decreases |s| + 1 - i
  {
    if i < |s| {
      var e := LineEnd(s, i);
      SplitIsLines(s, e + 1);
      LinesStep(s, i, e, 0);
      SplitStep(s, i, e);
      KeepFirst(s[i..e], Split(s, e + 1), LinesFrom(s, e + 1, 0));
    } else if i == |s| {
      SplitStep(s, i, i);
    }
  }

  // A window's lines are the file's, from where the window starts.
  lemma {:induction false} LineEndShift(f: Bytes, w: Bytes, pos: nat, j: nat)
    requires pos <= |f| && w == f[pos..] && j <= |w|
    ensures LineEnd(w, j) + pos == LineEnd(f, pos + j)
    decreases |w| - j
  {
    if j < |w| && w[j] != NEWLINE { LineEndShift(f, w, pos, j + 1); }
  }

  lemma SliceShift(f: Bytes, w: Bytes, pos: nat, j: nat, e: nat)
    requires pos <= |f| && w == f[pos..] && j <= e <= |w|
    ensures w[j..e] == f[pos + j..pos + e]
  {
  }

  lemma {:induction false} LinesShift(f: Bytes, w: Bytes, pos: nat, j: nat)
    requires pos <= |f| && w == f[pos..]
    ensures LinesFrom(w, j, 0) == LinesFrom(f, pos + j, pos)
    decreases |w| + 1 - j
  {
    if j < |w| {
      var e := LineEnd(w, j);
      LineEndShift(f, w, pos, j);
      SliceShift(f, w, pos, j, e);
      LinesShift(f, w, pos, e + 1);
      LinesStep(w, j, e, 0);
      LinesStep(f, pos + j, pos + e, pos);
    }
  }

  predicate AtBoundary(f: Bytes, pos: nat)
    requires pos <= |f|
  {
    pos == 0 || f[pos - 1] == NEWLINE
  }

  // Where the first line at or after `pos` begins.
  function FirstStart(f: Bytes, pos: nat): nat
    requires pos <= |f|
  {
    if AtBoundary(f, pos) then pos else LineEnd(f, pos) + 1
  }

  lemma {:induction false} SameLineEnd(f: Bytes, i: nat, pos: nat)
    requires i <= |f| && i <= pos <= LineEnd(f, i)
    ensures LineEnd(f, pos) == LineEnd(f, i)
    decreases pos - i
  {
    if i < pos { SameLineEnd(f, i + 1, pos); }
  }

  lemma {:induction false} TailIsSuffix(f: Bytes, i: nat, pos: nat)
    requires i <= pos <= |f| && AtBoundary(f, i)
    ensures LinesFrom(f, i, pos) == LinesFrom(f, FirstStart(f, pos), pos)
    decreases pos - i
  {
    if i < pos {
      var e := LineEnd(f, i);
      LineEndIsNext(f, i, pos - 1);
      if e < pos { TailIsSuffix(f, e + 1, pos); } else { SameLineEnd(f, i, pos); }
    }
  }

  /** The pieces of a window are exactly the file's lines that begin inside it. */
  lemma WindowShowsItsLines(f: Bytes, pos: nat)
    requires pos <= |f|
    ensures Pieces(f[pos..], AtBoundary(f, pos)) == TailLines(f, pos)
  {
    var w := f[pos..];
    TailIsSuffix(f, 0, pos);
    if AtBoundary(f, pos) {
      SplitIsLines(w, 0);
      LinesShift(f, w, pos, 0);
    } else {
      var e := LineEnd(w, 0);
      LineEndShift(f, w, pos, 0);
      assert Split(w, 0)[1..] == Split(w, e + 1);
      SplitIsLines(w, e + 1);
      LinesShift(f, w, pos, e + 1);
    }
  }

  // ------------------------------------------------------------------- reader

  // No read comes back empty before the end.
  predicate Steady(counts: seq<nat>) { forall i :: 0 <= i < |counts| ==> counts[i] > 0 }

  // An open log whose reads may return fewer bytes than asked for.
  class LogFile {
    const bytes: Bytes
    var counts: seq<nat>

    constructor (bytes: Bytes, counts: seq<nat>)
      ensures this.bytes == bytes && this.counts == counts
    {
      this.bytes, this.counts := bytes, counts;
    }

    method ReadChunk(buffer: array<byte>, offset: nat, length: nat, position: nat) returns (count: nat)
      requires offset + length <= buffer.Length && position + length <= |bytes|
      modifies buffer, this`counts
      ensures count <= length
      ensures Steady(old(counts)) ==> Steady(counts) && (length > 0 ==> count > 0)
      ensures buffer[..offset] == old(buffer[..offset])
      ensures buffer[offset..offset + count] == bytes[position..position + count]
    {
      count := length;
      if counts != [] {
        count := Min(counts[0], length);
        ghost var pending := counts;
        counts := counts[1..];
        assert forall i :: 0 <= i < |counts| ==> counts[i] == pending[i + 1];
      }
      for k := 0 to count
        invariant Steady(old(counts)) ==> Steady(counts)
        invariant buffer[..offset] == old(buffer[..offset])
        invariant buffer[offset..offset + k] == bytes[position..position + k]
      {
        buffer[offset + k] := bytes[position + k];
        assert buffer[offset..offset + k + 1] == buffer[offset..offset + k] + [bytes[position + k]];
      }
    }
  }

  // Fills the window's buffer from its position on, read by read.
  method FillWindow(file: LogFile, buffer: array<byte>, position: nat) returns (bytesRead: nat)
    requires position + buffer.Length == |file.bytes|
    modifies file`counts, buffer
    ensures bytesRead <= buffer.Length && buffer[..bytesRead] == file.bytes[position..position + bytesRead]
    ensures Steady(old(file.counts)) ==> Steady(file.counts) && bytesRead == buffer.Length
  {
    bytesRead := 0;
    while bytesRead < buffer.Length
      invariant bytesRead <= buffer.Length
      invariant Steady(old(file.counts)) ==> Steady(file.counts)
      invariant buffer[..bytesRead] == file.bytes[position..position + bytesRead]
    {
      var count := file.ReadChunk(buffer, bytesRead, buffer.Length - bytesRead, position + bytesRead);
      if count == 0 { break; }
      assert buffer[..bytesRead + count] == buffer[..bytesRead] + buffer[bytesRead..bytesRead + count];
      assert file.bytes[position..position + bytesRead + count] == file.bytes[position..position + bytesRead] + file.bytes[position + bytesRead..position + bytesRead + count];
      bytesRead := bytesRead + count;
    }
  }

  // Whether the byte before the window ends a line.
  method StartsAtBoundary(file: LogFile, position: nat) returns (boundary: bool)
    requires position <= |file.bytes|
    modifies file`counts
    ensures Steady(old(file.counts)) ==> Steady(file.counts) && boundary == AtBoundary(file.bytes, position)
  {
    if position == 0 { return true; }
    var preceding := new byte[1](_ => 0);
    var count := file.ReadChunk(preceding, 0, 1, position - 1);
    if count == 1 { assert preceding[0..1][0] == file.bytes[position - 1..position][0]; }
    boundary := count == 1 && preceding[0] == NEWLINE;
  }

  // The lines of the bytes that were read, without the first part of a line and the end after the last newline.
  method WholeLines(window: Bytes, startsAtBoundary: bool) returns (lines: seq<Bytes>)
    ensures lines == Pieces(window, startsAtBoundary)
  {
    lines := Split(window, 0);
    if !startsAtBoundary { lines := lines[1..]; }
    if lines != [] && lines[|lines| - 1] == [] { lines := lines[..|lines| - 1]; }
  }

  /** With steady reads the reader returns exactly the lines that begin in the final window. */
  method ReadLogTail(file: LogFile, maxBytes: nat) returns (lines: seq<Bytes>, bytesRead: nat)
    modifies file`counts
    ensures bytesRead <= Min(|file.bytes|, maxBytes)
    ensures Steady(old(file.counts)) ==> Steady(file.counts) && bytesRead == Min(|file.bytes|, maxBytes)
    ensures Steady(old(file.counts)) ==> lines == TailLines(file.bytes, |file.bytes| - bytesRead)
  {
    var size := |file.bytes|;
    var length := Min(size, maxBytes);
    var position := size - length;
    var buffer := new byte[length](_ => 0);
    bytesRead := FillWindow(file, buffer, position);
    var startsAtBoundary := StartsAtBoundary(file, position);
    lines := WholeLines(buffer[..bytesRead], startsAtBoundary);
    if Steady(old(file.counts)) {
      assert buffer[..bytesRead] == file.bytes[position..];
      WindowShowsItsLines(file.bytes, position);
    }
  }

  // ------------------------------------------------------------------- printer

  function Size(file: Option<Bytes>): nat { if file.Some? then |file.value| else 0 }

  // What a budget gets from one file; a file that is missing is passed over.
  function Share(file: Option<Bytes>, budget: nat): seq<Bytes>
  {
    if budget == 0 || file.None? then [] else TailLines(file.value, |file.value| - Min(|file.value|, budget))
  }

  // The lines of the first n files before those in `chunks`, with one budget spent on the newest first.
  function Collected(files: seq<Option<Bytes>>, n: nat, budget: nat, chunks: seq<Bytes>): seq<Bytes>
    requires n <= |files|
  {
    if n == 0 then chunks
    else Collected(files, n - 1, budget - Min(Size(files[n - 1]), budget), Share(files[n - 1], budget) + chunks)
  }

  // The number of bytes in the files after the first n.
  function Newer(files: seq<Option<Bytes>>, n: nat): nat
    requires n <= |files|
    decreases |files| - n
  {
    if n == |files| then 0 else Size(files[n]) + Newer(files, n + 1)
  }

  // The lines of one file that begin no further than `budget` bytes from the end of
  // everything, when `newer` bytes follow the file.
  function NearEnd(file: Option<Bytes>, newer: nat, budget: nat): seq<Bytes>
  {
    if file.None? then [] else TailLines(file.value, |file.value| + newer - budget)
  }

  // Those lines for the first n files, each counted over all the files after it.
  function Near(files: seq<Option<Bytes>>, n: nat, budget: nat): seq<Bytes>
    requires n <= |files|
  {
    if n == 0 then [] else Near(files, n - 1, budget) + NearEnd(files[n - 1], Newer(files, n), budget)
  }

  lemma {:induction false} NoneBegin(f: Bytes, i: nat, from: int)
    requires from >= |f|
    ensures LinesFrom(f, i, from) == []
    decreases |f| + 1 - i
  {
    if i < |f| { NoneBegin(f, LineEnd(f, i) + 1, from); }
  }

  lemma {:induction false} AllBegin(f: Bytes, i: nat, a: int, b: int)
    requires a <= i && b <= i
    ensures LinesFrom(f, i, a) == LinesFrom(f, i, b)
    decreases |f| + 1 - i
  {
    if i < |f| { AllBegin(f, LineEnd(f, i) + 1, a, b); }
  }

  lemma OneFileShare(file: Option<Bytes>, newer: nat, budget: nat)
    ensures Share(file, Max(0, budget - newer)) == NearEnd(file, newer, budget)
  {
    if file.Some? {
      var f := file.value;
      if budget <= newer {
        NoneBegin(f, 0, |f| + newer - budget);
      } else if |f| <= budget - newer {
        AllBegin(f, 0, 0, |f| + newer - budget);
      }
    }
  }

  /** Spending the budget file by file shows the lines that a single window over all files would. */
  lemma {:induction false} BudgetIsOneWindow(files: seq<Option<Bytes>>, n: nat, budget: nat, chunks: seq<Bytes>)
    requires n <= |files|
    ensures Collected(files, n, Max(0, budget - Newer(files, n)), chunks) == Near(files, n, budget) + chunks
  {
    if n > 0 {
      var own := NearEnd(files[n - 1], Newer(files, n), budget);
      var left := Max(0, budget - Newer(files, n));
      OneFileShare(files[n - 1], Newer(files, n), budget);
      assert Max(0, budget - Newer(files, n - 1)) == left - Min(Size(files[n - 1]), left);
      BudgetIsOneWindow(files, n - 1, budget, own + chunks);
      Regroup(Near(files, n - 1, budget), own, chunks);
    }
  }

  function Matching(lines: seq<Bytes>, matches: Bytes -> bool): seq<Bytes>
  {
    if lines == [] then []
    else
      var last := |lines| - 1;
      Matching(lines[..last], matches) + if matches(lines[last]) then [lines[last]] else []
  }

  /** Every line is kept or left out for itself, between what is kept of the lines before it and after it. */
  lemma {:induction false} MatchingAt(before: seq<Bytes>, line: Bytes, after: seq<Bytes>, matches: Bytes -> bool)
    ensures Matching(before + [line] + after, matches) ==
      Matching(before, matches) + (if matches(line) then [line] else []) + Matching(after, matches)
  {
    var all := before + [line] + after;
    if after == [] {
      assert all[..|all| - 1] == before;
    } else {
      var earlier := after[..|after| - 1];
      assert all[..|all| - 1] == before + [line] + earlier && all[|all| - 1] == after[|after| - 1];
      MatchingAt(before, line, earlier, matches);
    }
  }

  function LastOf(lines: seq<Bytes>, n: nat): (r: seq<Bytes>)
    ensures |r| == Min(n, |lines|) && r == lines[|lines| - |r|..]
  {
    if n < |lines| then lines[|lines| - n..] else lines
  }

  function Content(file: LogFile?): Option<Bytes> { if file == null then None else Some(file.bytes) }

  function Contents(files: seq<LogFile?>): seq<Option<Bytes>>
  {
    seq(|files|, i requires 0 <= i < |files| => Content(files[i]))
  }

  // A setting, if it is given and within its bounds.
  function Bounded(value: Option<int>, fallback: int, minimum: int, maximum: int): Option<int>
  {
    var result := if value.Some? then value.value else fallback;
    if minimum <= result <= maximum then Some(result) else None
  }

  // A log that is missing, or that comes after the budget is spent, gives nothing.
  method ReadShare(file: LogFile?, ghost content: Option<Bytes>, budget: nat) returns (tail: seq<Bytes>, bytesRead: nat)
    requires content == Content(file)
    requires file != null ==> Steady(file.counts)
    modifies if file == null then {} else {file}
    ensures file != null ==> Steady(file.counts)
    ensures bytesRead == Min(Size(content), budget) && tail == Share(content, budget)
  {
    tail, bytesRead := [], 0;
    if budget != 0 && file != null {
      tail, bytesRead := ReadLogTail(file, budget);
    }
  }

  // Reads the logs from the newest back, which are given oldest first, and reads no more
  // window bytes than the budget.
  method CollectLogs(files: seq<LogFile?>, ghost contents: seq<Option<Bytes>>, budget: nat)
    returns (chunks: seq<Bytes>, windowBytes: nat)
    requires |contents| == |files| && forall i :: 0 <= i < |files| ==> contents[i] == Content(files[i])
    requires forall i :: 0 <= i < |files| && files[i] != null ==> Steady(files[i].counts)
    modifies set i | 0 <= i < |files| && files[i] != null :: files[i]
    ensures windowBytes <= budget
    ensures chunks == Collected(contents, |files|, budget, [])
  {
    var remainingBytes: nat;
    remainingBytes, windowBytes, chunks := budget, 0, [];
    ghost var all := Collected(contents, |files|, budget, []);
    var i := |files|;
    while i > 0
      invariant 0 <= i <= |files| && windowBytes + remainingBytes == budget
      invariant forall k :: 0 <= k < |files| && files[k] != null ==> Steady(files[k].counts)
      invariant all == Collected(contents, i, remainingBytes, chunks)
    {
      i := i - 1;
      CollectedStep(contents, i, remainingBytes, chunks);
      var tail, bytesRead := ReadShare(files[i], contents[i], remainingBytes);
      remainingBytes, windowBytes := remainingBytes - bytesRead, windowBytes + bytesRead;
      chunks := tail + chunks;
    }
  }

  lemma CollectedStep(files: seq<Option<Bytes>>, i: nat, budget: nat, chunks: seq<Bytes>)
    requires i < |files|
    ensures Collected(files, i + 1, budget, chunks) == Collected(files, i, budget - Min(Size(files[i]), budget), Share(files[i], budget) + chunks)
  {
  }

  lemma CollectedIsNear(files: seq<Option<Bytes>>, budget: nat)
    ensures Collected(files, |files|, budget, []) == Near(files, |files|, budget)
  {
    BudgetIsOneWindow(files, |files|, budget, []);
    assert Near(files, |files|, budget) + [] == Near(files, |files|, budget);
  }

  lemma Regroup(a: seq<Bytes>, b: seq<Bytes>, c: seq<Bytes>)
    ensures (a + b) + c == a + (b + c)
  {
  }

  /**
   Prints the last of the matching lines that begin within the byte limit from the end
   of the logs taken together, oldest first. The logs are given oldest first with the
   current one last.
   */
  method PrintLogs(files: seq<LogFile?>, lines: Option<int>, maxBytes: Option<int>, matches: Bytes -> bool)
    returns (printed: Option<seq<Bytes>>, windowBytes: nat)
    requires files != [] && forall i :: 0 <= i < |files| && files[i] != null ==> Steady(files[i].counts)
    modifies set i | 0 <= i < |files| && files[i] != null :: files[i]
    ensures printed.None? <==> files[|files| - 1] == null || Bounded(lines, 100, 1, 100_000).None? || Bounded(maxBytes, 1024 * 1024, 1, 64 * 1024 * 1024).None?
    ensures printed.Some? ==>
      var byteLimit := Bounded(maxBytes, 1024 * 1024, 1, 64 * 1024 * 1024).value;
      && windowBytes <= byteLimit
      && var found := Matching(Near(Contents(files), |files|, byteLimit), matches);
      && |printed.value| == Min(Bounded(lines, 100, 1, 100_000).value, |found|)
      && printed.value == found[|found| - |printed.value|..]
  {
    if files[|files| - 1] == null { return None, 0; }
    var linesLimit, byteLimit := Bounded(lines, 100, 1, 100_000), Bounded(maxBytes, 1024 * 1024, 1, 64 * 1024 * 1024);
    if linesLimit.None? || byteLimit.None? { return None, 0; }
    ghost var contents := Contents(files);
    var chunks: seq<Bytes>;
    chunks, windowBytes := CollectLogs(files, contents, byteLimit.value);
    CollectedIsNear(contents, byteLimit.value);
    printed := Some(LastOf(Matching(chunks, matches), linesLimit.value));
  }
}
