/** The tail reader of `File_Stream_Thread`: `log_lines` hands the open log file to `logtail`, which
    seeks to its end and then polls `readline`, emitting every non-empty read. The file is a
    growing sequence of characters with a read position. */
module Tail {
  import opened Wrappers
  import opened Strings

  const Newline: char := '\n'

  /** A piece `readline` can return: non-empty, with a newline at most as its last character. */
  predicate IsLinePiece(l: string)
  {
    |l| > 0 && forall k :: 0 <= k < |l| - 1 ==> l[k] != Newline
  }

  /** Where `readline()` stops when the read position is `pos`: just past the next newline, or
      at the end of the data when no newline follows. */
  function LineEnd(data: string, pos: nat): (end: nat)
    requires pos <= |data|
    ensures pos <= end <= |data|
    ensures end == pos <==> pos == |data|
    ensures forall k :: pos <= k < end - 1 ==> data[k] != Newline
    ensures end > pos && data[end - 1] != Newline ==> end == |data|
    decreases |data| - pos
  {
    if pos == |data| then pos
    else if data[pos] == Newline then pos + 1
    else LineEnd(data, pos + 1)
  }

  /** What `readline()` returns with the read position at `pos`: the characters up to and
      including the next newline, or up to the end of the data when no newline follows; `""`
      exactly when nothing is left to read. */
  function NextLine(data: string, pos: nat): (line: string)
    requires pos <= |data|
    ensures pos + |line| <= |data| && data[pos..pos + |line|] == line
    ensures line == [] <==> pos == |data|
    ensures line != [] ==> IsLinePiece(line)
    ensures line != [] && line[|line| - 1] != Newline ==> pos + |line| == |data|
  {
    data[pos..LineEnd(data, pos)]
  }

  /** `LineEnd` is the only stopping point with its two properties: a newline right before it and
      none earlier, or the end of the data. */
  lemma LineEndUnique(data: string, pos: nat, end: nat)
    requires pos < end <= |data|
    requires forall k :: pos <= k < end - 1 ==> data[k] != Newline
    requires data[end - 1] == Newline || end == |data|
    ensures LineEnd(data, pos) == end
  {
  }

  /** A line appended after `prefix`, and followed by anything, is read whole. */
  lemma WholeLine(data: string, prefix: string, body: string, rest: string)
    requires Newline !in body && data == prefix + (body + [Newline]) + rest
    ensures LineEnd(data, |prefix|) == |prefix| + |body| + 1
    ensures NextLine(data, |prefix|) == body + [Newline]
  {
    assert data[|prefix|..|prefix| + |body| + 1] == body + [Newline];
    LineAt(data, |prefix|, body);
  }

  /** `WholeLine` for a line at `pos` of `data`. */
  lemma LineAt(data: string, pos: nat, body: string)
    requires Newline !in body && pos + |body| + 1 <= |data|
    requires data[pos..pos + |body| + 1] == body + [Newline]
    ensures LineEnd(data, pos) == pos + |body| + 1
    ensures NextLine(data, pos) == body + [Newline]
  {
    var e := pos + |body| + 1;
    forall k | pos <= k < e - 1 ensures data[k] != Newline {
      assert data[k] == data[pos..e][k - pos] == body[k - pos];
      assert body[k - pos] in body;
    }
    assert data[e - 1] == data[pos..e][|body|];
    LineEndUnique(data, pos, e);
  }

  /** What one read contributes to the yielded lines: nothing for an empty read. */
  function Yield(line: string): (ys: seq<string>)
    ensures line == [] ==> ys == []
    ensures line != [] ==> ys == [line]
  {
    if line == [] then [] else [line]
  }

  /** The lines `logtail` yields in `polls` turns of its loop over unchanging `data`, starting at
      `pos`. */
  function Polls(data: string, pos: nat, polls: nat): seq<string>
    requires pos <= |data|
    decreases polls
  {
    if polls == 0 then [] else Yield(NextLine(data, pos)) + Polls(data, LineEnd(data, pos), polls - 1)
  }

  /** Where the read position stands after `polls` turns of the loop from `pos`. */
  function PollsEnd(data: string, pos: nat, polls: nat): (end: nat)
    requires pos <= |data|
    ensures pos <= end <= |data|
    decreases polls
  {
    if polls == 0 then pos else PollsEnd(data, LineEnd(data, pos), polls - 1)
  }

  /** The yielded lines spell exactly the data read, in order. */
  lemma {:induction false} PollsRead(data: string, pos: nat, polls: nat)
    requires pos <= |data|
    ensures Concat(Polls(data, pos, polls)) == data[pos..PollsEnd(data, pos, polls)]
    decreases polls
  {
    if polls > 0 {
      var line := NextLine(data, pos);
      var next := LineEnd(data, pos);
      var rest := Polls(data, next, polls - 1);
      var end := PollsEnd(data, next, polls - 1);
      assert Polls(data, pos, polls) == Yield(line) + rest;
      assert PollsEnd(data, pos, polls) == end;
      PollsRead(data, next, polls - 1);
      ConcatSlices(data, pos, next, end, Yield(line), rest);
    }
  }

  /** Pieces spelling two adjacent slices spell their union. */
  lemma ConcatSlices(data: string, i: nat, j: nat, k: nat, first: seq<string>, rest: seq<string>)
    requires i <= j <= k <= |data|
    requires Concat(first) == data[i..j] && Concat(rest) == data[j..k]
    ensures Concat(first + rest) == data[i..k]
  {
    ConcatAppend(first, rest);
    assert data[i..k] == data[i..j] + data[j..k];
  }

  /** Every yielded line is a line piece. */
  lemma {:induction false} PollsPieces(data: string, pos: nat, polls: nat)
    requires pos <= |data|
    ensures forall i :: 0 <= i < |Polls(data, pos, polls)| ==> IsLinePiece(Polls(data, pos, polls)[i])
    decreases polls
  {
    if polls > 0 {
      PollsPieces(data, LineEnd(data, pos), polls - 1);
    }
  }

  /** One more turn of the loop reads at the position the earlier turns reached. */
  lemma {:induction false} PollsSnoc(data: string, pos: nat, polls: nat)
    requires pos <= |data|
    ensures var end := PollsEnd(data, pos, polls);
      PollsEnd(data, pos, polls + 1) == LineEnd(data, end) &&
      Polls(data, pos, polls + 1) == Polls(data, pos, polls) + Yield(NextLine(data, end))
    decreases polls
  {
    if polls > 0 {
      var line := NextLine(data, pos);
      var next := LineEnd(data, pos);
      PollsSnoc(data, next, polls - 1);
      var y := Yield(NextLine(data, PollsEnd(data, pos, polls)));
      assert Yield(line) + (Polls(data, next, polls - 1) + y) == (Yield(line) + Polls(data, next, polls - 1)) + y;
    }
  }

  /** Once a read is empty, every later read is empty too while nothing is appended. */
  lemma {:induction false} PollsAtEnd(data: string, polls: nat)
    ensures Polls(data, |data|, polls) == [] && PollsEnd(data, |data|, polls) == |data|
  {
    if polls > 0 {
      PollsAtEnd(data, polls - 1);
    }
  }

  /** With at least one turn per character still unread, the loop delivers everything after `pos`. */
  lemma {:induction false} PollsDrain(data: string, pos: nat, polls: nat)
    requires pos <= |data| && polls >= |data| - pos
    ensures PollsEnd(data, pos, polls) == |data|
    ensures Concat(Polls(data, pos, polls)) == data[pos..]
    decreases polls
  {
    if pos == |data| {
      PollsAtEnd(data, polls);
    } else {
      PollsDrain(data, LineEnd(data, pos), polls - 1);
    }
    PollsRead(data, pos, polls);
  }

  /** Three lines appended after the seek come out as three lines, in order, whatever came
      before the seek. */
  lemma ThreeLines(before: string)
    ensures Polls(before + "a\nb\nc\n", |before|, 3) == ["a\n", "b\n", "c\n"]
  {
    ThreeWholeLines();
    PollsWholeLines(before + "a\nb\nc\n", before, ["a\n", "b\n", "c\n"]);
  }

  /** `a\n`, `b\n`, `c\n` are whole lines that spell `a\nb\nc\n`. */
  lemma ThreeWholeLines()
    ensures AllWhole(["a\n", "b\n", "c\n"])
    ensures Concat(["a\n", "b\n", "c\n"]) == "a\nb\nc\n"
  {
    assert Concat(["c\n"]) == "c\n";
    assert Concat(["b\n", "c\n"]) == "b\n" + "c\n";
  }

  /** A line piece that ends in a newline. */
  predicate IsWholeLine(l: string)
  {
    IsLinePiece(l) && l[|l| - 1] == Newline
  }

  /** Every one of `lines` is a whole line. */
  predicate AllWhole(lines: seq<string>)
  {
    lines == [] || (IsWholeLine(lines[0]) && AllWhole(lines[1..]))
  }

  /** Whole lines appended after `prefix` are yielded one per turn, each exactly as written. */
  lemma {:induction false} PollsWholeLines(data: string, prefix: string, lines: seq<string>)
    requires data == prefix + Concat(lines) && AllWhole(lines)
    ensures Polls(data, |prefix|, |lines|) == lines
    decreases |lines|
  {
    if lines != [] {
      var first, rest, n := lines[0], lines[1..], |lines| - 1;
      ConcatCons(prefix, lines);
      PollsFirstLine(data, prefix, first, Concat(rest), n);
      PollsWholeLines(data, prefix + first, rest);
    }
  }

  /** The first of `lines` moves from the concatenation into the prefix. */
  lemma ConcatCons(prefix: string, lines: seq<string>)
    requires lines != []
    ensures prefix + Concat(lines) == (prefix + lines[0]) + Concat(lines[1..])
    ensures lines == [lines[0]] + lines[1..] && |lines| == |lines[1..]| + 1
  {
    var first, rest := lines[0], Concat(lines[1..]);
    assert Concat(lines) == first + rest;
    assert prefix + (first + rest) == (prefix + first) + rest;
  }

  /** A whole line right after `prefix` is the first thing the loop yields from there. */
  lemma PollsFirstLine(data: string, prefix: string, first: string, rest: string, polls: nat)
    requires IsWholeLine(first) && data == (prefix + first) + rest
    ensures Polls(data, |prefix|, polls + 1) == [first] + Polls(data, |prefix + first|, polls)
  {
    var body := first[..|first| - 1];
    assert first == body + [Newline];
    forall k | 0 <= k < |body| ensures body[k] != Newline {
      assert body[k] == first[k];
    }
    WholeLine(data, prefix, body, rest);
  }

  /** The open log file object: its content and its read position. */
  class LogFile {
    var data: string
    var pos: nat

    /** The file as `open(..., 'r')` leaves it: positioned at its start. */
    constructor (initial: string)
      ensures data == initial && pos == 0
    {
      data := initial;
      pos := 0;
    }

    /** `seek(0, 2)`: the read position moves to the end of the file. */
    method SeekEnd()
      modifies this
      ensures data == old(data) && pos == |data|
    {
      pos := |data|;
    }

    /** `readline()`: returns the next line piece, or `""` at the end, and moves past it. */
    method ReadLine() returns (line: string)
      requires pos <= |data|
      modifies this
      ensures data == old(data) && line == NextLine(data, old(pos)) && pos == old(pos) + |line|
    {
      line := NextLine(data, pos);
      pos := pos + |line|;
    }

    /** Another program appends `chunk` to the log; the read position stays. */
    method Append(chunk: string)
      modifies this
      ensures data == old(data) + chunk && pos == old(pos)
    {
      data := data + chunk;
    }
  }

  /** `File_Stream_Thread` once its file is open: the `logtail` generator over `file`, and the
      lines `log_lines` has emitted from it so far. The thread only gets here when its call of
      `log_lines` binds, which takes `FixedLogLinesParams`. */
  class LogTail {
    const file: LogFile
    /** The file's content at the time of the seek. */
    ghost var before: string
    var emitted: seq<string>

    /** The read position never falls behind the seek, the content seen at the seek is never
        rewritten, and the emitted lines are line pieces that spell exactly what lies between
        the seek and the read position. */
    ghost predicate Valid()
      reads this, file
    {
      |before| <= file.pos <= |file.data| && file.data[..|before|] == before &&
      Concat(emitted) == file.data[|before|..file.pos] &&
      forall i :: 0 <= i < |emitted| ==> IsLinePiece(emitted[i])
    }

    /** The start of `logtail`: `seek(0, 2)` on the open file. */
    constructor (file: LogFile)
      modifies file
      ensures this.file == file && Valid()
      ensures before == old(file.data) && file.data == old(file.data) && emitted == []
    {
      this.file := file;
      emitted := [];
      before := file.data;
      new;
      file.SeekEnd();
    }

    /** One turn of the `while True` loop: read a line; an empty read yields nothing (the thread
        sleeps and retries), a non-empty one is yielded and emitted. */
    method Poll() returns (line: Option<string>)
      requires Valid()
      modifies this, file
      ensures Valid() && file.data == old(file.data) && before == old(before)
      ensures line == None <==> old(file.pos) == |file.data|
      ensures file.pos == LineEnd(file.data, old(file.pos))
      ensures line == None ==> emitted == old(emitted)
      ensures line.Some? ==>
        line.value == NextLine(file.data, old(file.pos)) && emitted == old(emitted) + [line.value]
    {
      var l := file.ReadLine();
      if l == [] {
        line := None;
      } else {
        ConcatSlices(file.data, |before|, old(file.pos), file.pos, emitted, [l]);
        emitted := emitted + [l];
        line := Some(l);
      }
    }

    /** `polls` turns of the `logtail` loop while nothing is appended. */
    method Run(polls: nat)
      requires Valid()
      modifies this, file
      ensures Valid() && file.data == old(file.data) && before == old(before)
      ensures emitted == old(emitted) + Polls(file.data, old(file.pos), polls)
      ensures file.pos == PollsEnd(file.data, old(file.pos), polls)
    {
      var i := 0;
      while i < polls
        invariant 0 <= i <= polls
        invariant Valid() && file.data == old(file.data) && before == old(before)
        invariant old(file.pos) <= |file.data|
        invariant emitted == old(emitted) + Polls(file.data, old(file.pos), i)
        invariant file.pos == PollsEnd(file.data, old(file.pos), i)
      {
        PollsSnoc(file.data, old(file.pos), i);
        var line := Poll();
        i := i + 1;
      }
    }

    /** The log's writer appends `chunk` to the log while the tail runs: nothing already emitted changes. */
    method Grow(chunk: string)
      requires Valid()
      modifies file
      ensures Valid() && file.data == old(file.data) + chunk && file.pos == old(file.pos)
    {
      file.Append(chunk);
      assert file.data[..file.pos] == old(file.data)[..file.pos];
    }
  }
}
