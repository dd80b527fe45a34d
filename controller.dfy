/** The active-file controller of `MainWindow`: the current file name, the editor text, and the
    streams started so far. A stream start is an event recorded by name; the code never stops an
    earlier stream, it only starts another one. */
module Controller {
  import opened Wrappers
  import opened Strings
  import opened Calls

  /** What a handler returns: finished, or the `TypeError` Python raises. */
  datatype Outcome = Done | Raised(error: CallError)

  /** The parameters of `start_file_stream` after `self`: `new_file`, without a default. */
  const StartFileStreamParams: seq<Param> := [Param("new_file", false)]

  /** The window's state as a value: `self.file`, the editor's plain text, and the names of the
      `File_Stream_Thread`s started, oldest first (the last is `self.file_stream_thread`). */
  datatype Window = Window(file: Option<string>, text: string, streams: seq<string>)

  /** The state after `__init__`: no file, empty editor, no stream. */
  const Initial: Window := Window(None, "", [])

  /** `start_file_stream(new_file)`. */
  function StartStream(w: Window, newFile: string): (w': Window)
    ensures w'.file == Some(newFile) && w'.text == w.text
    ensures w'.streams == w.streams + [newFile]
  {
    Window(Some(newFile), w.text, w.streams + [newFile])
  }

  /** `file_compare(file)`: only a notification for a file other than the current one switches. */
  function Compare(w: Window, file: string): (w': Window)
    ensures w'.file == Some(file) && w'.text == w.text
    ensures w.file == Some(file) ==> w' == w
    ensures w.file != Some(file) ==> w'.streams == w.streams + [file]
  {
    if w.file != Some(file) then StartStream(w, file) else w
  }

  /** `set_text(line)`: the editor text is the old text followed by `line`. */
  function AppendLine(w: Window, line: string): (w': Window)
    ensures |w'.text| == |w.text| + |line|
    ensures w'.text[..|w.text|] == w.text && w'.text[|w.text|..] == line
    ensures w'.file == w.file && w'.streams == w.streams
  {
    w.(text := w.text + line)
  }

  /** `clear_text()`: the text is emptied, then `start_file_stream()` is called without its
      `new_file` argument, which raises before its body runs. */
  function Clear(w: Window): (r: (Window, Outcome))
    ensures r.0.text == [] && r.0.file == w.file && r.0.streams == w.streams
    ensures r.1 == Raised(MissingArgument("new_file"))
  {
    var e := Bind(StartFileStreamParams, 0, []);
    assert e == Some(MissingArgument("new_file"));
    (w.(text := []), Raised(e.value))
  }

  /** As written, clearing never starts another stream for the current file: whatever the
      state, the streams stay as they were and the call ends in an error instead. */
  lemma ClearDoesNotRestart(w: Window, f: string)
    requires w.file == Some(f)
    ensures Clear(w).0.streams != StartStream(w, f).streams
    ensures Clear(w).1 != Done
  {
    assert |StartStream(w, f).streams| == |w.streams| + 1;
  }

  /** What clearing evidently means to do, `start_file_stream(self.file)` after emptying the
      text: with a current file, another stream starts for it (from that file's present end),
      beside the earlier one, which nothing stops; with none, only the text is emptied. */
  function ResetView(w: Window): (r: (Window, Outcome))
    ensures r.0.text == [] && r.0.file == w.file && r.1 == Done
    ensures w.file.Some? ==> r.0.streams == w.streams + [w.file.value]
    ensures w.file.None? ==> r.0.streams == w.streams
  {
    if w.file.Some? then (StartStream(w.(text := []), w.file.value), Done) else (w.(text := []), Done)
  }

  /** After a reset, a notification for the current file still changes nothing, and the reset
      state differs from the as-written one exactly by the stream started for the current file;
      the reset's call of `start_file_stream` with one positional argument binds. */
  lemma ResetViewKeepsDedup(w: Window, f: string)
    requires w.file == Some(f)
    ensures Bind(StartFileStreamParams, 1, []) == None
    ensures Compare(ResetView(w).0, f) == ResetView(w).0
    ensures ResetView(w).0 == StartStream(Clear(w).0, f)
  {
  }

  /** The state after the watcher's notifications `events`, handled one at a time in arrival order. */
  function Run(w: Window, events: seq<string>): Window
  {
    if events == [] then w else Compare(Run(w, events[..|events| - 1]), events[|events| - 1])
  }

  /** The events with every repetition of the event just before it dropped: the first of each
      run of equal names. */
  function Compress(events: seq<string>): seq<string>
  {
    if |events| <= 1 then events
    else if events[|events| - 1] == events[|events| - 2] then Compress(events[..|events| - 1])
    else Compress(events[..|events| - 1]) + [events[|events| - 1]]
  }

  /** From the initial state, the streams started are exactly the compressed notifications (one
      start per change of name, none for a repeat), the current file is the last notification,
      and the text is untouched. */
  lemma {:induction false} RunFromInitial(events: seq<string>)
    ensures Run(Initial, events).streams == Compress(events)
    ensures Run(Initial, events).file == if events == [] then None else Some(events[|events| - 1])
    ensures Run(Initial, events).text == []
  {
    if events != [] {
      var init := events[..|events| - 1];
      RunFromInitial(init);
      if |events| >= 2 {
        assert init[|init| - 1] == events[|events| - 2];
      }
    }
  }

  /** Notifications never change the text and only ever add streams: the streams started before
      stay, in order, as a prefix. */
  lemma {:induction false} RunKeeps(w: Window, events: seq<string>)
    ensures Run(w, events).text == w.text
    ensures |w.streams| <= |Run(w, events).streams|
    ensures Run(w, events).streams[..|w.streams|] == w.streams
    ensures |Run(w, events).streams| <= |w.streams| + |events|
  {
    if events != [] {
      RunKeeps(w, events[..|events| - 1]);
    }
  }

  /** Two neighbouring stream starts are never for the same name, and every started name was
      notified. */
  lemma {:induction false} CompressShape(events: seq<string>)
    ensures forall i :: 0 < i < |Compress(events)| ==> Compress(events)[i] != Compress(events)[i - 1]
    ensures forall n :: n in Compress(events) ==> n in events
    ensures events != [] ==>
      Compress(events) != [] && Compress(events)[|Compress(events)| - 1] == events[|events| - 1]
  {
    if |events| > 1 {
      var init := events[..|events| - 1];
      CompressShape(init);
      assert init[|init| - 1] == events[|events| - 2];
      forall n | n in init ensures n in events { }
    }
  }

  /** `n` repetitions of `name`. */
  function Repeat(name: string, n: nat): (r: seq<string>)
    ensures |r| == n && forall i :: 0 <= i < n ==> r[i] == name
  {
    if n == 0 then [] else Repeat(name, n - 1) + [name]
  }

  /** Any number of notifications for `f` followed by one for a different `g` start exactly two
      streams, first `f` and then `g`; `f, f, f, g` is the case of three. */
  lemma {:induction false} RepeatThenSwitch(f: string, g: string, n: nat)
    requires f != g && n >= 1
    ensures Run(Initial, Repeat(f, n) + [g]).streams == [f, g]
    ensures Run(Initial, Repeat(f, n) + [g]).file == Some(g)
  {
    var e := Repeat(f, n) + [g];
    assert e[..|e| - 1] == Repeat(f, n);
    assert e[|e| - 2] == f && e[|e| - 1] == g;
    RepeatCompress(f, n);
    assert Compress(e) == [f, g];
    RunFromInitial(e);
  }

  /** A run of one name starts one stream. */
  lemma {:induction false} RepeatCompress(f: string, n: nat)
    requires n >= 1
    ensures Compress(Repeat(f, n)) == [f]
  {
    if n > 1 {
      RepeatCompress(f, n - 1);
      assert Repeat(f, n)[..n - 1] == Repeat(f, n - 1);
    }
  }

  /** The editor text after `set_text` for each of `lines`: the old text followed by all of them. */
  function AppendLines(w: Window, lines: seq<string>): Window
  {
    if lines == [] then w else AppendLine(AppendLines(w, lines[..|lines| - 1]), lines[|lines| - 1])
  }

  /** Appending lines keeps the old text as a prefix and adds exactly the lines, in order;
      nothing else changes. */
  lemma {:induction false} AppendLinesAppends(w: Window, lines: seq<string>)
    ensures AppendLines(w, lines).text == w.text + Concat(lines)
    ensures AppendLines(w, lines).file == w.file && AppendLines(w, lines).streams == w.streams
  {
    if lines != [] {
      var init, last := lines[..|lines| - 1], lines[|lines| - 1];
      AppendLinesAppends(w, init);
      ConcatAppend(init, [last]);
      assert lines == init + [last];
    }
  }

  /** `file_compare(f)` twice in a row does what it does once. */
  lemma CompareIdempotent(w: Window, file: string)
    ensures Compare(Compare(w, file), file) == Compare(w, file)
  {
  }

  /** `MainWindow`, reduced to the fields the controller reads and writes. */
  class MainWindow {
    var file: Option<string>
    var text: string
    var streams: seq<string>

    /** The fields as a `Window`. */
    function State(): Window
      reads this
    {
      Window(file, text, streams)
    }

    constructor ()
      ensures State() == Initial
    {
      file := None;
      text := [];
      streams := [];
    }

    /** `file_compare(file)`, the slot the watcher's notifications are connected to. */
    method FileCompare(f: string)
      modifies this
      ensures State() == Compare(old(State()), f)
      ensures old(file) == Some(f) ==> file == old(file) && text == old(text) && streams == old(streams)
      ensures old(file) != Some(f) ==>
        file == Some(f) && text == old(text) && streams == old(streams) + [f]
    {
      if file != Some(f) {
        file := Some(f);
        StartFileStream(f);
      }
    }

    /** `start_file_stream(new_file)`: the name becomes current and a new stream starts. */
    method StartFileStream(newFile: string)
      modifies this
      ensures State() == StartStream(old(State()), newFile)
      ensures file == Some(newFile) && text == old(text) && streams == old(streams) + [newFile]
    {
      file := Some(newFile);
      streams := streams + [newFile];
    }

    /** `set_text(line)`, the slot a stream's lines are connected to. */
    method SetText(line: string)
      modifies this
      ensures State() == AppendLine(old(State()), line)
      ensures text == old(text) + line && file == old(file) && streams == old(streams)
    {
      text := text + line;
    }

    /** `clear_text()`, the slot of the clear button. */
    method ClearText() returns (outcome: Outcome)
      modifies this
      ensures (State(), outcome) == Clear(old(State()))
      ensures text == [] && file == old(file) && streams == old(streams)
      ensures outcome == Raised(MissingArgument("new_file"))
    {
      text := [];
      outcome := Clear(State()).1;
    }
  }
}
