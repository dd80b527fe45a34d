/** How the three pieces fit together: the handler's emitted names drive the controller, and a
    stream's lines are appended to the editor text. */
module Pipeline {
  import opened Wrappers
  import opened PathFilter
  import opened Controller
  import opened Tail
  import opened FileStream
  import opened Strings

  /** No stream is ever started for the reserved name: the handler never forwards it, and the
      controller only starts streams for names it was given. */
  lemma ReservedNeverStarted(signals: bool, paths: seq<string>)
    ensures Reserved !in Run(Initial, NotifyAll(signals, paths)).streams
  {
    var names := NotifyAll(signals, paths);
    ReservedNeverEmitted(signals, paths);
    RunFromInitial(names);
    CompressShape(names);
  }

  /** The editor text after a tail's emitted lines reach `set_text` is the old text followed by
      exactly what the tail read after its seek, so nothing from before the seek is shown. */
  lemma TailedTextIsAppended(w: Window, t: LogTail)
    requires t.Valid()
    ensures AppendLines(w, t.emitted).text == w.text + t.file.data[|t.before|..t.file.pos]
    ensures AppendLines(w, t.emitted).file == w.file && AppendLines(w, t.emitted).streams == w.streams
  {
    AppendLinesAppends(w, t.emitted);
  }

  /** As written, a stream thread never changes the window: it emits no line for `set_text`. */
  lemma AsWrittenStreamShowsNothing(w: Window, data: string, seekAt: nat, polls: nat)
    requires seekAt <= |data|
    ensures AppendLines(w, StreamThread(LogLinesParams, data, seekAt, polls).lines) == w
  {
    AsWrittenStreamFails(data, seekAt, polls);
  }

  /** As written, the editor shows nothing whatever the watcher notifies and whatever the log
      of the current stream holds. */
  lemma AsWrittenEditorStaysEmpty(events: seq<string>, data: string, seekAt: nat, polls: nat)
    requires seekAt <= |data|
    ensures AppendLines(Run(Initial, events), StreamThread(LogLinesParams, data, seekAt, polls).lines).text == []
  {
    RunFromInitial(events);
    AsWrittenStreamShowsNothing(Run(Initial, events), data, seekAt, polls);
  }

  /** With `log_lines(self, signals=None)`, the editor text after a stream is the old text
      followed by exactly what the tail read after the seek. */
  lemma FixedStreamShowsTail(w: Window, data: string, seekAt: nat, polls: nat)
    requires seekAt <= |data|
    ensures AppendLines(w, StreamThread(FixedLogLinesParams, data, seekAt, polls).lines).text ==
      w.text + data[seekAt..PollsEnd(data, seekAt, polls)]
  {
    var run := StreamThread(FixedLogLinesParams, data, seekAt, polls);
    FixedStreamTails(data, seekAt, polls);
    AppendLinesAppends(w, run.lines);
  }

  /** A session, as the window sees it with the code as written: `session.log` is notified and
      starts a stream, which ends at once without showing its two new lines; a repeated
      notification changes nothing, and `other.log` starts a second stream. `dir` is the
      watched directory; `log` is what `session.log` holds by the end, `seekAt` its length
      when the stream starts. */
  method SessionScenario(dir: string, log: string, seekAt: nat)
    requires seekAt <= |log|
  {
    var handler := new FileOnModifiedHandler(true);
    var window := new MainWindow();
    var session, other := dir + [Sep] + "session.log", dir + [Sep] + "other.log";
    BaseNameOfJoin(dir, "session.log");
    BaseNameOfJoin(dir, "other.log");

    handler.OnModified(session);
    assert handler.emitted == ["session.log"];
    window.FileCompare(handler.emitted[0]);
    assert window.streams == ["session.log"];

    AsWrittenStreamShowsNothing(window.State(), log, seekAt, 2);
    assert window.text == [];

    handler.OnModified(session);
    assert handler.emitted[1] == "session.log";
    window.FileCompare(handler.emitted[1]);
    assert window.streams == ["session.log"];

    handler.OnModified(other);
    assert handler.emitted[2] == "other.log";
    window.FileCompare(handler.emitted[2]);
    assert window.streams == ["session.log", "other.log"] && window.file == Some("other.log");
  }

  /** The same session with `log_lines(self, signals=None)`: the two lines appended to
      `session.log` after the seek reach the editor, in order, and nothing from before it. */
  method FixedSessionScenario() returns (text: string)
    ensures text == "Alice entered\nBob entered\n"
  {
    var window := new MainWindow();
    window.FileCompare("session.log");
    var lines := SessionTail();
    window.SetText(lines[0]);
    window.SetText(lines[1]);
    text := window.text;
  }

  /** The tail of `session.log` once `log_lines` binds: the content before the seek is not
      read, the two appended lines are, in order. */
  method SessionTail() returns (lines: seq<string>)
    ensures lines == ["Alice entered\n", "Bob entered\n"]
  {
    var session := new LogFile("old line\n");
    var tail := new LogTail(session);
    tail.Grow("Alice entered\n");
    tail.Grow("Bob entered\n");
    assert session.data == "old line\n" + ("Alice entered" + "\n") + "Bob entered\n";
    WholeLine(session.data, "old line\n", "Alice entered", "Bob entered\n");
    var first := tail.Poll();
    assert first == Some("Alice entered\n");
    assert session.pos == |"old line\n" + "Alice entered\n"|;
    assert session.data == ("old line\n" + "Alice entered\n") + ("Bob entered" + "\n") + [];
    WholeLine(session.data, "old line\n" + "Alice entered\n", "Bob entered", []);
    assert |session.data| == 35 && "Bob entered" + "\n" == "Bob entered\n";
    var second := tail.Poll();
    assert second == Some("Bob entered\n");
    lines := tail.emitted;
  }

  /** A tail started on a file that nothing is appended to yields nothing. */
  method QuietTail(content: string) returns (line: Option<string>)
    ensures line == None
  {
    var other := new LogFile(content);
    var tail := new LogTail(other);
    line := tail.Poll();
  }
}
