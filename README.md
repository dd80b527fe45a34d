# Who Parser: notification filter, active-file controller and tail reader

Who Parser is a desktop utility that watches a log directory and is meant to show the tail of
the log file that changed most recently. Its logic fits in one Python file. This project models the three
parts of that file that can be stated exactly:

- **the notification filter**: `FileOnModifiedHandler.on_modified` reduces a changed path to its
  base name and forwards every name except `dbg.txt` (module `PathFilter`);
- **the active-file controller**: `MainWindow.file_compare`, `start_file_stream`, `set_text` and
  `clear_text` keep the current file name and the editor text, and start streams (module
  `Controller`);
- **the tail reader**: `File_Stream_Thread.logtail` seeks to the end of the open log file, then
  polls `readline` and yields every non-empty read (module `Tail`); how a started
  `File_Stream_Thread` calls `log_lines`, and what it has done after some turns of its loop,
  is module `FileStream`.

Module `Calls` states Python's rule for binding a call's arguments to a function's parameters.
Two calls in the file do not bind, and the rule derives both errors. Module `Pipeline` connects
the parts. Modules `Wrappers` (an `Option` type) and `Strings` (`Concat`) are shared helpers.

Each part takes the form of its source:

- The base name and the filter are pure functions.
- The handler, the window and the open file are classes. Their methods change their fields.
- Each method's postcondition ties the new state to a pure function of the old state, such as
  `Compare`, `AppendLine`, `Clear`, `NextLine` or `Polls`. Lemmas state the source's promises
  about those functions.

Stream starts are an abstract event. `Window.streams` (the field `MainWindow.streams`) logs the
name of each `File_Stream_Thread` started, oldest first. Its last entry is
`self.file_stream_thread`. The code never stops an older stream, so nothing in the model stops
one either.

The log file is a growing character sequence `LogFile.data` with a read position `LogFile.pos`.
Another program appends to it through `LogTail.Grow`; each append happens between two polls.
The `while True` loop of `logtail` never ends, so `LogTail.Run(polls)` runs it for a given
number of turns, and `LogTail.Poll` runs one turn. An empty read is the "sleep and retry" turn:
it yields nothing and leaves the position unchanged.

`LogTail.Valid` is the invariant every tail operation keeps:

- the content present at the seek (`before`) is never rewritten;
- the read position never goes back before the seek;
- the emitted lines concatenate to exactly the text between the seek and the read position.

From this invariant it follows that no character written before the seek is ever emitted.

Three behaviours a reader might expect of such a tool are not what the code does. The model
follows the code:

- **No line is ever shown.** `File_Stream_Thread.__init__` passes `signals=signals` to
  `Thread.__init__`, which keeps it in `kwargs` (who_parser.py:114, 63). `Thread.run` then calls
  `log_lines(signals=...)` (who_parser.py:74). But `log_lines` takes no parameter besides `self`
  (who_parser.py:119), so every stream thread raises a `TypeError` before it opens its file.
  `Thread.run` catches the error and the thread ends (who_parser.py:77-79).
  `FileStream.StreamThread` models this; `FileStream.AsWrittenStreamFails` and
  `Pipeline.AsWrittenEditorStaysEmpty` state it. See Findings.
- **A file switch.** Starting a stream does not cancel the previous one. `start_file_stream` only
  overwrites `self.file_stream_thread` (who_parser.py:181-183).
- **The clear button.** Clearing does not start tailing the current file again. The code calls
  `start_file_stream()` without its required `new_file` argument (who_parser.py:192). Python
  raises a `TypeError` after the text is cleared. `Controller.Clear` and `MainWindow.ClearText`
  return `Raised(MissingArgument("new_file"))`. See Findings.

The tail reader is modelled as it runs once `log_lines` binds, that is, with
`log_lines(self, signals=None)`. `Tail.LogTail` and `FileStream.FixedStreamTails` are that
corrected behaviour.

`Pipeline.SessionScenario` is a client with no contract of its own. It runs a whole session
(`session.log`, then `other.log`) through the handler and the window, as written:

- a first notification for `session.log` starts one stream;
- that stream ends at once, so the editor text stays empty;
- a repeated notification changes nothing;
- `other.log` starts a second stream.

`Pipeline.FixedSessionScenario` runs the same session with the corrected `log_lines`. There the
two lines appended to `session.log` reach the editor text, in order.

## Model

| member | source | states |
|---|---|---|
| Calls.KeywordError | who_parser.py:114 | the call's keywords are all accepted exactly when each names a parameter that no positional argument filled; an error found is an unexpected keyword or a multiple value |
| Calls.FirstMissing | who_parser.py:192 | no parameter is missing exactly when every parameter without a default, from the given index on, is given by keyword; a missing one is such a parameter and was not given |
| Calls.Bind | who_parser.py:74 | a call binds exactly when its keywords all name parameters not filled positionally, there are no more positional arguments than parameters, and every parameter without a default receives a value |
| PathFilter.Split | who_parser.py:104 | `split('\\')` gives at least one piece, no piece contains a backslash, and joining the pieces with backslashes gives back the path |
| PathFilter.SplitJoin | who_parser.py:104 | splitting undoes joining pieces that contain no backslash, so the split is the only such decomposition |
| PathFilter.BaseName | who_parser.py:104 | the base name contains no backslash and is a suffix of the path; it is the whole path or is preceded by a backslash, so it is the text after the last backslash; a path without backslashes is its own base name |
| PathFilter.BaseNameOfJoin | who_parser.py:104 | a name without backslashes joined to any directory by one backslash is recovered exactly |
| PathFilter.Notify | who_parser.py:106-107 | one event emits at most one name and never `dbg.txt`; it emits the base name exactly when signals are set and the name is not `dbg.txt`, and nothing otherwise |
| PathFilter.NotifyAll | who_parser.py:103-107 | defines the names emitted by a run of `on_modified` calls, in event order; `NotifyAllEmits` and `ReservedNeverEmitted` state its properties |
| PathFilter.NotifyAllEmits | who_parser.py:103-107 | over any run of events, a name is emitted if and only if signals are set, it is not `dbg.txt`, and it is the base name of some event's path; without signals nothing is emitted |
| PathFilter.ReservedNeverEmitted | who_parser.py:106 | `dbg.txt` is never emitted, whatever the events |
| PathFilter.FileOnModifiedHandler.constructor | who_parser.py:100-101 | the handler keeps its signals flag and has emitted nothing |
| PathFilter.FileOnModifiedHandler.OnModified | who_parser.py:103-107 | stores the base name in `file_name` and extends the emitted names by exactly what `Notify` allows |
| Controller.StartStream | who_parser.py:177-183 | the new name becomes current, exactly one stream is started for it (after the old ones, which stay), and the text is untouched |
| Controller.Compare | who_parser.py:166-169 | afterwards the name is current and the text is untouched; a notification for the current file changes nothing; one for a different file starts exactly one stream for it |
| Controller.AppendLine | who_parser.py:171-175 | the new text is the old text followed by the line; the old text is a prefix; file and streams are unchanged |
| Controller.Clear | who_parser.py:190-192 | the text becomes empty, file and streams are unchanged, and the call ends in the missing-`new_file` error that binding `start_file_stream()` raises |
| Controller.ClearDoesNotRestart | who_parser.py:190-192 | as written, clearing with a current file never starts another stream for it and never ends normally |
| Controller.ResetView | who_parser.py:190-192 | the corrected clear: empties the text, keeps the file, ends normally, and starts another stream for the current file when there is one (the earlier stream is not stopped); with no current file the streams stay |
| Controller.ResetViewKeepsDedup | who_parser.py:190-192 | the corrected call `start_file_stream(self.file)` binds; after a corrected reset, a notification for the current file is still a no-op, and the reset differs from the as-written clear exactly by the one stream it starts for the current file |
| Controller.Run | who_parser.py:166-169 | defines the state after the watcher's notifications, handled by `file_compare` one at a time in arrival order; `RunFromInitial`, `RunKeeps` and `RepeatThenSwitch` state its properties |
| Controller.RunFromInitial | who_parser.py:166-169 | from `self.file = None`, the streams started for a run of notifications are exactly the notifications with repeats of the previous name dropped; the current file is the last notification; the text is untouched |
| Controller.RunKeeps | who_parser.py:166-169 | notifications never change the text, keep every earlier stream as a prefix, and start at most one stream each |
| Controller.CompressShape | who_parser.py:166-169 | two neighbouring stream starts are never for the same name, every started name was notified, and the last start is for the last notification |
| Controller.RepeatThenSwitch | who_parser.py:166-169 | `n >= 1` notifications for `f` then one for a different `g` start exactly two streams, `f` then `g`, and leave `g` current (`f, f, f, g` is `n = 3`) |
| Controller.AppendLines | who_parser.py:171-175 | defines the state after `set_text` for each of several lines, in order; `AppendLinesAppends` states its properties |
| Controller.AppendLinesAppends | who_parser.py:171-175 | after `set_text` for each of several lines the text is the old text followed by all of them in order; file and streams are unchanged |
| Controller.CompareIdempotent | who_parser.py:166-169 | handling the same notification twice in a row is the same as handling it once |
| Controller.MainWindow.constructor | who_parser.py:142 | the window starts with no file, an empty editor and no stream |
| Controller.MainWindow.FileCompare | who_parser.py:166-169 | the window's new state is `Compare` of its old state; same file: all fields unchanged; other file: it becomes current and one stream is added |
| Controller.MainWindow.StartFileStream | who_parser.py:177-183 | the new state is `StartStream` of the old: file set, one stream appended, text unchanged |
| Controller.MainWindow.SetText | who_parser.py:171-175 | the text is the old text followed by the line; file and streams are unchanged |
| Controller.MainWindow.ClearText | who_parser.py:190-192 | as written: the new state and outcome are `Clear` of the old state; the text is empty, file and streams are unchanged, and the outcome is the missing-argument error |
| Tail.LineEnd | who_parser.py:130 | `readline` stops just past the first newline at or after the position, or at the end of the data when none follows; it stops at the position exactly when nothing is left |
| Tail.LineEndUnique | who_parser.py:130 | that stopping point is the only one with a newline right before it and none earlier, or with the end of the data |
| Tail.NextLine | who_parser.py:130 | the line read is the data from the position on; it is empty exactly at the end of the data; otherwise it has a newline at most as its last character, and a line without a final newline runs to the end of the data, so a partial last line is returned |
| Tail.WholeLine | who_parser.py:130 | a newline-terminated line appended after any prefix is read whole, and what follows it is left for the next read |
| Tail.Polls | who_parser.py:129-134 | defines the lines `logtail` yields in a given number of turns over unchanging data: each turn yields the next `readline` unless it is empty; `PollsRead`, `PollsPieces`, `PollsSnoc`, `PollsAtEnd`, `PollsDrain` and `PollsWholeLines` state its properties, and `LogTail.Run` is proved equal to it |
| Tail.PollsEnd | who_parser.py:129-134 | the read position after a given number of turns, never before the start and never past the end of the data; `PollsRead` relates it to the yielded lines and `LogTail.Run` ends there |
| Tail.PollsRead | who_parser.py:129-134 | the lines yielded over any number of turns concatenate to exactly the data between the starting position and the position reached, in file order |
| Tail.PollsPieces | who_parser.py:129-134 | every yielded line is non-empty and has a newline at most as its last character |
| Tail.PollsSnoc | who_parser.py:129-134 | each further turn reads at the position the earlier turns reached and yields that read if it is not empty |
| Tail.PollsAtEnd | who_parser.py:131-133 | at the end of the data every turn is an empty read: nothing is yielded and the position stays |
| Tail.PollsDrain | who_parser.py:129-134 | with at least one turn per unread character, the loop delivers everything after the position |
| Tail.PollsFirstLine | who_parser.py:129-134 | a newline-terminated line right after the position is what the next turn yields, and the loop continues just past it |
| Tail.PollsWholeLines | who_parser.py:128-134 | any whole lines appended after the seek are yielded one per turn, each exactly as written and in order |
| Tail.ThreeLines | who_parser.py:128-134 | whatever the file held before the seek, `a\n`, `b\n`, `c\n` appended after it are yielded as those three lines in that order, and nothing from before |
| Tail.LogFile.constructor | who_parser.py:120 | a freshly opened file reads from its start |
| Tail.LogFile.SeekEnd | who_parser.py:128 | `seek(0, 2)` moves the read position to the end and leaves the content |
| Tail.LogFile.ReadLine | who_parser.py:130 | returns `NextLine` at the position and moves the position past it |
| Tail.LogTail.constructor | who_parser.py:128 | the tail starts at the file's length at seek time with nothing emitted, and the invariant holds |
| Tail.LogTail.Poll | who_parser.py:129-134 | one loop turn keeps the invariant; it yields nothing and keeps the position exactly when the read is empty; otherwise it emits `NextLine` at the old position |
| Tail.LogTail.Run | who_parser.py:129-134 | a number of turns keeps the invariant, emits exactly the lines `Polls` gives from the old position, and leaves the read position at `PollsEnd` |
| Tail.LogTail.Grow | who_parser.py:126-134 | an append by the log's writer keeps the invariant and the read position, so earlier output is unaffected |
| FileStream.StreamThread | who_parser.py:111-124 | a stream thread ends in the binding error of its `log_lines` call, if any, having emitted nothing; when the call binds, it raises nothing within `polls` turns, and its lines are line pieces that spell exactly the log text read after the seek |
| FileStream.AsWrittenStreamFails | who_parser.py:114-119 | as written, every stream thread ends with the unexpected keyword `signals` and emits nothing, whatever the log holds and however long it runs |
| FileStream.FixedStreamTails | who_parser.py:119-134 | with `log_lines(self, signals=None)` the call binds and the thread emits what `logtail` yields; with enough turns, all the text after the seek |
| Pipeline.ReservedNeverStarted | who_parser.py:106-107 | no stream is ever started for `dbg.txt`, whatever paths the watcher reports |
| Pipeline.TailedTextIsAppended | who_parser.py:171-175 | for any tail keeping its invariant, once its emitted lines reach `set_text` the editor text is the old text followed by exactly the log text between its seek and its read position; file and streams are unchanged |
| Pipeline.AsWrittenStreamShowsNothing | who_parser.py:111-124 | as written, a stream thread leaves the window exactly as it was |
| Pipeline.AsWrittenEditorStaysEmpty | who_parser.py:111-124 | as written, after any run of notifications from start-up and any stream, the editor text is empty |
| Pipeline.FixedStreamShowsTail | who_parser.py:119-134 | with the corrected `log_lines`, the editor text after a stream is the old text followed by exactly the log text read after the seek |
| Pipeline.FixedSessionScenario | who_parser.py:119-134 | with the corrected `log_lines`, the session's two appended lines reach the editor text, in order, with nothing from before the seek |
| Pipeline.SessionTail | who_parser.py:119-134 | with the corrected `log_lines`, with `old line\n` in the file at the seek and two lines appended after it, two polls emit exactly those two lines in order |
| Pipeline.QuietTail | who_parser.py:128-133 | a poll on a file nothing was appended to since the seek yields nothing |

## Left out

- The Qt shell is UI and is left out: `QMainWindow`, the widgets and layout, `show`, the
  `WorkerSignals` signal/slot wiring and `QApplication` start-up (who_parser.py:6-7, 17-21,
  137-164, 195-197). A signal emission is appended to a log such as
  `FileOnModifiedHandler.emitted` or `LogTail.emitted`. The editor is the string `text`.
  Qt text normalisation is not modelled.
- Threads are concurrency and are left out: the `QThread` machinery, the traceback printing of
  `Thread.run`, `Watch_Directory_Thread`, and `terminate` in `closeEvent` (who_parser.py:53-95,
  185-188). Of `Thread.run`, the model keeps only the call of its function and the catching
  of its error, in `FileStream.StreamThread`. Starting a stream is an entry in `streams`. The model
  has no interleaving of stream threads. The file grows only between polls.
- Calls.Bind: binds plain parameters only. Keyword-only parameters, `*args` and `**kwargs` in
  the callee are not modelled, because no function the model calls has them.
- The watchdog observer calls a library whose behaviour is not visible here: `Watcher.run` and
  `Watcher.stop` (who_parser.py:24-50). Its events are the `srcPath` arguments of
  `OnModified`.
- Real file I/O and timing are left out:
  - opening `DIRECTORY + '\\' + current_file` and any failure to open it (who_parser.py:10, 120);
  - `time.sleep(0.1)` (who_parser.py:132), which is only a delay before the retry;
  - text-mode newline translation, so `data` is the text after translation.
- LogFile.ReadLine: never fails. In the source, a read or decoding error (`OSError`,
  `UnicodeDecodeError`) at who_parser.py:120 or 130 ends the tail thread through the catch of
  `Thread.run` (who_parser.py:77-79). The model's `ReadLine` and `LogTail.Poll` always return a
  line piece or `""`, because file encoding is not modelled.
- Cancellation and "at most one tailer" are not implemented by the code, so the model does not
  claim them.
- FileStream.StreamThread: covers only a given number of turns of the `logtail` loop, which
  never returns, so a thread whose call binds is described after those turns, not at an end.
- LogTail.Run: runs only a given number of turns of the non-terminating `while True` loop,
  because a loop without a bound cannot be proved to terminate.
- Python's truth test on the signals object is a `bool` parameter, `signals`.

## Findings

| source | as written | input that shows it | evidently intended | confidence | as-written member | corrected member |
|---|---|---|---|---|---|---|
| who_parser.py:119 | `log_lines(self)` accepts no keyword, but `File_Stream_Thread.__init__` passes `signals=signals` through `Thread`'s `kwargs` (who_parser.py:114), and `Thread.run` calls `log_lines(signals=...)`. Every stream thread raises `TypeError: log_lines() got an unexpected keyword argument 'signals'` before opening its file, so no line ever reaches `set_text` | any notification that starts a stream, for example `session.log` with lines appended after the seek | `def log_lines(self, signals=None):`, as `watch_directory` has it, so the thread tails the file and every appended line reaches the editor | high (not executed) | FileStream.AsWrittenStreamFails | FileStream.FixedStreamTails |
| who_parser.py:192 | `clear_text` calls `self.start_file_stream()`, which lacks the required `new_file` argument, so a `TypeError` is raised after the text is cleared and no new stream is started | any click of "Clear Text", for example with `self.file == "session.log"` | `self.start_file_stream(self.file)` when `self.file` is set: clear the text and start another tail of the current file from its present end (with `self.file` still `None`, only the text is cleared). Since no stream is ever stopped, the earlier tail of that file keeps running, so with `log_lines` also corrected every later line would reach `set_text` twice | high (not executed) | Controller.ClearDoesNotRestart | Controller.ResetView |

The class method `MainWindow.ClearText` models the `clear_text` code as written. For the stream
thread, `Pipeline.AsWrittenEditorStaysEmpty` states the consequence of the first finding as
written, and `Pipeline.FixedStreamShowsTail`, `Tail.LogTail` and `Pipeline.FixedSessionScenario`
model the corrected behaviour.
