/** `File_Stream_Thread` from its start: `Thread.run` calls `log_lines` with the keywords the
    constructor stored, and only a call that binds reaches `logtail`. */
module FileStream {
  import opened Wrappers
  import opened Strings
  import opened Calls
  import opened Tail

  /** The parameters of `log_lines` after `self`, as written: none. */
  const LogLinesParams: seq<Param> := []

  /** The parameters of `log_lines` that the thread's call needs: `signals=None`, as
      `watch_directory` has it. */
  const FixedLogLinesParams: seq<Param> := [Param("signals", true)]

  /** The keywords `Thread.run` passes to its function: `File_Stream_Thread.__init__` hands
      `signals=signals` to `Thread.__init__`, which keeps it in `kwargs`. No positional
      argument is passed. */
  const ThreadKeywords: seq<string> := ["signals"]

  /** A started `File_Stream_Thread` after some turns of its tail loop: the error it raised, if
      any, and the lines it emitted. */
  datatype StreamRun = StreamRun(error: Option<CallError>, lines: seq<string>)

  /** A started `File_Stream_Thread` whose `log_lines` has parameters `params`, over a log whose
      content is `data` once its end is at `seekAt`, for `polls` turns of the tail loop. When the
      call does not bind, `Thread.run` catches the `TypeError` and the thread ends before
      `log_lines` opens the file. When it binds, the thread raises nothing in those turns; the
      endless loop itself never returns. */
  function StreamThread(params: seq<Param>, data: string, seekAt: nat, polls: nat): (r: StreamRun)
    requires seekAt <= |data|
    ensures r.error == Bind(params, 0, ThreadKeywords)
    ensures r.error.Some? ==> r.lines == []
    ensures r.error.None? ==> Concat(r.lines) == data[seekAt..PollsEnd(data, seekAt, polls)]
    ensures forall i :: 0 <= i < |r.lines| ==> IsLinePiece(r.lines[i])
  {
    match Bind(params, 0, ThreadKeywords)
    case Some(e) => StreamRun(Some(e), [])
    case None =>
      PollsRead(data, seekAt, polls);
      PollsPieces(data, seekAt, polls);
      StreamRun(None, Polls(data, seekAt, polls))
  }

  /** As written, every stream thread dies with `log_lines() got an unexpected keyword argument
      'signals'` and emits nothing, whatever the log holds and however long it runs. */
  lemma AsWrittenStreamFails(data: string, seekAt: nat, polls: nat)
    requires seekAt <= |data|
    ensures StreamThread(LogLinesParams, data, seekAt, polls) == StreamRun(Some(UnexpectedKeyword("signals")), [])
  {
    assert Bind(LogLinesParams, 0, ThreadKeywords) == Some(UnexpectedKeyword("signals"));
  }

  /** With `log_lines(self, signals=None)` the call binds and the thread emits what `logtail`
      yields: exactly the text read after the seek, as line pieces; with enough turns, all of it. */
  lemma FixedStreamTails(data: string, seekAt: nat, polls: nat)
    requires seekAt <= |data|
    ensures StreamThread(FixedLogLinesParams, data, seekAt, polls) == StreamRun(None, Polls(data, seekAt, polls))
    ensures polls >= |data| - seekAt ==> Concat(StreamThread(FixedLogLinesParams, data, seekAt, polls).lines) == data[seekAt..]
  {
    assert Names(FixedLogLinesParams) == ["signals"];
    assert Bind(FixedLogLinesParams, 0, ThreadKeywords) == None;
    if polls >= |data| - seekAt {
      PollsDrain(data, seekAt, polls);
    }
  }
}
