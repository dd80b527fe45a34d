/** The notification filter of `FileOnModifiedHandler.on_modified`: reduce a changed path to its
    base name (the last piece of a split on the backslash) and forward every name except the
    reserved debug file. */
module PathFilter {
  import opened Wrappers

  /** The separator `on_modified` splits on. */
  const Sep: char := '\\'

  /** The name the handler never forwards. */
  const Reserved: string := "dbg.txt"

  /** The index of the first separator in `s`, or `|s|` when it has none. */
  function FirstSep(s: string): (i: nat)
    ensures i <= |s|
    ensures forall k :: 0 <= k < i ==> s[k] != Sep
    ensures i < |s| ==> s[i] == Sep
  {
    if s == [] || s[0] == Sep then 0 else 1 + FirstSep(s[1..])
  }

  /** The pieces put back together with one separator between neighbours. */
  function Join(parts: seq<string>): string
    requires |parts| >= 1
  {
    if |parts| == 1 then parts[0] else parts[0] + [Sep] + Join(parts[1..])
  }

  /** Python's `s.split('\\')`: the text between separators, always at least one piece (an empty
      `s` gives `[""]`, a separator at either end gives an empty piece there). */
  function Split(s: string): (parts: seq<string>)
    ensures |parts| >= 1
    ensures forall j :: 0 <= j < |parts| ==> Sep !in parts[j]
    ensures Join(parts) == s
    decreases |s|
  {
    var i := FirstSep(s);
    if i == |s| then
      assert s[..i] == s;
      [s]
    else
      var rest := Split(s[i + 1..]);
      assert s == s[..i] + [Sep] + s[i + 1..];
      [s[..i]] + rest
  }

  /** Splitting undoes joining pieces that hold no separator. */
  lemma {:induction false} SplitJoin(parts: seq<string>)
    requires |parts| >= 1
    requires forall j :: 0 <= j < |parts| ==> Sep !in parts[j]
    ensures Split(Join(parts)) == parts
  {
    var s := Join(parts);
    if |parts| == 1 {
      assert Sep !in s;
      assert FirstSep(s) == |s|;
    } else {
      var head := parts[0];
      var tail := Join(parts[1..]);
      assert s == head + [Sep] + tail;
      assert forall k :: 0 <= k < |head| ==> s[k] == head[k] && s[k] != Sep;
      assert s[|head|] == Sep;
      assert FirstSep(s) == |head|;
      assert s[..|head|] == head;
      assert s[|head| + 1..] == tail;
      SplitJoin(parts[1..]);
      assert parts == [head] + parts[1..];
    }
  }

  /** The last piece of a join is a suffix of it; when there are several pieces, a separator
      stands right before it. */
  lemma {:induction false} JoinLast(parts: seq<string>)
    requires |parts| >= 1
    ensures var s, last := Join(parts), parts[|parts| - 1];
      |last| <= |s| && s[|s| - |last|..] == last &&
      (|parts| > 1 ==> |last| < |s| && s[|s| - |last| - 1] == Sep)
  {
    if |parts| > 1 {
      JoinLast(parts[1..]);
      var s, t := Join(parts), Join(parts[1..]);
      assert s == parts[0] + [Sep] + t;
      var last := parts[|parts| - 1];
      assert last == parts[1..][|parts[1..]| - 1];
      if |parts| == 2 {
        assert t == last;
        assert s[|s| - |last|..] == t;
        assert s[|s| - |last| - 1] == Sep;
      } else {
        assert s[|s| - |last|..] == t[|t| - |last|..];
        assert s[|s| - |last| - 1] == t[|t| - |last| - 1];
      }
    }
  }

  /** `event.src_path.split('\\')[-1]`: the text after the last separator of `path`, or all of
      `path` when it holds none. */
  function BaseName(path: string): (name: string)
    ensures Sep !in name
    ensures |name| <= |path| && path[|path| - |name|..] == name
    ensures |name| < |path| ==> path[|path| - |name| - 1] == Sep
    ensures Sep !in path ==> name == path
  {
    var parts := Split(path);
    JoinLast(parts);
    parts[|parts| - 1]
  }

  /** A name without separators, joined to any directory by one separator, is what the base
      name recovers. */
  lemma {:induction false} BaseNameOfJoin(dir: string, name: string)
    requires Sep !in name
    ensures BaseName(dir + [Sep] + name) == name
  {
    var path := dir + [Sep] + name;
    var b := BaseName(path);
    var n := |path| - |name|;
    forall k | n <= k < |path| ensures path[k] != Sep {
      assert path[k] == name[k - n];
      assert name[k - n] in name;
    }
    assert path[n - 1] == Sep;
    assert b == path[|path| - |b|..];
    assert name == path[|path| - |name|..];
  }

  /** The names one `on_modified` call emits on `signals.result`; `signals` is the truth value of
      the handler's signals object. */
  function Notify(signals: bool, srcPath: string): (emitted: seq<string>)
    ensures |emitted| <= 1 && Reserved !in emitted
    ensures emitted == [BaseName(srcPath)] <==> signals && BaseName(srcPath) != Reserved
    ensures emitted == [] <==> !signals || BaseName(srcPath) == Reserved
  {
    var name := BaseName(srcPath);
    if signals && name != Reserved then [name] else []
  }

  /** The names emitted for a run of events, in arrival order. */
  function NotifyAll(signals: bool, paths: seq<string>): seq<string>
  {
    if paths == [] then []
    else NotifyAll(signals, paths[..|paths| - 1]) + Notify(signals, paths[|paths| - 1])
  }

  /** Over any run of events, a name is emitted exactly when signals are set, it is not the
      reserved name, and it is the base name of some event's path; nothing at all is emitted
      without signals. */
  lemma {:induction false} NotifyAllEmits(signals: bool, paths: seq<string>, name: string)
    ensures name in NotifyAll(signals, paths) <==>
      signals && name != Reserved && exists p :: p in paths && BaseName(p) == name
    ensures !signals ==> NotifyAll(signals, paths) == []
  {
    if paths != [] {
      var init, last := paths[..|paths| - 1], paths[|paths| - 1];
      NotifyAllEmits(signals, init, name);
      assert paths == init + [last];
      if signals && name != Reserved && BaseName(last) == name {
        assert name in Notify(signals, last);
      }
      forall p | p in init ensures p in paths { }
      if name in NotifyAll(signals, paths) && name !in NotifyAll(signals, init) {
        assert name in Notify(signals, last);
      }
    }
  }

  /** The reserved name never leaves the handler, whatever the events. */
  lemma ReservedNeverEmitted(signals: bool, paths: seq<string>)
    ensures Reserved !in NotifyAll(signals, paths)
  {
    NotifyAllEmits(signals, paths, Reserved);
  }

  /** `FileOnModifiedHandler`: keeps the last base name it computed and has emitted `emitted` on
      its signals object so far. */
  class FileOnModifiedHandler {
    const signals: bool
    var fileName: Option<string>
    var emitted: seq<string>

    constructor (signals: bool)
      ensures this.signals == signals && fileName == None && emitted == []
    {
      this.signals := signals;
      fileName := None;
      emitted := [];
    }

    /** `on_modified(event)` for an event whose `src_path` is `srcPath`. */
    method OnModified(srcPath: string)
      modifies this
      ensures fileName == Some(BaseName(srcPath))
      ensures emitted == old(emitted) + Notify(signals, srcPath)
    {
      var name := BaseName(srcPath);
      fileName := Some(name);
      if signals && name != Reserved {
        emitted := emitted + [name];
      }
    }
  }
}
