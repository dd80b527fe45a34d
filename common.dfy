/** Small value types shared by the rest of the model. */
module Wrappers {

  /** A value that may be absent; `None` stands for Python's `None`. */
  datatype Option<+T> = None | Some(value: T)
}

/** Strings built from pieces. */
module Strings {

  /** The pieces of `parts`, one after another. */
  function Concat(parts: seq<string>): (s: string)
    ensures parts == [] ==> s == []
    ensures |parts| == 1 ==> s == parts[0]
  {
    if parts == [] then [] else parts[0] + Concat(parts[1..])
  }

  /** Concatenation distributes over sequence append. */
  lemma {:induction false} ConcatAppend(a: seq<string>, b: seq<string>)
    ensures Concat(a + b) == Concat(a) + Concat(b)
  {
    if a == [] {
      assert a + b == b;
    } else {
      assert (a + b)[1..] == a[1..] + b;
      ConcatAppend(a[1..], b);
    }
  }
}
