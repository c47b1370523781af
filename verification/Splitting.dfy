/** Cutting a sequence at a separator. */
module Splitting {

  /** The parts that a separator ends, and what follows the last separator. */
  function Frames<T(==)>(s: seq<T>, sep: T): seq<seq<T>> {
    if s == [] then []
    else
      var init := s[..|s| - 1];
      if s[|s| - 1] == sep then Frames(init, sep) + [Tail(init, sep)] else Frames(init, sep)
  }

  function Tail<T(==)>(s: seq<T>, sep: T): seq<T> {
    if s == [] || s[|s| - 1] == sep then [] else Tail(s[..|s| - 1], sep) + [s[|s| - 1]]
  }

  /** The parts one after the other, each ended by the separator. */
  function Join<T>(parts: seq<seq<T>>, sep: T): seq<T> {
    if parts == [] then [] else Join(parts[..|parts| - 1], sep) + parts[|parts| - 1] + [sep]
  }

  predicate AllClean<T(==)>(parts: seq<seq<T>>, sep: T) { forall p <- parts :: sep !in p }

  lemma JoinAppend<T>(parts: seq<seq<T>>, p: seq<T>, sep: T)
    ensures Join(parts + [p], sep) == Join(parts, sep) + p + [sep]
  {
    assert (parts + [p])[..|parts|] == parts;
  }

  /** Splitting loses nothing, and no part keeps a separator. */
  lemma {:induction false} SplitConserves<T>(s: seq<T>, sep: T)
    ensures s == Join(Frames(s, sep), sep) + Tail(s, sep)
    ensures sep !in Tail(s, sep) && AllClean(Frames(s, sep), sep)
  {
    if s != [] {
      var init := s[..|s| - 1];
      SplitConserves(init, sep);
      assert s == init + [s[|s| - 1]];
      if s[|s| - 1] == sep { JoinAppend(Frames(init, sep), Tail(init, sep), sep); }
    }
  }

  lemma {:induction false} SplitClean<T>(s: seq<T>, sep: T)
    requires sep !in s
    ensures Frames(s, sep) == [] && Tail(s, sep) == s
  {
    if s != [] { SplitClean(s[..|s| - 1], sep); }
  }

  /** Splitting a sequence in two pieces, with the tail of the first carried over. */
  lemma {:induction false} SplitAppend<T>(a: seq<T>, b: seq<T>, sep: T)
    ensures Frames(a + b, sep) == Frames(a, sep) + Frames(Tail(a, sep) + b, sep)
    ensures Tail(a + b, sep) == Tail(Tail(a, sep) + b, sep)
    decreases |b|
  {
    if b == [] {
      SplitConserves(a, sep);
      SplitClean(Tail(a, sep), sep);
      assert a + b == a && Tail(a, sep) + b == Tail(a, sep);
    } else {
      var init, t := b[..|b| - 1], Tail(a, sep);
      SplitAppend(a, init, sep);
      assert (a + b)[..|a + b| - 1] == a + init;
      assert (t + b)[..|t + b| - 1] == t + init;
    }
  }

  /** The split is the only way to cut a sequence into parts without separators. */
  lemma {:induction false} SplitIsUnique<T>(parts: seq<seq<T>>, tail: seq<T>, sep: T)
    requires sep !in tail && AllClean(parts, sep)
    ensures Frames(Join(parts, sep) + tail, sep) == parts && Tail(Join(parts, sep) + tail, sep) == tail
    decreases |parts|
  {
    if parts == [] {
      SplitClean(tail, sep);
      assert Join(parts, sep) + tail == tail;
    } else {
      var init, p := parts[..|parts| - 1], parts[|parts| - 1];
      SplitIsUnique(init, p, sep);
      var s := Join(init, sep) + p + [sep];
      assert s[..|s| - 1] == Join(init, sep) + p;
      assert parts == init + [p];
      SplitAppend(s, tail, sep);
      SplitClean(tail, sep);
      assert Tail(s, sep) + tail == tail;
    }
  }

  lemma SplitFirst<T>(line: seq<T>, rest: seq<T>, sep: T)
    requires sep !in line
    ensures Frames(line + [sep] + rest, sep) == [line] + Frames(rest, sep)
    ensures Tail(line + [sep] + rest, sep) == Tail(rest, sep)
  {
    SplitClean(line, sep);
    var a := line + [sep];
    assert a[..|a| - 1] == line;
    SplitAppend(a, rest, sep);
    assert Tail(a, sep) + rest == rest;
  }

  lemma NoFramesNoCut<T>(s: seq<T>, sep: T)
    requires Frames(s, sep) == []
    ensures Tail(s, sep) == s
  {
    SplitConserves(s, sep);
    assert Join([], sep) + Tail(s, sep) == Tail(s, sep);
  }

  lemma {:induction false} PartsAreShorter<T>(parts: seq<seq<T>>, tail: seq<T>, sep: T)
    ensures |tail| <= |Join(parts, sep) + tail|
    ensures forall p <- parts :: |p| < |Join(parts, sep)|
  {
    if parts != [] { PartsAreShorter(parts[..|parts| - 1], tail, sep); }
  }
}
