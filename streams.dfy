/**
 * The output pipes of a child process, as the line-reading loops see them,
 * what one execution of a shell command does, and the orders in which two
 * concurrently relayed pipes can be observed.
 */
module Streams {

  /** A pipe never yields an empty line before end of file. */
  predicate NonEmptyLines(lines: seq<string>) {
    forall i :: 0 <= i < |lines| ==> lines[i] != ""
  }

  /**
   * One pipe of a child process, read with `readline`. Everything the child
   * will write on it is known in advance (the child's output is an oracle of
   * the model); `position` counts the lines already read.
   */
  class LineReader {
    const lines: seq<string>
    var position: nat

    ghost predicate Valid()
      reads this
    {
      position <= |lines| && NonEmptyLines(lines)
    }

    /** The lines not yet read. */
    ghost function Pending(): seq<string>
      reads this
      requires Valid()
    {
      lines[position..]
    }

    constructor (lines: seq<string>)
      requires NonEmptyLines(lines)
      ensures Valid() && this.lines == lines && position == 0
    {
      this.lines := lines;
      position := 0;
    }

    /** The next line, or "" once the stream is exhausted (end of file). */
    method ReadLine() returns (line: string)
      requires Valid()
      modifies this
      ensures Valid()
      ensures line == "" <==> old(position) == |lines|
      ensures old(position) == |lines| ==> position == old(position)
      ensures old(position) < |lines| ==> line == lines[old(position)] && position == old(position) + 1
      ensures old(Pending()) == [] ==> line == "" && Pending() == []
      ensures old(Pending()) != [] ==> line == old(Pending())[0] && Pending() == old(Pending())[1..]
    {
      if position == |lines| {
        line := "";
      } else {
        line := lines[position];
        position := position + 1;
      }
    }
  }

  /**
   * What one execution of a shell command does: the lines it writes on each
   * pipe, the order in which the two relays happen to be scheduled, and its
   * return code; or the reason the shell could not be spawned at all.
   */
  datatype Run =
    | Exited(stdout: seq<string>, stderr: seq<string>, schedule: seq<bool>, returnCode: int)
    | SpawnFailed(reason: string)

  /** Every line a pipe yields before end of file is non-empty. */
  predicate WellFormedRun(run: Run) {
    run.Exited? ==> NonEmptyLines(run.stdout) && NonEmptyLines(run.stderr)
  }

  /**
   * `s` is an interleaving of `a` and `b`: it holds every element of both,
   * and the elements of each keep their relative order.
   */
  ghost predicate IsInterleaving<T>(s: seq<T>, a: seq<T>, b: seq<T>)
    decreases |s|
  {
    if s == [] then a == [] && b == []
    else
      || (a != [] && s[|s| - 1] == a[|a| - 1] && IsInterleaving(s[..|s| - 1], a[..|a| - 1], b))
      || (b != [] && s[|s| - 1] == b[|b| - 1] && IsInterleaving(s[..|s| - 1], a, b[..|b| - 1]))
  }

  /** An interleaving neither loses nor invents an element. */
  lemma {:induction false} InterleavingKeepsElements<T>(s: seq<T>, a: seq<T>, b: seq<T>)
    requires IsInterleaving(s, a, b)
    ensures multiset(s) == multiset(a) + multiset(b)
  {
    if s != [] {
      var x := s[|s| - 1];
      assert s == s[..|s| - 1] + [x];
      if a != [] && x == a[|a| - 1] && IsInterleaving(s[..|s| - 1], a[..|a| - 1], b) {
        InterleavingKeepsElements(s[..|s| - 1], a[..|a| - 1], b);
        assert a == a[..|a| - 1] + [x];
      } else {
        InterleavingKeepsElements(s[..|s| - 1], a, b[..|b| - 1]);
        assert b == b[..|b| - 1] + [x];
      }
    }
  }

  /** Reading all of `a` and then all of `b` is one of the admissible orders. */
  lemma {:induction false} ConcatenationIsInterleaving<T>(a: seq<T>, b: seq<T>)
    ensures IsInterleaving(a + b, a, b)
  {
    if b != [] {
      ConcatenationIsInterleaving(a, b[..|b| - 1]);
      assert (a + b)[..|a + b| - 1] == a + b[..|b| - 1];
    } else if a != [] {
      ConcatenationIsInterleaving(a[..|a| - 1], []);
      assert (a + b)[..|a + b| - 1] == a[..|a| - 1] + [];
    }
  }

  /** Appending an element of the first sequence keeps an interleaving. */
  lemma InterleavingExtendFirst<T>(s: seq<T>, a: seq<T>, b: seq<T>, x: T)
    requires IsInterleaving(s, a, b)
    ensures IsInterleaving(s + [x], a + [x], b)
  {
    assert (s + [x])[..|s|] == s;
    assert (a + [x])[..|a|] == a;
  }

  /** Appending an element of the second sequence keeps an interleaving. */
  lemma InterleavingExtendSecond<T>(s: seq<T>, a: seq<T>, b: seq<T>, x: T)
    requires IsInterleaving(s, a, b)
    ensures IsInterleaving(s + [x], a, b + [x])
  {
    assert (s + [x])[..|s|] == s;
    assert (b + [x])[..|b|] == b;
  }
}
