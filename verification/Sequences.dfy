/** Order-preserving selections of a sequence, and sums. */
module Sequences {

  datatype Option<+T> = None | Some(value: T) {
    function GetOr(default: T): T {
      if Some? then value else default
    }
  }

  function Min(a: int, b: int): int {
    if a < b then a else b
  }

  /** Subtraction that stops at zero. */
  function Monus(a: nat, b: nat): nat {
    if a < b then 0 else a - b
  }

  ghost predicate Increasing(at: seq<nat>) {
    forall i, j :: 0 <= i < j < |at| ==> at[i] < at[j]
  }

  /** `part` is what `whole` holds at the increasing positions `at`. */
  ghost predicate Selects<T>(at: seq<nat>, part: seq<T>, whole: seq<T>) {
    && |at| == |part|
    && Increasing(at)
    && forall i :: 0 <= i < |at| ==> at[i] < |whole| && part[i] == whole[at[i]]
  }

  ghost predicate IsSubsequence<T>(part: seq<T>, whole: seq<T>) {
    exists at: seq<nat> :: Selects(at, part, whole)
  }

  lemma SubsequenceSelf<T>(s: seq<T>)
    ensures IsSubsequence(s, s)
  {
    assert Selects(seq(|s|, i => i), s, s);
  }

  lemma SubsequenceAppend<T>(part: seq<T>, whole: seq<T>, tail: seq<T>)
    requires IsSubsequence(part, whole)
    ensures IsSubsequence(part + tail, whole + tail)
  {
    var at :| Selects(at, part, whole);
    assert Selects(at + seq(|tail|, i => |whole| + i), part + tail, whole + tail);
  }

  /** Removing a slice keeps the order of what remains. */
  lemma SubsequenceCut<T>(a: seq<T>, b: seq<T>, c: seq<T>, whole: seq<T>)
    requires IsSubsequence(a + b + c, whole)
    ensures IsSubsequence(a + c, whole)
  {
    var at :| Selects(at, a + b + c, whole);
    var kept := at[..|a|] + at[|a| + |b|..];
    forall i | 0 <= i < |kept| ensures kept[i] < |whole| && (a + c)[i] == whole[kept[i]] {
      var k := if i < |a| then i else i + |b|;
      assert kept[i] == at[k] && (a + c)[i] == (a + b + c)[k];
    }
    assert Selects(kept, a + c, whole);
  }

  lemma {:induction false} IncreasingLowerBound(at: seq<nat>, i: nat)
    requires Increasing(at) && i < |at|
    ensures at[i] >= i
  {
    if i > 0 {
      IncreasingLowerBound(at, i - 1);
      assert at[i - 1] < at[i];
    }
  }

  lemma {:induction false} IncreasingUpperBound(at: seq<nat>, i: nat, n: nat)
    requires Increasing(at) && i < |at| && at[|at| - 1] < n
    ensures at[i] + (|at| - i) <= n
    decreases |at| - i
  {
    if i < |at| - 1 {
      IncreasingUpperBound(at, i + 1, n);
      assert at[i] < at[i + 1];
    }
  }

  /** A subsequence of full length is the whole. */
  lemma FullSubsequence<T>(part: seq<T>, whole: seq<T>)
    requires IsSubsequence(part, whole) && |part| == |whole|
    ensures part == whole
  {
    var at :| Selects(at, part, whole);
    forall i | 0 <= i < |part| ensures part[i] == whole[i] {
      IncreasingLowerBound(at, i);
      IncreasingUpperBound(at, i, |whole|);
    }
  }

  function Filter<T>(keep: T -> bool, s: seq<T>): seq<T> {
    if s == [] then []
    else Filter(keep, s[..|s| - 1]) + (if keep(s[|s| - 1]) then [s[|s| - 1]] else [])
  }

  /** `out` is what `s` holds at the positions `at`, which are, in order, exactly those to keep. */
  ghost predicate IsFiltered<T>(keep: T -> bool, s: seq<T>, at: seq<nat>, out: seq<T>) {
    && Selects(at, out, s)
    && forall i :: 0 <= i < |s| ==> (keep(s[i]) <==> i in at)
  }

  lemma FilterTakes<T>(keep: T -> bool, s: seq<T>, at: seq<nat>, out: seq<T>)
    requires s != [] && keep(s[|s| - 1]) && IsFiltered(keep, s[..|s| - 1], at, out)
    ensures IsFiltered(keep, s, at + [|s| - 1], out + [s[|s| - 1]])
  {
    var n := |s| - 1;
    var now := at + [n];
    assert Selects(now, out + [s[n]], s);
    forall i | 0 <= i < |s| ensures keep(s[i]) <==> i in now {
      if i < n {
        assert s[i] == s[..n][i] && (i in now <==> i in at);
      } else {
        assert now[|at|] == i;
      }
    }
  }

  lemma FilterSkips<T>(keep: T -> bool, s: seq<T>, at: seq<nat>, out: seq<T>)
    requires s != [] && !keep(s[|s| - 1]) && IsFiltered(keep, s[..|s| - 1], at, out)
    ensures IsFiltered(keep, s, at, out)
  {
    forall i | 0 <= i < |s| ensures keep(s[i]) <==> i in at {
      if i < |s| - 1 {
        assert s[i] == s[..|s| - 1][i];
      }
    }
  }

  lemma {:induction false} FilterSelects<T>(keep: T -> bool, s: seq<T>) returns (at: seq<nat>)
    ensures IsFiltered(keep, s, at, Filter(keep, s))
  {
    if s == [] {
      at := [];
    } else {
      var n := |s| - 1;
      at := FilterSelects(keep, s[..n]);
      if keep(s[n]) {
        FilterTakes(keep, s, at, Filter(keep, s[..n]));
        at := at + [n];
      } else {
        FilterSkips(keep, s, at, Filter(keep, s[..n]));
        assert Filter(keep, s) == Filter(keep, s[..n]);
      }
    }
  }

  lemma {:induction false} FilterAppend<T>(keep: T -> bool, s: seq<T>, t: seq<T>)
    ensures Filter(keep, s + t) == Filter(keep, s) + Filter(keep, t)
  {
    if t == [] {
      assert s + t == s;
    } else {
      assert (s + t)[..|s + t| - 1] == s + t[..|t| - 1];
      FilterAppend(keep, s, t[..|t| - 1]);
    }
  }

  lemma Assoc<T>(a: seq<T>, b: seq<T>, c: seq<T>)
    ensures a + (b + c) == (a + b) + c == a + b + c
  {}

  lemma SplitPrefix<T>(s: seq<T>, n: nat, rest: seq<T>)
    requires n <= |s|
    ensures s + rest == s[..n] + (s[n..] + rest)
  {}

  /** What was read, and what waits to be read, is what waited at first and what was written since. */
  predicate ReadInOrder<T(==)>(read: seq<T>, behind: seq<T>, start: seq<T>, written: seq<T>) {
    read + behind == start + written
  }

  lemma NothingRead<T>(start: seq<T>)
    ensures ReadInOrder([], start, start, [])
  {
    assert [] + start == start + [];
  }

  lemma ReadOn<T>(
    read: seq<T>, before: seq<T>, start: seq<T>, written: seq<T>, more: seq<T>, behind: seq<T>, after: seq<T>)
    requires ReadInOrder(read, before, start, written) && written <= after
    requires more + behind == before + after[|written|..]
    ensures ReadInOrder(read + more, behind, start, after)
  {
    var tail := after[|written|..];
    assert after == written + tail;
    assert (read + more) + behind == read + (more + behind);
    assert read + (before + tail) == (read + before) + tail;
    assert (start + written) + tail == start + (written + tail);
  }

  function Sum(s: seq<nat>): nat {
    if s == [] then 0 else s[0] + Sum(s[1..])
  }

  lemma {:induction false} SumAppend(s: seq<nat>, t: seq<nat>)
    ensures Sum(s + t) == Sum(s) + Sum(t)
  {
    if s == [] {
      assert s + t == t;
    } else {
      assert (s + t)[1..] == s[1..] + t;
      SumAppend(s[1..], t);
    }
  }
}
