/** The two passes over the manifest of proprietary files: one pins the files of some sections by appending a hash
    to their lines, the other removes the hashes. */
module Manifest {

  datatype Error = FlagUnbound | PathEmpty | FileMissing

  datatype Result<T> = Ok(value: T) | Err(error: Error)

  datatype Flag = Unbound | Bound(value: bool)

  /** The hex digest of each file that exists under the vendor directory, by its relative path. */
  type Digests = map<string, string>

  /** `split(c)[0]`: the text before the first `c`. */
  function BeforeFirst(s: string, c: char): (r: string)
    ensures c !in r
    ensures r <= s && (c !in s ==> r == s) && (c in s ==> r < s && s[|r|] == c)
  {
    if s == [] || s[0] == c then [] else [s[0]] + BeforeFirst(s[1..], c)
  }

  /** `split(c)[-1]`: the text after the last `c`. */
  function AfterLast(s: string, c: char): (r: string)
    ensures c !in r && |r| <= |s|
  {
    if s == [] then []
    else if s[|s| - 1] == c then []
    else AfterLast(s[..|s| - 1], c) + [s[|s| - 1]]
  }

  predicate Contains(s: string, part: string) {
    part <= s || (s != [] && Contains(s[1..], part))
  }

  predicate OccursAt(s: string, part: string, i: nat) {
    i + |part| <= |s| && s[i..i + |part|] == part
  }

  lemma {:induction false} FindOccurrence(s: string, part: string) returns (i: nat)
    requires Contains(s, part)
    ensures OccursAt(s, part, i)
  {
    if part <= s {
      i := 0;
    } else {
      var k := FindOccurrence(s[1..], part);
      i := k + 1;
      OccursBehind(s, part, i);
    }
  }

  lemma OccursBehind(s: string, part: string, i: nat)
    requires s != [] && i > 0
    ensures OccursAt(s, part, i) <==> OccursAt(s[1..], part, i - 1)
  {
    if i + |part| <= |s| {
      assert s[i..i + |part|] == s[1..][i - 1..i - 1 + |part|];
    }
  }

  lemma {:induction false} OccurrenceIsContained(s: string, part: string, i: nat)
    requires OccursAt(s, part, i)
    ensures Contains(s, part)
  {
    if i > 0 && !(part <= s) {
      OccursBehind(s, part, i);
      OccurrenceIsContained(s[1..], part, i - 1);
    }
  }

  lemma ContainsMeansOccurs(s: string, part: string)
    ensures Contains(s, part) <==> exists i: nat :: OccursAt(s, part, i)
  {
    if Contains(s, part) {
      var i := FindOccurrence(s, part);
    }
    forall i: nat | OccursAt(s, part, i) ensures Contains(s, part) {
      OccurrenceIsContained(s, part, i);
    }
  }

  /** The text after the last `c` is the end of the string that begins behind a `c`, or all of it, and has no
      further `c`. */
  lemma {:induction false} AfterLastSplits(s: string, c: char)
    ensures var r := AfterLast(s, c);
            && c !in r
            && r == s[|s| - |r|..] && (c !in s ==> r == s)
            && (c in s ==> |r| < |s| && s[|s| - |r| - 1] == c)
  {
    if s != [] && s[|s| - 1] != c {
      AfterLastSplits(s[..|s| - 1], c);
    }
  }

  predicate IsComment(line: string) {
    line != [] && line[0] == '#'
  }

  /** Neither blank nor a comment: the line names a file. */
  predicate IsEntry(line: string) {
    line != [] && line[0] != '#'
  }

  function CleanLine(line: string): string {
    if IsEntry(line) && '|' in line then BeforeFirst(line, '|') else line
  }

  function Cleaned(lines: seq<string>): seq<string> {
    seq(|lines|, i requires 0 <= i < |lines| => CleanLine(lines[i]))
  }

  /** What the nearest comment above line `i` asks for. */
  function FlagAt(lines: seq<string>, i: nat): Flag
    requires i <= |lines|
  {
    if i == 0 then Unbound
    else if IsComment(lines[i - 1]) then Bound(Contains(lines[i - 1], " - "))
    else FlagAt(lines, i - 1)
  }

  /** The path that an entry without a hash names, up to its leading dash. */
  function RawPath(entry: string): string {
    AfterLast(BeforeFirst(entry, ';'), ':')
  }

  function PinnedLine(line: string, digests: Digests): Result<string> {
    var entry := BeforeFirst(line, '|');
    var raw := RawPath(entry);
    if raw == [] then Err(PathEmpty)
    else
      var path := if raw[0] == '-' then raw[1..] else raw;
      if path in digests then Ok(entry + "|" + digests[path]) else Err(FileMissing)
  }

  /** What the update makes of line `i`. */
  function UpdatedLine(lines: seq<string>, i: nat, digests: Digests): Result<string>
    requires i < |lines|
  {
    if !IsEntry(lines[i]) then Ok(lines[i])
    else
      match FlagAt(lines, i)
      case Unbound => Err(FlagUnbound)
      case Bound(false) => Ok(lines[i])
      case Bound(true) => PinnedLine(lines[i], digests)
  }

  predicate Succeeds(lines: seq<string>, digests: Digests) {
    forall i :: 0 <= i < |lines| ==> UpdatedLine(lines, i, digests).Ok?
  }

  function Updated(lines: seq<string>, digests: Digests): seq<string>
    requires Succeeds(lines, digests)
  {
    seq(|lines|, i requires 0 <= i < |lines| => UpdatedLine(lines, i, digests).value)
  }

  method Cleanup(lines: array<string>)
    modifies lines
    ensures lines[..] == Cleaned(old(lines[..]))
  {
    for index := 0 to lines.Length
      invariant forall k :: 0 <= k < index ==> lines[k] == CleanLine(old(lines[k]))
      invariant forall k :: index <= k < lines.Length ==> lines[k] == old(lines[k])
    {
      var line := lines[index];
      if |line| == 0 || line[0] == '#' || '|' !in line {
        continue;
      }
      lines[index] := BeforeFirst(line, '|');
    }
  }

  /** Stops with an exception at the first line it cannot treat; the lines above are then rewritten and the
      others are not, and the manifest is not written back. */
  method Update(lines: array<string>, digests: Digests) returns (result: Result<nat>)
    modifies lines
    ensures result.Ok? <==> Succeeds(old(lines[..]), digests)
    ensures result.Ok? ==> result.value == lines.Length && lines[..] == Updated(old(lines[..]), digests)
    ensures result.Err? ==>
              exists i :: 0 <= i < lines.Length
                       && UpdatedLine(old(lines[..]), i, digests) == Err(result.error)
                       && (forall k :: 0 <= k < i ==> UpdatedLine(old(lines[..]), k, digests) == Ok(lines[k]))
                       && (forall k :: i <= k < lines.Length ==> lines[k] == old(lines[k]))
  {
    var needSHA1 := Unbound;
    ghost var all := lines[..];
    for index := 0 to lines.Length
      invariant needSHA1 == FlagAt(all, index)
      invariant forall k :: 0 <= k < index ==> UpdatedLine(all, k, digests) == Ok(lines[k])
      invariant forall k :: index <= k < lines.Length ==> lines[k] == all[k]
    {
      var line := lines[index];
      if |line| == 0 {
        continue;
      }
      if line[0] == '#' {
        needSHA1 := Bound(Contains(line, " - "));
        continue;
      }
      if needSHA1.Unbound? {
        assert UpdatedLine(all, index, digests) == Err(FlagUnbound);
        return Err(FlagUnbound);
      }
      if needSHA1.value {
        line := BeforeFirst(line, '|');
        var filePath := AfterLast(BeforeFirst(line, ';'), ':');
        if filePath == [] {
          assert UpdatedLine(all, index, digests) == Err(PathEmpty);
          return Err(PathEmpty);
        }
        if filePath[0] == '-' {
          filePath := filePath[1..];
        }
        if filePath !in digests {
          assert UpdatedLine(all, index, digests) == Err(FileMissing);
          return Err(FileMissing);
        }
        lines[index] := line + "|" + digests[filePath];
      }
    }
    return Ok(lines.Length);
  }

  /** The update succeeds exactly on manifests whose first entry comes after a comment and
      whose pinned entries name existing files. */
  ghost predicate WellFormed(lines: seq<string>, digests: Digests) {
    && (forall i :: 0 <= i < |lines| && IsEntry(lines[i]) ==> exists j :: 0 <= j < i && IsComment(lines[j]))
    && (forall i :: 0 <= i < |lines| && IsEntry(lines[i]) && FlagAt(lines, i) == Bound(true) ==>
          PinnedLine(lines[i], digests).Ok?)
  }

  lemma {:induction false} FlagIsBound(lines: seq<string>, i: nat)
    requires i <= |lines|
    ensures FlagAt(lines, i) != Unbound <==> exists j :: 0 <= j < i && IsComment(lines[j])
  {
    if i > 0 {
      FlagIsBound(lines, i - 1);
    }
  }

  lemma UpdateSucceeds(lines: seq<string>, digests: Digests)
    ensures Succeeds(lines, digests) <==> WellFormed(lines, digests)
  {
    forall i | 0 <= i <= |lines|
      ensures FlagAt(lines, i) != Unbound <==> exists j :: 0 <= j < i && IsComment(lines[j])
    {
      FlagIsBound(lines, i);
    }
    if Succeeds(lines, digests) {
      forall i | 0 <= i < |lines| && IsEntry(lines[i]) ensures exists j :: 0 <= j < i && IsComment(lines[j]) {
        assert UpdatedLine(lines, i, digests).Ok?;
      }
      forall i | 0 <= i < |lines| && IsEntry(lines[i]) && FlagAt(lines, i) == Bound(true)
        ensures PinnedLine(lines[i], digests).Ok?
      {
        assert UpdatedLine(lines, i, digests).Ok?;
      }
    }
  }

  lemma BeforeFirstOf(prefix: string, rest: string, c: char)
    requires c !in prefix
    ensures BeforeFirst(prefix + [c] + rest, c) == prefix
  {
    var s := prefix + [c] + rest;
    var r := BeforeFirst(s, c);
    assert s[|prefix|] == c && c in s;
    assert forall k :: 0 <= k < |prefix| ==> s[k] == prefix[k] != c;
  }

  lemma {:induction false} AfterLastOf(pre: string, path: string, c: char)
    requires (pre == [] || pre[|pre| - 1] == c) && c !in path
    ensures AfterLast(pre + path, c) == path
  {
    var s := pre + path;
    if path != [] {
      var n := |path| - 1;
      assert s[..|s| - 1] == pre + path[..n] && s[|s| - 1] == path[n];
      AfterLastOf(pre, path[..n], c);
      assert path == path[..n] + [path[n]];
    } else {
      assert s == pre;
    }
  }

  lemma BeforeFirstIs(head: string, tail: string, c: char)
    requires c !in head && (tail == [] || tail[0] == c)
    ensures BeforeFirst(head + tail, c) == head
  {
    var s := head + tail;
    var r := BeforeFirst(s, c);
    assert forall k :: 0 <= k < |head| ==> s[k] == head[k];
    if tail == [] {
      assert s == head;
    } else {
      assert s[|head|] == c;
      assert |r| <= |head|;
    }
  }

  /** `entry` is `pre + path + post`, where the path lies between the last colon before the first semicolon and that
      semicolon. */
  predicate HasPath(entry: string, pre: string, path: string, post: string) {
    && entry == pre + path + post && ';' !in pre + path && ':' !in path
    && (pre == [] || pre[|pre| - 1] == ':') && (post == [] || post[0] == ';')
  }

  lemma CutTail(s: string, tail: string)
    requires |tail| <= |s| && tail == s[|s| - |tail|..]
    ensures s[..|s| - |tail|] + tail == s
  {}

  lemma CutHead(s: string, head: string)
    requires head <= s
    ensures head + s[|head|..] == s
  {}

  /** Every entry has such a path. */
  lemma EveryEntryHasPath(entry: string) returns (pre: string, path: string, post: string)
    ensures HasPath(entry, pre, path, post)
  {
    var head := BeforeFirst(entry, ';');
    path := AfterLast(head, ':');
    pre := head[..|head| - |path|];
    post := entry[|head|..];
    AfterLastSplits(head, ':');
    CutTail(head, path);
    CutHead(entry, head);
  }

  lemma RawPathIs(entry: string, pre: string, path: string, post: string)
    requires HasPath(entry, pre, path, post)
    ensures RawPath(entry) == path
  {
    BeforeFirstIs(pre + path, post, ';');
    AfterLastOf(pre, path, ':');
  }

  /** The nearest comment above line `i` is line `j`. */
  ghost predicate NearestComment(lines: seq<string>, i: nat, j: nat) {
    && j < i <= |lines| && lines[j] != [] && lines[j][0] == '#'
    && forall k :: j < k < i ==> lines[k] == [] || lines[k][0] != '#'
  }

  /** The comment asks for hashes: it has a dash between two spaces. */
  ghost predicate AsksForHashes(comment: string) {
    exists k: nat :: k + 2 < |comment| && comment[k] == ' ' && comment[k + 1] == '-' && comment[k + 2] == ' '
  }

  lemma SeparatorOccurs(comment: string)
    ensures Contains(comment, " - ") <==> AsksForHashes(comment)
  {
    ContainsMeansOccurs(comment, " - ");
    if Contains(comment, " - ") {
      var k: nat :| OccursAt(comment, " - ", k);
      assert comment[k..k + 3][0] == ' ' && comment[k..k + 3][1] == '-' && comment[k..k + 3][2] == ' ';
    }
    if AsksForHashes(comment) {
      var k: nat :| k + 2 < |comment| && comment[k] == ' ' && comment[k + 1] == '-' && comment[k + 2] == ' ';
      assert OccursAt(comment, " - ", k);
    }
  }

  lemma {:induction false} FlagIsNearest(lines: seq<string>, i: nat, j: nat)
    requires NearestComment(lines, i, j)
    ensures FlagAt(lines, i) == Bound(AsksForHashes(lines[j]))
  {
    if j == i - 1 {
      SeparatorOccurs(lines[j]);
    } else {
      FlagIsNearest(lines, i - 1, j);
    }
  }

  /** Which hash a line gets: under a comment that asks for hashes, that of the file its path names, of which one
      leading dash is not part, in place of any hash it had; the update fails when the path is empty or
      there is no such file. */
  lemma HashIsOfNamedFile(
    lines: seq<string>, i: nat, j: nat, digests: Digests,
    pre: string, path: string, post: string, hash: string, name: string)
    requires (path == name && (path == [] || path[0] != '-')) || path == ['-'] + name
    requires i < |lines| && NearestComment(lines, i, j) && AsksForHashes(lines[j])
    requires lines[i] != [] && lines[i][0] != '#'
    requires lines[i] == pre + path + post + hash && HasPath(pre + path + post, pre, path, post)
    requires '|' !in pre + path + post && (hash == [] || hash[0] == '|')
    ensures path == [] ==> UpdatedLine(lines, i, digests) == Err(PathEmpty)
    ensures path != [] && name !in digests ==> UpdatedLine(lines, i, digests) == Err(FileMissing)
    ensures path != [] && name in digests ==>
              UpdatedLine(lines, i, digests) == Ok(pre + path + post + "|" + digests[name])
  {
    FlagIsNearest(lines, i, j);
    BeforeFirstIs(pre + path + post, hash, '|');
    RawPathIs(pre + path + post, pre, path, post);
  }

  /** Which lines stay as they are: blank lines, comments, and entries under a comment that does not ask for hashes. An
      entry above all comments makes the update fail. */
  lemma OtherLinesStay(lines: seq<string>, i: nat, j: nat, digests: Digests)
    requires i < |lines|
    ensures lines[i] == [] || lines[i][0] == '#' ==> UpdatedLine(lines, i, digests) == Ok(lines[i])
    ensures lines[i] != [] && lines[i][0] != '#' ==>
              (NearestComment(lines, i, j) && !AsksForHashes(lines[j]) ==>
                 UpdatedLine(lines, i, digests) == Ok(lines[i]))
    ensures lines[i] != [] && lines[i][0] != '#' ==>
              ((forall k :: 0 <= k < i ==> lines[k] == [] || lines[k][0] != '#') ==>
                 UpdatedLine(lines, i, digests) == Err(FlagUnbound))
  {
    FlagIsBound(lines, i);
    if NearestComment(lines, i, j) {
      FlagIsNearest(lines, i, j);
    }
  }

  /** Cleaning cuts every line that is not a comment at its first bar, and leaves the others alone. */
  lemma CleanedMeans(lines: seq<string>, i: nat, head: string, tail: string)
    requires i < |lines| && lines[i] == head + tail && '|' !in head && (tail == [] || tail[0] == '|')
    ensures |Cleaned(lines)| == |lines|
    ensures Cleaned(lines)[i] == if lines[i] != [] && lines[i][0] == '#' then lines[i] else head
  {
    BeforeFirstIs(head, tail, '|');
    if tail != [] {
      assert lines[i][|head|] == '|';
    } else {
      assert lines[i] == head;
    }
  }

  /** A pinned line keeps its entry, and what is pinned is not blank and not a comment. */
  lemma PinnedLineKeepsEntry(line: string, digests: Digests)
    requires IsEntry(line) && PinnedLine(line, digests).Ok?
    ensures var pinned := PinnedLine(line, digests).value;
            && IsEntry(pinned) && '|' in pinned
            && BeforeFirst(pinned, '|') == BeforeFirst(line, '|')
            && BeforeFirst(line, '|') != []
  {
    var entry := BeforeFirst(line, '|');
    var pinned := PinnedLine(line, digests).value;
    assert entry == [] ==> RawPath(entry) == [];
    BeforeFirstOf(entry, pinned[|entry| + 1..], '|');
    assert pinned == entry + ['|'] + pinned[|entry| + 1..];
  }

  /** Two manifests with the same comments in the same places ask for the same. */
  lemma {:induction false} FlagByComments(lines1: seq<string>, lines2: seq<string>, i: nat)
    requires |lines1| == |lines2| && i <= |lines1|
    requires forall k :: 0 <= k < |lines1| ==>
               IsComment(lines1[k]) == IsComment(lines2[k]) && (IsComment(lines1[k]) ==> lines1[k] == lines2[k])
    ensures FlagAt(lines1, i) == FlagAt(lines2, i)
  {
    if i > 0 {
      FlagByComments(lines1, lines2, i - 1);
    }
  }

  predicate IsUnpinned(lines: seq<string>, i: nat)
    requires i < |lines|
  {
    IsEntry(lines[i]) && FlagAt(lines, i) == Bound(false)
  }

  /** The update keeps the number of lines, blank lines, comments and unpinned entries; a pinned entry
      keeps its text up to the hash. */
  lemma UpdateKeepsEntries(lines: seq<string>, digests: Digests)
    requires Succeeds(lines, digests)
    ensures |Updated(lines, digests)| == |lines|
    ensures forall i :: 0 <= i < |lines| ==>
              var now := Updated(lines, digests)[i];
              && IsEntry(now) == IsEntry(lines[i])
              && (!IsEntry(lines[i]) || IsUnpinned(lines, i) ==> now == lines[i])
              && BeforeFirst(now, '|') == BeforeFirst(lines[i], '|')
  {
    forall i | 0 <= i < |lines|
      ensures var now := Updated(lines, digests)[i];
              && IsEntry(now) == IsEntry(lines[i])
              && (!IsEntry(lines[i]) || IsUnpinned(lines, i) ==> now == lines[i])
              && BeforeFirst(now, '|') == BeforeFirst(lines[i], '|')
    {
      assert UpdatedLine(lines, i, digests).Ok?;
      if IsEntry(lines[i]) && FlagAt(lines, i) == Bound(true) {
        PinnedLineKeepsEntry(lines[i], digests);
      }
    }
  }

  /** Removing the hashes undoes pinning. */
  lemma CleanupAfterUpdate(lines: seq<string>, digests: Digests)
    requires Succeeds(lines, digests)
    ensures Cleaned(Updated(lines, digests)) == Cleaned(lines)
  {
    UpdateKeepsEntries(lines, digests);
  }

  lemma UpdateKeepsFlags(lines: seq<string>, digests: Digests, i: nat)
    requires Succeeds(lines, digests) && i <= |lines|
    ensures FlagAt(Updated(lines, digests), i) == FlagAt(lines, i)
  {
    UpdateKeepsEntries(lines, digests);
    FlagByComments(Updated(lines, digests), lines, i);
  }

  /** With the same files, a second update changes nothing. */
  lemma UpdateIsIdempotent(lines: seq<string>, digests: Digests)
    requires Succeeds(lines, digests)
    ensures Succeeds(Updated(lines, digests), digests)
    ensures Updated(Updated(lines, digests), digests) == Updated(lines, digests)
  {
    UpdateKeepsEntries(lines, digests);
    var once := Updated(lines, digests);
    forall i | 0 <= i < |lines| ensures UpdatedLine(once, i, digests) == Ok(once[i]) {
      UpdateKeepsFlags(lines, digests, i);
      assert UpdatedLine(lines, i, digests).Ok?;
    }
  }

  lemma CleanedLine(lines: seq<string>, digests: Digests, i: nat)
    requires Succeeds(lines, digests) && i < |lines|
    ensures UpdatedLine(Cleaned(lines), i, digests)
         == if IsUnpinned(lines, i) then Ok(CleanLine(lines[i])) else UpdatedLine(lines, i, digests)
  {
    assert UpdatedLine(lines, i, digests).Ok?;
    FlagByComments(Cleaned(lines), lines, i);
    if IsEntry(lines[i]) && FlagAt(lines, i) == Bound(true) {
      PinnedLineKeepsEntry(lines[i], digests);
    }
  }

  /** Pinning undoes removing the hashes, exactly when no unpinned entry contains a bar. */
  lemma UpdateAfterCleanup(lines: seq<string>, digests: Digests)
    requires Succeeds(lines, digests)
    ensures Succeeds(Cleaned(lines), digests)
    ensures Updated(Cleaned(lines), digests) == Updated(lines, digests)
       <==> forall i :: 0 <= i < |lines| && IsUnpinned(lines, i) ==> '|' !in lines[i]
  {
    forall i | 0 <= i < |lines|
      ensures UpdatedLine(Cleaned(lines), i, digests)
           == if IsUnpinned(lines, i) then Ok(CleanLine(lines[i])) else UpdatedLine(lines, i, digests)
    {
      CleanedLine(lines, digests, i);
    }
    var pinned := Updated(lines, digests);
    var again := Updated(Cleaned(lines), digests);
    forall i | 0 <= i < |lines|
      ensures again[i] == pinned[i] <==> !(IsUnpinned(lines, i) && '|' in lines[i])
    {
      assert UpdatedLine(lines, i, digests).Ok?;
    }
    if again == pinned {
      forall i | 0 <= i < |lines| && IsUnpinned(lines, i) ensures '|' !in lines[i] {
        assert again[i] == pinned[i];
      }
    }
  }
}
