/** The hierarchy locator: which cgroup the current process belongs to,
    read from the membership listing `/proc/self/cgroup`, whose lines look like
    `0::/user.slice/...` (v2) or `4:memory:/docker/abc` (v1). */
module CgroupLocator {
  import opened Base
  import opened Text
  import opened Fs

  const ProcSelfCgroup: string := "/proc/self/cgroup"

  /** A v2 membership line. */
  predicate IsUnifiedEntry(line: string) {
    StartsWith(line, "0::")
  }

  /** A line the v1 scan takes: it contains `:memory:` and has at least three
      `:`-separated fields. */
  predicate IsMemoryEntry(line: string) {
    Contains(line, ":memory:") && |Split(line, ':')| >= 3
  }

  /** Index of the first line that satisfies `p`. */
  function FirstWhere(lines: seq<string>, p: string -> bool): (r: Option<nat>)
    ensures r.Some? ==> r.value < |lines| && p(lines[r.value])
    ensures r.Some? ==> forall k :: 0 <= k < r.value ==> !p(lines[k])
    ensures r.None? ==> forall k :: 0 <= k < |lines| ==> !p(lines[k])
  {
    if lines == [] then None
    else if p(lines[0]) then Some(0)
    else
      match FirstWhere(lines[1..], p)
      case None => None
      case Some(i) => Some(i + 1)
  }

  lemma FirstWhereAt(lines: seq<string>, p: string -> bool, i: nat)
    requires i < |lines| && p(lines[i])
    requires forall k :: 0 <= k < i ==> !p(lines[k])
    ensures FirstWhere(lines, p) == Some(i)
  {
  }

  /** The path named by a membership listing: the remainder of the first v2
      line; failing that, the third field of the first v1 memory line;
      failing that, the empty string. */
  function CgroupPathOfListing(contents: string): (path: string)
    ensures ':' in path ==> FirstWhere(Lines(contents), IsUnifiedEntry).Some?
  {
    var lines := Lines(contents);
    match FirstWhere(lines, IsUnifiedEntry)
    case Some(i) => lines[i][3..]
    case None =>
      match FirstWhere(lines, IsMemoryEntry)
      case Some(j) => Split(lines[j], ':')[2]
      case None => ""
  }

  /** `get_current_cgroup_path`, as a function of the filesystem. */
  function CurrentCgroupPath(fs: FileSystem): (path: string)
    ensures ProcSelfCgroup !in fs.files ==> path == ""
  {
    match ReadToString(fs, ProcSelfCgroup)
    case None => ""
    case Some(contents) => CgroupPathOfListing(contents)
  }

  /** `get_current_cgroup_path`: two scans over the lines, each returning at
      its first hit. */
  method GetCurrentCgroupPath(fs: FileSystem) returns (path: string)
    ensures path == CurrentCgroupPath(fs)
  {
    var contents := ReadToString(fs, ProcSelfCgroup);
    if contents.Some? {
      var lines := Lines(contents.value);
      var i := 0;
      while i < |lines|
        invariant 0 <= i <= |lines|
        invariant forall k :: 0 <= k < i ==> !IsUnifiedEntry(lines[k])
      {
        if StartsWith(lines[i], "0::") {
          FirstWhereAt(lines, IsUnifiedEntry, i);
          return lines[i][3..];
        }
        i := i + 1;
      }
      i := 0;
      while i < |lines|
        invariant 0 <= i <= |lines|
        invariant forall k :: 0 <= k < i ==> !IsMemoryEntry(lines[k])
      {
        if Contains(lines[i], ":memory:") {
          var parts := Split(lines[i], ':');
          if |parts| >= 3 {
            FirstWhereAt(lines, IsMemoryEntry, i);
            return parts[2];
          }
        }
        i := i + 1;
      }
    }
    return "";
  }

  // ------------------------------------------------------------ properties

  /** The first v2 line decides, whatever v1 lines come before or after it. */
  lemma UnifiedEntryWins(contents: string, i: nat)
    requires i < |Lines(contents)| && IsUnifiedEntry(Lines(contents)[i])
    requires forall k :: 0 <= k < i ==> !IsUnifiedEntry(Lines(contents)[k])
    ensures CgroupPathOfListing(contents) == Lines(contents)[i][3..]
  {
    FirstWhereAt(Lines(contents), IsUnifiedEntry, i);
  }

  /** Without a v2 line, the first line containing `:memory:` decides, and
      its third field (not its last) is the path. */
  lemma MemoryEntryDecides(contents: string, j: nat)
    requires forall k :: 0 <= k < |Lines(contents)| ==> !IsUnifiedEntry(Lines(contents)[k])
    requires j < |Lines(contents)| && Contains(Lines(contents)[j], ":memory:")
    requires forall k :: 0 <= k < j ==> !Contains(Lines(contents)[k], ":memory:")
    ensures |Split(Lines(contents)[j], ':')| >= 3
    ensures CgroupPathOfListing(contents) == Split(Lines(contents)[j], ':')[2]
  {
    var lines := Lines(contents);
    MemoryMarkerHasThreeFields(lines[j]);
    FirstWhereAt(lines, IsMemoryEntry, j);
  }

  /** With neither kind of line the path is empty. */
  lemma NoEntryMeansRoot(contents: string)
    requires forall k :: 0 <= k < |Lines(contents)| ==> !IsUnifiedEntry(Lines(contents)[k])
    requires forall k :: 0 <= k < |Lines(contents)| ==> !Contains(Lines(contents)[k], ":memory:")
    ensures CgroupPathOfListing(contents) == ""
  {
  }

  /** A line that contains `:memory:` holds at least two colons, so the
      `parts.len() >= 3` test of the v1 scan always passes. */
  lemma MemoryMarkerHasThreeFields(line: string)
    requires Contains(line, ":memory:")
    ensures |Split(line, ':')| >= 3
  {
    ContainsAt(line, ":memory:");
    var i :| OccursAt(line, ":memory:", i);
    var before, marker, after := line[..i], line[i..i + 8], line[i + 8..];
    assert line == before + (marker + after);
    OccurrencesAppend(before, marker + after, ':');
    OccurrencesAppend(marker, after, ':');
    assert marker == ":memory:";
    MarkerColons();
    SplitCount(line, ':');
  }

  lemma MarkerColons()
    ensures Occurrences(":memory:", ':') == 2
  {
    assert ":memory:" == [':'] + "memory" + [':'];
    OccurrencesAppend([':'] + "memory", [':'], ':');
    OccurrencesAppend([':'], "memory", ':');
    NoOccurrences("memory", ':');
  }

  /** The third field is not the whole path: a v1 path that itself holds a
      `:` is cut at its first colon. */
  lemma V1PathEndsAtColon(hierarchy: string, path: string, tail: string)
    requires ':' !in hierarchy && ':' !in path
    requires '\n' !in hierarchy && '\n' !in path && '\n' !in tail
    ensures CgroupPathOfListing(hierarchy + ":memory:" + path + ":" + tail) == path
  {
    var rest := path + ":" + tail;
    var line := hierarchy + ":memory:" + rest;
    assert line == hierarchy + ":memory:" + path + ":" + tail;
    NotInAppend(path, ":", '\n');
    NotInAppend(path + ":", tail, '\n');
    NotInAppend(hierarchy, ":memory:", '\n');
    NotInAppend(hierarchy + ":memory:", rest, '\n');
    LinesOfLine(line);
    V1LineNotUnified(hierarchy, ":memory:" + rest);
    assert hierarchy + (":memory:" + rest) == line;
    V1LineHasMarker(hierarchy, rest);
    V1LineSplit(hierarchy, path, tail);
    FirstWhereAt([line], IsMemoryEntry, 0);
  }

  lemma NotInAppend(a: string, b: string, c: char)
    requires c !in a && c !in b
    ensures c !in a + b
  {
  }

  lemma V1LineNotUnified(hierarchy: string, rest: string)
    requires ':' !in hierarchy && StartsWith(rest, ":m")
    ensures !IsUnifiedEntry(hierarchy + rest)
  {
    var line := hierarchy + rest;
    if |hierarchy| == 0 {
      assert line[0] == ':';
    } else if |hierarchy| == 1 {
      assert line[2] == rest[1];
    } else {
      assert line[1] == hierarchy[1];
    }
  }

  lemma V1LineHasMarker(hierarchy: string, rest: string)
    ensures Contains(hierarchy + ":memory:" + rest, ":memory:")
  {
    var line := hierarchy + ":memory:" + rest;
    assert line[|hierarchy|..|hierarchy| + 8] == ":memory:";
    assert OccursAt(line, ":memory:", |hierarchy|);
    ContainsAt(line, ":memory:");
  }

  lemma V1LineSplit(hierarchy: string, path: string, tail: string)
    requires ':' !in hierarchy && ':' !in path
    ensures |Split(hierarchy + ":memory:" + path + ":" + tail, ':')| >= 3
    ensures Split(hierarchy + ":memory:" + path + ":" + tail, ':')[..3] == [hierarchy, "memory", path]
  {
    var rest2 := path + [':'] + tail;
    var rest1 := "memory" + [':'] + rest2;
    V1LineLayout(hierarchy, path, tail);
    SplitAtFirst(hierarchy, ':', rest1);
    SplitAtFirst("memory", ':', rest2);
    SplitAtFirst(path, ':', tail);
  }

  lemma V1LineLayout(hierarchy: string, path: string, tail: string)
    ensures hierarchy + ":memory:" + path + ":" + tail
            == hierarchy + [':'] + ("memory" + [':'] + (path + [':'] + tail))
  {
    assert ":memory:" == [':'] + "memory" + [':'];
  }
}
