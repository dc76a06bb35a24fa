/** The checksum manifest of a release: printing it and checking a directory against it
    (scripts/release_artifacts.py). */
module Manifest {
  import opened Optional
  import opened StableSort
  import opened Text

  datatype File = File(name: string, content: string)

  /** The regular files of a directory, in whatever order it lists them. */
  type Dist = seq<File>

  const CHECKSUM_FILENAME := "SHA256SUMS"
  const DIGITS := 64

  predicate IsHex(c: char) {
    '0' <= c <= '9' || 'a' <= c <= 'f'
  }

  predicate IsDigest(s: string) {
    |s| == DIGITS && forall i :: 0 <= i < |s| ==> IsHex(s[i])
  }

  /** What is known of the digest function. */
  ghost predicate Digests(digest: string -> string) {
    forall content :: IsDigest(digest(content))
  }

  predicate ByName(a: File, b: File) {
    AtMost(a.name, b.name)
  }

  predicate NotManifest(f: File) {
    f.name != CHECKSUM_FILENAME
  }

  /** The files a manifest speaks about, in name order. */
  function Files(dist: Dist): seq<File> {
    Filter(Sorted(dist, ByName), NotManifest)
  }

  // ---- printing ----

  function Line(f: File, digest: string -> string): string {
    digest(f.content) + "  " + f.name
  }

  function Printed(files: seq<File>, digest: string -> string): string {
    if files == [] then "" else Line(files[0], digest) + "\n" + Printed(files[1..], digest)
  }

  function Build(dist: Dist, digest: string -> string): string {
    Printed(Files(dist), digest)
  }

  // ---- checking ----

  predicate IsPlain(name: string) {
    name != "" && forall i :: 0 <= i < |name| ==> name[i] != '/' && name[i] != '\\'
  }

  predicate IsEntry(line: string) {
    |line| > DIGITS + 2 && IsDigest(line[..DIGITS]) && line[DIGITS..DIGITS + 2] == "  " && IsPlain(line[DIGITS + 2..])
  }

  function NameOn(line: string): string
    requires IsEntry(line)
  {
    line[DIGITS + 2..]
  }

  function DigestOn(line: string): string
    requires IsEntry(line)
  {
    line[..DIGITS]
  }

  datatype Entry = Entry(name: string, digest: string, number: nat)

  datatype Problem =
    | NoManifest
    | Malformed(number: nat)
    | Duplicate(number: nat, name: string, first: nat)
    | Missing(name: string)
    | Mismatch(name: string)
    | Unlisted(name: string)

  /** Position of a name among entries, or their number. */
  function Position(entries: seq<Entry>, name: string): (k: nat)
    ensures k <= |entries|
    ensures k < |entries| ==> entries[k].name == name
    ensures forall i :: 0 <= i < k ==> entries[i].name != name
  {
    if entries == [] || entries[0].name == name then 0 else 1 + Position(entries[1..], name)
  }

  predicate Lists(entries: seq<Entry>, name: string) {
    Position(entries, name) < |entries|
  }

  /** The first entry for each name. */
  function Expected(lines: seq<string>): seq<Entry> {
    if lines == [] then []
    else
      var before, line := Expected(lines[..|lines| - 1]), lines[|lines| - 1];
      if IsEntry(line) && !Lists(before, NameOn(line))
      then before + [Entry(NameOn(line), DigestOn(line), |lines|)]
      else before
  }

  function LineProblems(lines: seq<string>): seq<Problem> {
    if lines == [] then []
    else
      var before, line := LineProblems(lines[..|lines| - 1]), lines[|lines| - 1];
      var entries := Expected(lines[..|lines| - 1]);
      if !IsEntry(line) then before + [Malformed(|lines|)]
      else if Lists(entries, NameOn(line))
      then before + [Duplicate(|lines|, NameOn(line), entries[Position(entries, NameOn(line))].number)]
      else before
  }

  function Repeated(lines: seq<string>): set<string> {
    if lines == [] then {}
    else
      var before, line := Repeated(lines[..|lines| - 1]), lines[|lines| - 1];
      if IsEntry(line) && Lists(Expected(lines[..|lines| - 1]), NameOn(line)) then before + {NameOn(line)} else before
  }

  function FileAt(files: seq<File>, name: string): (k: nat)
    ensures k <= |files|
    ensures k < |files| ==> files[k].name == name
    ensures forall i :: 0 <= i < k ==> files[i].name != name
  {
    if files == [] || files[0].name == name then 0 else 1 + FileAt(files[1..], name)
  }

  function EntryProblem(e: Entry, files: seq<File>, digest: string -> string): seq<Problem> {
    var k := FileAt(files, e.name);
    if k == |files| then [Missing(e.name)]
    else if digest(files[k].content) != e.digest then [Mismatch(e.name)]
    else []
  }

  /** A name listed twice has been reported; its digest is not compared. */
  function EntryProblems(entries: seq<Entry>, repeated: set<string>, files: seq<File>, digest: string -> string)
    : seq<Problem>
  {
    if entries == [] then []
    else
      var before, e := EntryProblems(entries[..|entries| - 1], repeated, files, digest), entries[|entries| - 1];
      if e.name in repeated then before else before + EntryProblem(e, files, digest)
  }

  function UnlistedProblems(files: seq<File>, entries: seq<Entry>): seq<Problem> {
    if files == [] then []
    else
      var before, name := UnlistedProblems(files[..|files| - 1], entries), files[|files| - 1].name;
      if Lists(entries, name) then before else before + [Unlisted(name)]
  }

  function Check(dist: Dist, sums: Option<string>, digest: string -> string): seq<Problem> {
    if sums.None? || sums.value == "" then [NoManifest]
    else
      var lines := SplitLines(sums.value);
      LineProblems(lines)
      + EntryProblems(Expected(lines), Repeated(lines), Files(dist), digest)
      + UnlistedProblems(Files(dist), Expected(lines))
  }

  // ---- what no problem means ----

  ghost predicate LinesSound(lines: seq<string>) {
    && (forall i :: 0 <= i < |lines| ==> IsEntry(lines[i]))
    && (forall i, j :: 0 <= i < j < |lines| ==> NameOn(lines[i]) != NameOn(lines[j]))
  }

  ghost predicate Matches(line: string, files: seq<File>, digest: string -> string) {
    IsEntry(line) && exists k :: 0 <= k < |files| && files[k].name == NameOn(line)
                                 && digest(files[k].content) == DigestOn(line)
  }

  ghost predicate ListedIn(f: File, lines: seq<string>) {
    Names(lines, f.name)
  }

  /** One entry a line: well formed, no name twice. */
  function Entries(lines: seq<string>): (r: seq<Entry>)
    requires LinesSound(lines)
    ensures |r| == |lines|
  {
    seq(|lines|, i requires 0 <= i < |lines| => Entry(NameOn(lines[i]), DigestOn(lines[i]), i + 1))
  }

  /** Some line names `name`. */
  ghost predicate Names(lines: seq<string>, name: string) {
    exists i :: 0 <= i < |lines| && IsEntry(lines[i]) && NameOn(lines[i]) == name
  }

  lemma ListsNamed(lines: seq<string>, name: string)
    requires LinesSound(lines)
    ensures Lists(Entries(lines), name) <==> Names(lines, name)
  {
    hide IsEntry, NameOn, DigestOn;
    var es := Entries(lines);
    ListsIff(es, name);
    assert forall i :: 0 <= i < |lines| ==> IsEntry(lines[i]) && es[i].name == NameOn(lines[i]);
    if Lists(es, name) {
      var i :| 0 <= i < |es| && es[i].name == name;
      assert NameOn(lines[i]) == name;
    }
  }

  lemma SoundPush(front: seq<string>, line: string)
    ensures LinesSound(front + [line]) <==> LinesSound(front) && IsEntry(line) && !Names(front, NameOn(line))
    ensures LinesSound(front + [line]) ==>
              Entries(front + [line]) == Entries(front) + [Entry(NameOn(line), DigestOn(line), |front| + 1)]
  {
    hide IsEntry, NameOn, DigestOn;
    var lines := front + [line];
    assert lines[|front|] == line && forall i :: 0 <= i < |front| ==> lines[i] == front[i];
    if LinesSound(lines) {
      assert Entries(lines) == Entries(front) + [Entry(NameOn(line), DigestOn(line), |front| + 1)];
    }
  }

  lemma {:induction false} SoundLines(lines: seq<string>)
    ensures LineProblems(lines) == [] <==> LinesSound(lines)
    ensures LinesSound(lines) ==> Expected(lines) == Entries(lines) && Repeated(lines) == {}
  {
    if lines == [] {
      assert LinesSound(lines) && Entries(lines) == [];
    } else {
      hide IsEntry, NameOn, DigestOn, Lists, LinesSound, Entries, Names;
      var front, line := lines[..|lines| - 1], lines[|lines| - 1];
      assert lines == front + [line];
      SoundLines(front);
      SoundPush(front, line);
      if LinesSound(front) && IsEntry(line) {
        ListsNamed(front, NameOn(line));
      }
    }
  }

  lemma ListsIff(entries: seq<Entry>, name: string)
    ensures Lists(entries, name) <==> exists i :: 0 <= i < |entries| && entries[i].name == name
  {
  }

  ghost predicate Distinct(files: seq<File>) {
    forall i, j :: 0 <= i < j < |files| ==> files[i].name != files[j].name
  }

  lemma EntrySound(line: string, number: nat, files: seq<File>, digest: string -> string)
    requires IsEntry(line) && Distinct(files)
    ensures EntryProblem(Entry(NameOn(line), DigestOn(line), number), files, digest) == []
       <==> Matches(line, files, digest)
  {
    hide IsEntry, NameOn, DigestOn;
    var k := FileAt(files, NameOn(line));
    if Matches(line, files, digest) {
      var m :| 0 <= m < |files| && files[m].name == NameOn(line) && digest(files[m].content) == DigestOn(line);
      assert m == k;
    }
  }

  lemma {:induction false} EntriesSound(lines: seq<string>, files: seq<File>, digest: string -> string)
    requires LinesSound(lines) && Distinct(files)
    ensures EntryProblems(Entries(lines), {}, files, digest) == []
       <==> forall i :: 0 <= i < |lines| ==> Matches(lines[i], files, digest)
  {
    hide IsEntry, NameOn, DigestOn, EntryProblem, Matches;
    if lines != [] {
      var n := |lines| - 1;
      EntriesSound(lines[..n], files, digest);
      assert Entries(lines)[..n] == Entries(lines[..n]);
      EntrySound(lines[n], n + 1, files, digest);
      assert forall i :: 0 <= i < n ==> lines[..n][i] == lines[i];
    }
  }

  lemma {:induction false} UnlistedSound(lines: seq<string>, files: seq<File>)
    requires LinesSound(lines)
    ensures UnlistedProblems(files, Entries(lines)) == []
       <==> forall k :: 0 <= k < |files| ==> ListedIn(files[k], lines)
  {
    hide IsEntry, NameOn, DigestOn;
    hide Names, Lists;
    if files != [] {
      var n := |files| - 1;
      UnlistedSound(lines, files[..n]);
      ListsNamed(lines, files[n].name);
      assert forall k :: 0 <= k < n ==> files[..n][k] == files[k];
    }
  }

  /** A manifest is without problem exactly when it is not empty, every line is well formed, no name is listed
      twice, every listed file is there with that digest, and every file is listed. */
  lemma CheckIff(dist: Dist, sums: Option<string>, digest: string -> string)
    requires Distinct(Files(dist))
    ensures Check(dist, sums, digest) == [] <==>
            && sums.Some? && sums.value != ""
            && var lines := SplitLines(sums.value);
               && LinesSound(lines)
               && (forall i :: 0 <= i < |lines| ==> Matches(lines[i], Files(dist), digest))
               && (forall k :: 0 <= k < |Files(dist)| ==> ListedIn(Files(dist)[k], lines))
  {
    hide Matches, ListedIn, LinesSound, Distinct, Files;
    if sums.Some? && sums.value != "" {
      var lines := SplitLines(sums.value);
      SoundLines(lines);
      if LinesSound(lines) {
        EntriesSound(lines, Files(dist), digest);
        UnlistedSound(lines, Files(dist));
      }
    }
  }

  // ---- printer and checker agree ----

  lemma NamesRank()
    ensures TotalPreorder(ByName)
  {
    forall a: File, b: File
      ensures ByName(a, b) || ByName(b, a)
    {
      AtMostTotal(a.name, b.name);
    }
    forall a: File, b: File, c: File | ByName(a, b) && ByName(b, c)
      ensures ByName(a, c)
    {
      AtMostChain(a.name, b.name, c.name);
    }
  }

  lemma {:induction false} InsertDistinct(s: seq<File>, x: File)
    requires Distinct(s) && forall i :: 0 <= i < |s| ==> s[i].name != x.name
    ensures Distinct(Insert(s, x, ByName))
  {
    hide ByName;
    if s != [] {
      var front, last := s[..|s| - 1], s[|s| - 1];
      InsertDistinct(front, x);
      InsertMembers(front, x, ByName);
      var before := Insert(front, x, ByName);
      forall i | 0 <= i < |before|
        ensures before[i].name != last.name
      {
        assert before[i] in multiset(before);
        assert before[i] == x || before[i] in front;
      }
    }
  }

  lemma {:induction false} SortedDistinct(s: seq<File>)
    requires Distinct(s)
    ensures Distinct(Sorted(s, ByName))
  {
    hide ByName, Insert;
    if s != [] {
      var front, last := s[..|s| - 1], s[|s| - 1];
      SortedDistinct(front);
      SortedPermutes(front, ByName);
      var before := Sorted(front, ByName);
      forall i | 0 <= i < |before|
        ensures before[i].name != last.name
      {
        assert before[i] in multiset(before);
        assert before[i] in front;
      }
      InsertDistinct(before, last);
    }
  }

  lemma {:induction false} FilterDistinct(s: seq<File>)
    requires Distinct(s)
    ensures Distinct(Filter(s, NotManifest))
  {
    hide NotManifest;
    if s != [] {
      var front := s[..|s| - 1];
      FilterDistinct(front);
      forall i | 0 <= i < |Filter(front, NotManifest)|
        ensures Filter(front, NotManifest)[i].name != s[|s| - 1].name
      {
        FilterMember(front, NotManifest, Filter(front, NotManifest)[i]);
      }
    }
  }

  /** A directory has one file of each name, and so has its sorted listing. */
  lemma FilesDistinct(dist: Dist)
    requires Distinct(dist)
    ensures Distinct(Files(dist))
    ensures forall f :: f in Files(dist) <==> f in dist && NotManifest(f)
  {
    hide Distinct, Sorted, Filter, ByName, NotManifest;
    SortedDistinct(dist);
    FilterDistinct(Sorted(dist, ByName));
    SortedPermutes(dist, ByName);
    forall f: File
      ensures f in Files(dist) <==> f in dist && NotManifest(f)
    {
      FilterMember(Sorted(dist, ByName), NotManifest, f);
      assert f in dist <==> f in multiset(dist);
      assert f in Sorted(dist, ByName) <==> f in multiset(Sorted(dist, ByName));
    }
  }

  /** Manifests list their files in name order. */
  lemma FilesInNameOrder(dist: Dist)
    ensures forall i, j :: 0 <= i < j < |Files(dist)| ==> AtMost(Files(dist)[i].name, Files(dist)[j].name)
  {
    hide Sorted, Filter, AtMost;
    NamesRank();
    SortedOrdered(dist, ByName);
    FilterOrdered(Sorted(dist, ByName), NotManifest, ByName);
  }

  predicate NoBreaks(s: string) {
    forall i :: 0 <= i < |s| ==> !IsBreak(s[i])
  }

  /** A name the manifest format can carry. */
  predicate Carriable(name: string) {
    IsPlain(name) && NoBreaks(name)
  }

  lemma {:induction false} FirstBreakAfter(a: string, b: string)
    requires NoBreaks(a)
    ensures FirstBreak(a + "\n" + b) == |a|
  {
    if a == "" {
      assert a + "\n" + b == "\n" + b;
    } else {
      assert (a + "\n" + b)[1..] == a[1..] + "\n" + b;
      FirstBreakAfter(a[1..], b);
    }
  }

  function Lines(files: seq<File>, digest: string -> string): (r: seq<string>)
    ensures |r| == |files|
  {
    seq(|files|, i requires 0 <= i < |files| => Line(files[i], digest))
  }

  lemma SplitFirst(line: string, rest: string)
    requires NoBreaks(line)
    ensures SplitLines(line + "\n" + rest) == [line] + SplitLines(rest)
  {
    hide FirstBreak;
    FirstBreakAfter(line, rest);
    var all := line + "\n" + rest;
    assert all[..|line|] == line && all[|line|] == '\n' && all[|line| + 1..] == rest;
  }

  lemma {:induction false} PrintedLines(files: seq<File>, digest: string -> string)
    requires Digests(digest) && forall i :: 0 <= i < |files| ==> NoBreaks(files[i].name)
    ensures SplitLines(Printed(files, digest)) == Lines(files, digest)
  {
    hide Line, NoBreaks, Digests;
    if files != [] {
      var line, rest := Line(files[0], digest), Printed(files[1..], digest);
      LineUnbroken(files[0], digest);
      SplitFirst(line, rest);
      PrintedLines(files[1..], digest);
      assert Lines(files, digest) == [line] + Lines(files[1..], digest);
    }
  }

  lemma LineUnbroken(f: File, digest: string -> string)
    requires Digests(digest) && NoBreaks(f.name)
    ensures NoBreaks(Line(f, digest))
  {
    var d := digest(f.content);
    assert IsDigest(d);
    forall i | 0 <= i < |d|
      ensures !IsBreak(d[i])
    {
      assert IsHex(d[i]);
    }
  }

  lemma LineIsEntry(f: File, digest: string -> string)
    requires Digests(digest) && IsPlain(f.name)
    ensures IsEntry(Line(f, digest)) && NameOn(Line(f, digest)) == f.name
    ensures DigestOn(Line(f, digest)) == digest(f.content)
  {
    var d := digest(f.content);
    assert IsDigest(d);
    assert Line(f, digest)[..DIGITS] == d && Line(f, digest)[DIGITS..DIGITS + 2] == "  ";
    assert Line(f, digest)[DIGITS + 2..] == f.name;
  }

  /** The names a manifest lists never contain a line break, a slash or a backslash. */
  lemma ListedCarriable(f: File, text: string)
    requires ListedIn(f, SplitLines(text))
    ensures Carriable(f.name)
  {
    var lines := SplitLines(text);
    var i :| 0 <= i < |lines| && IsEntry(lines[i]) && NameOn(lines[i]) == f.name;
    forall j | 0 <= j < |f.name|
      ensures !IsBreak(f.name[j])
    {
      assert lines[i] in lines;
      assert f.name[j] == lines[i][DIGITS + 2 + j];
    }
  }

  lemma BuiltSound(files: seq<File>, digest: string -> string)
    requires Digests(digest) && Distinct(files) && forall k :: 0 <= k < |files| ==> Carriable(files[k].name)
    ensures LinesSound(Lines(files, digest))
    ensures forall k :: 0 <= k < |files| ==> Matches(Lines(files, digest)[k], files, digest)
    ensures forall k :: 0 <= k < |files| ==> ListedIn(files[k], Lines(files, digest))
  {
    hide IsEntry, NameOn, DigestOn, IsPlain, NoBreaks, Line;
    var lines := Lines(files, digest);
    forall k | 0 <= k < |files|
      ensures IsEntry(lines[k]) && NameOn(lines[k]) == files[k].name && DigestOn(lines[k]) == digest(files[k].content)
    {
      LineIsEntry(files[k], digest);
    }
  }

  /** Checking a directory against the manifest built from it finds nothing exactly when there is a file to list
      and no file's name holds a slash, a backslash or a line break. */
  lemma RoundTripIff(dist: Dist, digest: string -> string)
    requires Distinct(dist) && Digests(digest)
    ensures Check(dist, Some(Build(dist, digest)), digest) == []
       <==> (exists f :: f in dist && NotManifest(f)) && forall f :: f in dist && NotManifest(f) ==> Carriable(f.name)
  {
    hide Check, SplitLines, Matches, ListedIn, LinesSound, Carriable, Distinct, Files, NotManifest, Digests;
    var files := Files(dist);
    var text := Build(dist, digest);
    FilesDistinct(dist);
    CheckIff(dist, Some(text), digest);
    PrintedNothing(files, digest);
    if Check(dist, Some(text), digest) == [] {
      assert files[0] in dist;
      forall f | f in files
        ensures Carriable(f.name)
      {
        var k :| 0 <= k < |files| && files[k] == f;
        ListedCarriable(f, text);
      }
    }
    if files != [] && forall f :: f in files ==> Carriable(f.name) {
      Unbroken(files);
      PrintedLines(files, digest);
      BuiltSound(files, digest);
    }
  }

  lemma Unbroken(files: seq<File>)
    requires forall f :: f in files ==> Carriable(f.name)
    ensures forall k :: 0 <= k < |files| ==> Carriable(files[k].name) && NoBreaks(files[k].name)
  {
  }

  lemma PrintedNothing(files: seq<File>, digest: string -> string)
    ensures Printed(files, digest) == "" <==> files == []
  {
  }

  // ---- the loops ----

  method CheckChecksums(dist: Dist, sums: Option<string>, digest: string -> string) returns (problems: seq<Problem>)
    requires Distinct(dist)
    ensures problems == Check(dist, sums, digest)
  {
    if sums.None? || sums.value == "" {
      return [NoManifest];
    }
    var lines := SplitLines(sums.value);
    var entries, repeated;
    entries, repeated, problems := ReadLines(lines);
    var files := Files(dist);
    var wrong := CompareEntries(entries, repeated, files, digest);
    var unlisted := FindUnlisted(files, entries);
    problems := problems + wrong + unlisted;
  }

  method CompareEntries(entries: seq<Entry>, repeated: set<string>, files: seq<File>, digest: string -> string)
    returns (problems: seq<Problem>)
    ensures problems == EntryProblems(entries, repeated, files, digest)
  {
    hide FileAt;
    problems := [];
    for i := 0 to |entries|
      invariant problems == EntryProblems(entries[..i], repeated, files, digest)
    {
      assert entries[..i + 1][..i] == entries[..i];
      if entries[i].name !in repeated {
        var k := FileAt(files, entries[i].name);
        if k == |files| {
          problems := problems + [Missing(entries[i].name)];
        } else if digest(files[k].content) != entries[i].digest {
          problems := problems + [Mismatch(entries[i].name)];
        }
      }
    }
    assert entries[..|entries|] == entries;
  }

  method FindUnlisted(files: seq<File>, entries: seq<Entry>) returns (problems: seq<Problem>)
    ensures problems == UnlistedProblems(files, entries)
  {
    hide Lists;
    problems := [];
    for i := 0 to |files|
      invariant problems == UnlistedProblems(files[..i], entries)
    {
      assert files[..i + 1][..i] == files[..i];
      if !Lists(entries, files[i].name) {
        problems := problems + [Unlisted(files[i].name)];
      }
    }
    assert files[..|files|] == files;
  }

  method ReadLines(lines: seq<string>) returns (entries: seq<Entry>, repeated: set<string>, problems: seq<Problem>)
    ensures entries == Expected(lines) && repeated == Repeated(lines) && problems == LineProblems(lines)
  {
    entries, repeated, problems := [], {}, [];
    for i := 0 to |lines|
      invariant entries == Expected(lines[..i]) && repeated == Repeated(lines[..i])
      invariant problems == LineProblems(lines[..i])
    {
      assert lines[..i + 1][..i] == lines[..i];
      var line := lines[i];
      if !IsEntry(line) {
        problems := problems + [Malformed(i + 1)];
      } else if Lists(entries, NameOn(line)) {
        repeated := repeated + {NameOn(line)};
        problems := problems + [Duplicate(i + 1, NameOn(line), entries[Position(entries, NameOn(line))].number)];
      } else {
        entries := entries + [Entry(NameOn(line), DigestOn(line), i + 1)];
      }
    }
    assert lines[..|lines|] == lines;
  }
}
