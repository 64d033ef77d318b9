/**
 Git diffs as files and hunks, and the line-driven scanner that reads them.

 Lines are recognised by prefix only; hunk ranges are never interpreted. SHA-1 is an
 arbitrary function from text to text, and the host decides whether a backslash is a
 path separator.
 */
module PatchText {
  import opened Common
  import opened Text

  datatype Hunk = Hunk(id: string, header: string, lines: seq<string>)

  datatype PatchFile = PatchFile(path: string, status: string, headerLines: seq<string>, hunks: seq<Hunk>)

  /** digest: the eight hex digits taken from SHA-1; windows: whether '\\' separates path elements. */
  datatype Host = Host(digest: string -> string, windows: bool)

  predicate IsDiffLine(line: string) { "diff --git " <= line }

  predicate IsHunkLine(line: string) { "@@ " <= line }

  predicate IsPlain(line: string) { !IsDiffLine(line) && !IsHunkLine(line) }

  // ----- paths -----

  function ToSlash(host: Host, path: string): string {
    if !host.windows || path == "" then path
    else [if path[0] == '\\' then '/' else path[0]] + ToSlash(host, path[1..])
  }

  function ParsePatchPath(host: Host, value: string): string {
    var v := TrimChar(TrimSpace(value), '"');
    ToSlash(host, if "a/" <= v || "b/" <= v then v[2..] else v)
  }

  predicate UsablePath(path: string) { path != "" && path != "/dev/null" }

  function ParseDiffGitPath(host: Host, line: string): string {
    var parts := Fields(line);
    if |parts| < 4 then ""
    else if UsablePath(ParsePatchPath(host, parts[3])) then ParsePatchPath(host, parts[3])
    else if UsablePath(ParsePatchPath(host, parts[2])) then ParsePatchPath(host, parts[2])
    else ""
  }

  function MakeHunkId(host: Host, path: string, hunk: Hunk, index: nat): string {
    "h" + Decimal(index) + "_" + host.digest(path + "\n" + hunk.header + "\n" + Join(hunk.lines))
  }

  // ----- the scanner -----

  /** The scanner's variables: finished files, the file and hunk being read, hunks finished in this file. */
  datatype Scanner = Scanner(files: seq<PatchFile>, current: Option<PatchFile>, hunk: Option<Hunk>, index: nat)

  const START := Scanner([], None, None, 0)

  function FlushHunk(host: Host, s: Scanner): Scanner {
    if s.current.None? || s.hunk.None? then s
    else
      var file := s.current.value;
      var hunk := s.hunk.value.(id := MakeHunkId(host, file.path, s.hunk.value, s.index + 1));
      Scanner(s.files, Some(file.(hunks := file.hunks + [hunk])), None, s.index + 1)
  }

  function FlushFile(host: Host, s: Scanner): Scanner {
    if s.current.None? then s
    else
      var t := FlushHunk(host, s);
      var file := t.current.value;
      var named := if file.status == "" then file.(status := "modified") else file;
      Scanner(t.files + [named], None, t.hunk, 0)
  }

  /** What one line after "diff --git" says about the file: its status or its new path. */
  function ReadHeader(host: Host, file: PatchFile, line: string): PatchFile {
    var f := file.(headerLines := file.headerLines + [line]);
    if "new file mode " <= line then f.(status := "added")
    else if "deleted file mode " <= line then f.(status := "deleted")
    else if "rename from " <= line || "rename to " <= line then f.(status := "renamed")
    else if "+++ " <= line then
      var path := ParsePatchPath(host, TrimSpace(line[4..]));
      if UsablePath(path) then f.(path := path) else f
    else f
  }

  function OpenFile(host: Host, line: string): PatchFile {
    PatchFile(ParseDiffGitPath(host, line), "modified", [line], [])
  }

  function Step(host: Host, s: Scanner, line: string): Scanner {
    if IsDiffLine(line) then FlushFile(host, s).(current := Some(OpenFile(host, line)))
    else if s.current.None? then s
    else if IsHunkLine(line) then FlushHunk(host, s).(hunk := Some(Hunk("", line, [])))
    else if s.hunk.Some? then s.(hunk := Some(s.hunk.value.(lines := s.hunk.value.lines + [line])))
    else s.(current := Some(ReadHeader(host, s.current.value, line)))
  }

  function Scan(host: Host, s: Scanner, lines: seq<string>): Scanner {
    if lines == [] then s
    else Step(host, Scan(host, s, lines[..|lines| - 1]), lines[|lines| - 1])
  }

  function ParseLines(host: Host, lines: seq<string>): seq<PatchFile> {
    FlushFile(host, Scan(host, START, lines)).files
  }

  function Parse(host: Host, raw: string): seq<PatchFile> {
    if TrimSpace(Normalize(raw)) == "" then [] else ParseLines(host, Lines(raw))
  }

  // ----- the same text, put back together -----

  function FlattenHunks(hunks: seq<Hunk>): seq<string> {
    if hunks == [] then []
    else
      var last := hunks[|hunks| - 1];
      FlattenHunks(hunks[..|hunks| - 1]) + [last.header] + last.lines
  }

  function FlattenFile(file: PatchFile): seq<string> {
    file.headerLines + FlattenHunks(file.hunks)
  }

  function Flatten(files: seq<PatchFile>): seq<string> {
    if files == [] then [] else Flatten(files[..|files| - 1]) + FlattenFile(files[|files| - 1])
  }

  function FromFirstDiff(lines: seq<string>): seq<string> {
    if lines == [] || IsDiffLine(lines[0]) then lines else FromFirstDiff(lines[1..])
  }

  // ----- what a parsed patch looks like -----

  /** The file a list of header lines describes. */
  function FromHeader(host: Host, headerLines: seq<string>): PatchFile
    requires headerLines != []
  {
    var n := |headerLines|;
    if n == 1 then OpenFile(host, headerLines[0])
    else ReadHeader(host, FromHeader(host, headerLines[..n - 1]), headerLines[n - 1])
  }

  predicate PlainLines(lines: seq<string>) {
    forall l :: l in lines ==> IsPlain(l)
  }

  predicate ShapedHunk(hunk: Hunk) {
    IsHunkLine(hunk.header) && PlainLines(hunk.lines)
  }

  /** Headers start with "diff --git ", hunks with "@@ ", and path and status are what the headers say. */
  ghost predicate ShapedFile(host: Host, file: PatchFile) {
    && file.headerLines != [] && IsDiffLine(file.headerLines[0]) && PlainLines(file.headerLines[1..])
    && (forall k :: k in file.hunks ==> ShapedHunk(k))
    && file.(hunks := []) == FromHeader(host, file.headerLines)
  }

  ghost predicate Shaped(host: Host, files: seq<PatchFile>) {
    forall f :: f in files ==> ShapedFile(host, f)
  }

  function WithIds(host: Host, path: string, hunks: seq<Hunk>): (r: seq<Hunk>)
    ensures |r| == |hunks|
  {
    var n := |hunks|;
    if n == 0 then []
    else WithIds(host, path, hunks[..n - 1]) + [hunks[n - 1].(id := MakeHunkId(host, path, hunks[n - 1], n))]
  }

  function FileWithIds(host: Host, file: PatchFile): PatchFile {
    file.(hunks := WithIds(host, file.path, file.hunks))
  }

  /** The same patch with every hunk ID recomputed from its position and text. */
  function Renumber(host: Host, files: seq<PatchFile>): (r: seq<PatchFile>)
    ensures |r| == |files|
  {
    if files == [] then []
    else Renumber(host, files[..|files| - 1]) + [FileWithIds(host, files[|files| - 1])]
  }

  // ----- every line is kept -----

  function FlattenCurrent(s: Scanner): seq<string> {
    (if s.current.Some? then FlattenFile(s.current.value) else [])
    + (if s.hunk.Some? then [s.hunk.value.header] + s.hunk.value.lines else [])
  }

  function FlattenOpen(s: Scanner): seq<string> {
    Flatten(s.files) + FlattenCurrent(s)
  }

  lemma FlushHunkFlatten(host: Host, s: Scanner)
    requires s.current.Some?
    ensures FlattenCurrent(FlushHunk(host, s)) == FlattenCurrent(s)
  {
    if s.hunk.Some? {
      var file := s.current.value;
      var hunk := s.hunk.value.(id := MakeHunkId(host, file.path, s.hunk.value, s.index + 1));
      assert (file.hunks + [hunk])[..|file.hunks|] == file.hunks;
    }
  }

  lemma FlushFileFlatten(host: Host, s: Scanner)
    requires s.hunk.Some? ==> s.current.Some?
    ensures FlattenOpen(FlushFile(host, s)) == FlattenOpen(s)
  {
    if s.current.Some? {
      FlushHunkFlatten(host, s);
      var t := FlushFile(host, s);
      assert t.files[..|t.files| - 1] == s.files;
    }
  }

  lemma StepFlatten(host: Host, s: Scanner, line: string)
    requires s.hunk.Some? ==> s.current.Some?
    requires s.current.Some? && s.hunk.None? ==> s.current.value.hunks == []
    ensures FlattenOpen(Step(host, s, line))
         == if s.current.Some? || IsDiffLine(line) then FlattenOpen(s) + [line] else FlattenOpen(s)
  {
    var t := Step(host, s, line);
    if IsDiffLine(line) {
      FlushFileFlatten(host, s);
      assert FlattenCurrent(t) == [line];
    } else if s.current.None? {
    } else {
      assert t.files == s.files;
      assert FlattenCurrent(t) == FlattenCurrent(s) + [line] by { StepFlattenInside(host, s, line); }
    }
  }

  lemma StepFlattenInside(host: Host, s: Scanner, line: string)
    requires s.current.Some? && !IsDiffLine(line)
    requires s.hunk.None? ==> s.current.value.hunks == []
    ensures FlattenCurrent(Step(host, s, line)) == FlattenCurrent(s) + [line]
  {
    if IsHunkLine(line) {
      FlushHunkFlatten(host, s);
      assert FlushHunk(host, s).hunk.None?;
    }
  }

  // ----- what the scanner builds is well shaped -----

  ghost predicate FileOk(host: Host, file: PatchFile) {
    ShapedFile(host, file) && FileWithIds(host, file) == file && file.status != ""
  }

  ghost predicate FilesOk(host: Host, files: seq<PatchFile>) {
    Shaped(host, files) && Renumber(host, files) == files
  }

  ghost predicate CurrentOk(host: Host, s: Scanner) {
    && (s.hunk.Some? ==> s.current.Some? && ShapedHunk(s.hunk.value) && s.hunk.value.id == "")
    && (s.current.None? ==> s.index == 0)
    && (s.current.Some? ==> FileOk(host, s.current.value) && s.index == |s.current.value.hunks|)
  }

  /** Between lines, a file with no hunk open has no hunk at all, so its header is still being read. */
  ghost predicate Steady(host: Host, s: Scanner) {
    CurrentOk(host, s) && (s.current.Some? && s.hunk.None? ==> s.current.value.hunks == [])
  }

  lemma {:induction false} HeaderNamesStatus(host: Host, headerLines: seq<string>)
    requires headerLines != []
    ensures FromHeader(host, headerLines).status != ""
    ensures FromHeader(host, headerLines).headerLines == headerLines
    ensures FromHeader(host, headerLines).hunks == []
  {
    if |headerLines| > 1 {
      HeaderNamesStatus(host, headerLines[..|headerLines| - 1]);
    }
  }

  lemma FlushHunkOk(host: Host, s: Scanner)
    requires CurrentOk(host, s)
    ensures CurrentOk(host, FlushHunk(host, s))
    ensures FlushHunk(host, s).files == s.files && FlushHunk(host, s).hunk.None?
  {
    if s.hunk.Some? {
      var file := s.current.value;
      var hunk := s.hunk.value.(id := MakeHunkId(host, file.path, s.hunk.value, s.index + 1));
      var hunks := file.hunks + [hunk];
      assert hunks[..|hunks| - 1] == file.hunks;
      assert WithIds(host, file.path, hunks) == hunks;
      assert forall k :: k in hunks ==> ShapedHunk(k);
    }
  }

  lemma FilesOkSnoc(host: Host, files: seq<PatchFile>, file: PatchFile)
    requires FilesOk(host, files) && FileOk(host, file)
    ensures FilesOk(host, files + [file])
  {
    assert (files + [file])[..|files|] == files;
  }

  lemma FlushFileOk(host: Host, s: Scanner)
    requires FilesOk(host, s.files) && CurrentOk(host, s)
    ensures FilesOk(host, FlushFile(host, s).files)
    ensures CurrentOk(host, FlushFile(host, s))
    ensures FlushFile(host, s).current.None? && FlushFile(host, s).hunk.None?
  {
    FlushHunkOk(host, s);
    if s.current.Some? {
      FilesOkSnoc(host, s.files, FlushHunk(host, s).current.value);
    }
  }

  lemma ReadHeaderOk(host: Host, file: PatchFile, line: string)
    requires FileOk(host, file) && file.hunks == [] && IsPlain(line)
    ensures FileOk(host, ReadHeader(host, file, line)) && ReadHeader(host, file, line).hunks == []
  {
    var ls := file.headerLines + [line];
    assert ls[..|ls| - 1] == file.headerLines && ls[1..] == file.headerLines[1..] + [line];
    assert file == file.(hunks := []);
    HeaderNamesStatus(host, ls);
  }

  lemma StepOk(host: Host, s: Scanner, line: string)
    requires FilesOk(host, s.files) && Steady(host, s)
    ensures FilesOk(host, Step(host, s, line).files) && Steady(host, Step(host, s, line))
    ensures Step(host, s, line).current.Some? <==> s.current.Some? || IsDiffLine(line)
  {
    if IsDiffLine(line) {
      FlushFileOk(host, s);
      assert FileOk(host, OpenFile(host, line));
    } else if s.current.None? {
    } else if IsHunkLine(line) {
      FlushHunkOk(host, s);
    } else if s.hunk.None? {
      ReadHeaderOk(host, s.current.value, line);
    }
  }

  lemma {:induction false} FirstDiffSnoc(lines: seq<string>, line: string)
    ensures FromFirstDiff(lines + [line])
         == if FromFirstDiff(lines) != [] then FromFirstDiff(lines) + [line]
            else if IsDiffLine(line) then [line] else []
  {
    if lines == [] {
    } else {
      assert (lines + [line])[1..] == lines[1..] + [line];
      FirstDiffSnoc(lines[1..], line);
    }
  }

  /** The scanner has read `lines`: nothing from the first "diff --git " line on is lost. */
  ghost predicate HasRead(host: Host, lines: seq<string>, s: Scanner) {
    && FilesOk(host, s.files) && Steady(host, s)
    && FlattenOpen(s) == FromFirstDiff(lines)
    && (s.current.Some? <==> FromFirstDiff(lines) != [])
  }

  lemma StepReads(host: Host, lines: seq<string>, s: Scanner, line: string)
    requires HasRead(host, lines, s)
    ensures HasRead(host, lines + [line], Step(host, s, line))
  {
    StepOk(host, s, line);
    StepFlatten(host, s, line);
    FirstDiffSnoc(lines, line);
  }

  lemma {:induction false} ScanOk(host: Host, lines: seq<string>)
    ensures HasRead(host, lines, Scan(host, START, lines))
  {
    if lines != [] {
      var before, line := lines[..|lines| - 1], lines[|lines| - 1];
      ScanOk(host, before);
      StepReads(host, before, Scan(host, START, before), line);
      assert lines == before + [line];
    }
  }

  lemma ParseLinesOk(host: Host, lines: seq<string>)
    ensures Flatten(ParseLines(host, lines)) == FromFirstDiff(lines)
    ensures FilesOk(host, ParseLines(host, lines))
  {
    var s := Scan(host, START, lines);
    ScanOk(host, lines);
    FlushFileOk(host, s);
    FlushFileFlatten(host, s);
  }

  lemma FlattenIsEmpty(host: Host, files: seq<PatchFile>)
    requires Shaped(host, files)
    ensures Flatten(files) == [] ==> files == []
  {
    if files != [] {
      assert ShapedFile(host, files[|files| - 1]);
    }
  }

  lemma DiffLineIsNotBlank(line: string)
    requires IsDiffLine(line)
    ensures !AllSpace(line)
  {
    assert line[0] == 'd';
    assert !IsSpace(line[0]);
  }

  lemma {:induction false} NoDiffLine(lines: seq<string>)
    requires forall l :: l in lines ==> !IsDiffLine(l)
    ensures FromFirstDiff(lines) == []
  {
    if lines != [] {
      assert lines[0] in lines;
      NoDiffLine(lines[1..]);
    }
  }

  /** The early return on blank input agrees with the scanner. */
  lemma ParseIsScan(host: Host, raw: string)
    ensures Parse(host, raw) == ParseLines(host, Lines(raw))
  {
    if TrimSpace(Normalize(raw)) == "" {
      BlankIsAllSpace(Normalize(raw));
      SplitOfSpaces(Normalize(raw));
      forall l | l in Lines(raw) ensures !IsDiffLine(l) {
        assert AllSpace(l);
        if IsDiffLine(l) { DiffLineIsNotBlank(l); }
      }
      NoDiffLine(Lines(raw));
      ParseLinesOk(host, Lines(raw));
      FlattenIsEmpty(host, ParseLines(host, Lines(raw)));
    }
  }

  // ----- the scanner is the only reader -----

  lemma {:induction false} ScanAppend(host: Host, s: Scanner, a: seq<string>, b: seq<string>)
    ensures Scan(host, s, a + b) == Scan(host, Scan(host, s, a), b)
  {
    if b == [] {
      assert a + b == a;
    } else {
      assert (a + b)[..|a + b| - 1] == a + b[..|b| - 1];
      ScanAppend(host, s, a, b[..|b| - 1]);
    }
  }

  lemma ScanSnoc(host: Host, s: Scanner, lines: seq<string>, line: string)
    ensures Scan(host, s, lines + [line]) == Step(host, Scan(host, s, lines), line)
  {
    assert (lines + [line])[..|lines|] == lines;
  }

  lemma StepHeader(host: Host, done: seq<PatchFile>, ls: seq<string>, line: string)
    requires ls != [] && IsPlain(line)
    ensures Step(host, Scanner(done, Some(FromHeader(host, ls)), None, 0), line)
         == Scanner(done, Some(FromHeader(host, ls + [line])), None, 0)
  {
    assert (ls + [line])[..|ls|] == ls;
  }

  lemma StepBody(host: Host, s: Scanner, header: string, lines: seq<string>, line: string)
    requires s.current.Some? && IsPlain(line)
    ensures Step(host, s.(hunk := Some(Hunk("", header, lines))), line)
         == s.(hunk := Some(Hunk("", header, lines + [line])))
  {
  }

  lemma StepDiff(host: Host, s: Scanner, line: string)
    requires IsDiffLine(line)
    requires s.current.None? ==> s.hunk.None? && s.index == 0
    ensures Step(host, s, line) == Scanner(FlushFile(host, s).files, Some(FromHeader(host, [line])), None, 0)
  {
  }

  lemma {:induction false} ScanHeader(host: Host, s: Scanner, first: string, rest: seq<string>)
    requires IsDiffLine(first) && PlainLines(rest)
    requires s.current.None? ==> s.hunk.None? && s.index == 0
    ensures Scan(host, s, [first] + rest)
         == Scanner(FlushFile(host, s).files, Some(FromHeader(host, [first] + rest)), None, 0)
  {
    var n := |rest|;
    if n == 0 {
      ScanSnoc(host, s, [], first);
      StepDiff(host, s, first);
      assert [first] + rest == [] + [first];
    } else {
      var ls := [first] + rest[..n - 1];
      assert [first] + rest == ls + [rest[n - 1]];
      ScanHeader(host, s, first, rest[..n - 1]);
      ScanSnoc(host, s, ls, rest[n - 1]);
      StepHeader(host, FlushFile(host, s).files, ls, rest[n - 1]);
    }
  }

  lemma {:induction false} ScanHunk(host: Host, s: Scanner, header: string, lines: seq<string>)
    requires s.current.Some? && IsHunkLine(header) && PlainLines(lines)
    ensures Scan(host, s, [header] + lines) == FlushHunk(host, s).(hunk := Some(Hunk("", header, lines)))
  {
    var n := |lines|;
    if n == 0 {
      ScanSnoc(host, s, [], header);
      assert [header] + lines == [] + [header];
    } else {
      var ls := [header] + lines[..n - 1];
      assert [header] + lines == ls + [lines[n - 1]];
      ScanHunk(host, s, header, lines[..n - 1]);
      ScanSnoc(host, s, ls, lines[n - 1]);
      StepBody(host, FlushHunk(host, s), header, lines[..n - 1], lines[n - 1]);
      assert lines[..n - 1] + [lines[n - 1]] == lines;
    }
  }

  /** Where the scanner stands after the last line of a file. */
  function AfterFile(host: Host, done: seq<PatchFile>, file: PatchFile): Scanner {
    var n := |file.hunks|;
    if n == 0 then Scanner(done, Some(file), None, 0)
    else Scanner(done, Some(file.(hunks := WithIds(host, file.path, file.hunks[..n - 1]))),
                 Some(file.hunks[n - 1].(id := "")), n - 1)
  }

  lemma FlushAfterFile(host: Host, done: seq<PatchFile>, file: PatchFile)
    requires file.status != ""
    ensures FlushFile(host, AfterFile(host, done, file))
         == Scanner(done + [FileWithIds(host, file)], None, None, 0)
  {
  }

  lemma AfterNextHunk(host: Host, done: seq<PatchFile>, file: PatchFile, hunk: Hunk)
    ensures FlushHunk(host, AfterFile(host, done, file)).(hunk := Some(hunk.(id := "")))
         == AfterFile(host, done, file.(hunks := file.hunks + [hunk]))
  {
    var hunks := file.hunks + [hunk];
    assert hunks[..|hunks| - 1] == file.hunks;
  }

  lemma ScanBareFile(host: Host, s: Scanner, file: PatchFile)
    requires s.current.None? ==> s.hunk.None? && s.index == 0
    requires ShapedFile(host, file) && file.hunks == []
    ensures Scan(host, s, FlattenFile(file)) == AfterFile(host, FlushFile(host, s).files, file)
  {
    var first, rest := file.headerLines[0], file.headerLines[1..];
    ScanHeader(host, s, first, rest);
    assert FlattenFile(file) == [first] + rest == file.headerLines;
    assert file == file.(hunks := []);
  }

  lemma DropLastHunk(host: Host, file: PatchFile, before: PatchFile, last: Hunk)
    requires ShapedFile(host, file) && file.hunks == before.hunks + [last] && file == before.(hunks := file.hunks)
    ensures ShapedFile(host, before) && ShapedHunk(last)
    ensures FlattenFile(file) == FlattenFile(before) + ([last.header] + last.lines)
  {
    assert before.(hunks := []) == file.(hunks := []);
    assert last in file.hunks;
    assert file.hunks[..|file.hunks| - 1] == before.hunks;
  }

  lemma {:induction false} ScanFile(host: Host, s: Scanner, file: PatchFile)
    requires s.current.None? ==> s.hunk.None? && s.index == 0
    requires ShapedFile(host, file)
    ensures Scan(host, s, FlattenFile(file)) == AfterFile(host, FlushFile(host, s).files, file)
    decreases |file.hunks|
  {
    if file.hunks == [] {
      ScanBareFile(host, s, file);
    } else {
      var last := file.hunks[|file.hunks| - 1];
      var before := file.(hunks := file.hunks[..|file.hunks| - 1]);
      DropLastHunk(host, file, before, last);
      ScanFile(host, s, before);
      ScanNextHunk(host, s, FlushFile(host, s).files, before, last);
      assert before.(hunks := before.hunks + [last]) == file;
    }
  }

  lemma ScanNextHunk(host: Host, s: Scanner, done: seq<PatchFile>, file: PatchFile, hunk: Hunk)
    requires ShapedHunk(hunk)
    requires Scan(host, s, FlattenFile(file)) == AfterFile(host, done, file)
    ensures Scan(host, s, FlattenFile(file) + ([hunk.header] + hunk.lines))
         == AfterFile(host, done, file.(hunks := file.hunks + [hunk]))
  {
    ScanAppend(host, s, FlattenFile(file), [hunk.header] + hunk.lines);
    ScanHunk(host, AfterFile(host, done, file), hunk.header, hunk.lines);
    AfterNextHunk(host, done, file, hunk);
  }

  lemma {:induction false} ScanFiles(host: Host, files: seq<PatchFile>)
    requires Shaped(host, files)
    ensures FlushFile(host, Scan(host, START, Flatten(files))) == Scanner(Renumber(host, files), None, None, 0)
    ensures Scan(host, START, Flatten(files)).current.None? ==> Scan(host, START, Flatten(files)) == START
  {
    if files != [] {
      var before, last := files[..|files| - 1], files[|files| - 1];
      assert ShapedFile(host, last);
      HeaderNamesStatus(host, last.headerLines);
      ScanFiles(host, before);
      var s := Scan(host, START, Flatten(before));
      ScanAppend(host, START, Flatten(before), FlattenFile(last));
      ScanFile(host, s, last);
      FlushAfterFile(host, FlushFile(host, s).files, last);
    }
  }

  /** Any well-shaped patch is read back from its own lines, up to hunk IDs. */
  lemma ReadBack(host: Host, files: seq<PatchFile>)
    requires Shaped(host, files)
    ensures ParseLines(host, Flatten(files)) == Renumber(host, files)
  {
    ScanFiles(host, files);
  }

  /**
   Parsing is lossless and has exactly one possible outcome: the result is the one well-shaped,
   properly numbered patch whose lines are the normalised input from the first "diff --git " line on.
   */
  lemma ParseCharacterised(host: Host, raw: string, files: seq<PatchFile>)
    ensures files == Parse(host, raw) <==>
              Shaped(host, files) && Renumber(host, files) == files && Flatten(files) == FromFirstDiff(Lines(raw))
  {
    ParseIsScan(host, raw);
    ParseLinesOk(host, Lines(raw));
    ReadBack(host, ParseLines(host, Lines(raw)));
    if Shaped(host, files) {
      ReadBack(host, files);
    }
  }

  // ----- hunk IDs -----

  lemma {:induction false} IdAt(host: Host, path: string, hunks: seq<Hunk>, i: nat)
    requires i < |hunks|
    ensures WithIds(host, path, hunks)[i] == hunks[i].(id := MakeHunkId(host, path, hunks[i], i + 1))
  {
    if i < |hunks| - 1 {
      IdAt(host, path, hunks[..|hunks| - 1], i);
    }
  }

  lemma {:induction false} RenumberedFile(host: Host, files: seq<PatchFile>, k: nat)
    requires k < |files|
    ensures Renumber(host, files)[k] == FileWithIds(host, files[k])
  {
    if k < |files| - 1 {
      RenumberedFile(host, files[..|files| - 1], k);
    }
  }

  /** Within a parsed file hunk IDs are pairwise distinct, whatever the hash returns. */
  lemma HunkIdsDistinct(host: Host, raw: string, k: nat, i: nat, j: nat)
    requires k < |Parse(host, raw)| && i < j < |Parse(host, raw)[k].hunks|
    ensures Parse(host, raw)[k].hunks[i].id != Parse(host, raw)[k].hunks[j].id
  {
    var files := Parse(host, raw);
    ParseCharacterised(host, raw, files);
    RenumberedFile(host, files, k);
    var f := files[k];
    IdAt(host, f.path, f.hunks, i);
    IdAt(host, f.path, f.hunks, j);
    IdsOfDifferentPositions(host, f.path, f.hunks[i], i + 1, f.hunks[j], j + 1);
  }

  lemma IdsOfDifferentPositions(host: Host, path: string, a: Hunk, i: nat, b: Hunk, j: nat)
    ensures MakeHunkId(host, path, a, i) == MakeHunkId(host, path, b, j) ==> i == j
  {
    var x, y := MakeHunkId(host, path, a, i), MakeHunkId(host, path, b, j);
    if x == y {
      var p := host.digest(path + "\n" + a.header + "\n" + Join(a.lines));
      var q := host.digest(path + "\n" + b.header + "\n" + Join(b.lines));
      assert x[1..] == Decimal(i) + "_" + p && y[1..] == Decimal(j) + "_" + q;
      NumeralPrefix(i, j, p, q);
    }
  }

  // ----- the loop -----

  method CloseHunk(host: Host, file: PatchFile, hunk: Option<Hunk>, index: nat, ghost files: seq<PatchFile>)
    returns (closed: PatchFile, next: nat)
    ensures Scanner(files, Some(closed), None, next) == FlushHunk(host, Scanner(files, Some(file), hunk, index))
  {
    closed, next := file, index;
    if hunk.Some? {
      next := index + 1;
      var id := MakeHunkId(host, file.path, hunk.value, next);
      closed := file.(hunks := file.hunks + [hunk.value.(id := id)]);
    }
  }

  method CloseFile(host: Host, files: seq<PatchFile>, current: Option<PatchFile>, hunk: Option<Hunk>, index: nat)
    returns (all: seq<PatchFile>)
    requires current.None? ==> hunk.None? && index == 0
    ensures Scanner(all, None, None, 0) == FlushFile(host, Scanner(files, current, hunk, index))
  {
    all := files;
    if current.Some? {
      var file, _ := CloseHunk(host, current.value, hunk, index, files);
      if file.status == "" {
        file := file.(status := "modified");
      }
      all := files + [file];
    }
  }

  method NoteHeader(host: Host, file: PatchFile, line: string) returns (f: PatchFile)
    ensures f == ReadHeader(host, file, line)
  {
    hide ParsePatchPath, TrimSpace;
    f := file.(headerLines := file.headerLines + [line]);
    if "new file mode " <= line {
      f := f.(status := "added");
    } else if "deleted file mode " <= line {
      f := f.(status := "deleted");
    } else if "rename from " <= line || "rename to " <= line {
      f := f.(status := "renamed");
    } else if "+++ " <= line {
      var path := ParsePatchPath(host, TrimSpace(line[4..]));
      if UsablePath(path) {
        f := f.(path := path);
      }
    }
  }

  /** The loop over the lines: finished files, the file and the hunk being read, hunks closed in this file. */
  method ScanAll(host: Host, lines: seq<string>) returns (files: seq<PatchFile>)
    ensures files == ParseLines(host, lines)
  {
    hide FlushFile, FlushHunk, ReadHeader, IsDiffLine, IsHunkLine, OpenFile;
    files := [];
    var current: Option<PatchFile>, hunk: Option<Hunk>, index := None, None, 0;
    for i := 0 to |lines|
      invariant current.None? ==> hunk.None? && index == 0
      invariant Scanner(files, current, hunk, index) == Scan(host, START, lines[..i])
    {
      var line := lines[i];
      assert lines[..i + 1][..i] == lines[..i];
      if IsDiffLine(line) {
        files := CloseFile(host, files, current, hunk, index);
        current, hunk, index := Some(OpenFile(host, line)), None, 0;
      } else if current.Some? {
        if IsHunkLine(line) {
          var file, next := CloseHunk(host, current.value, hunk, index, files);
          current, hunk, index := Some(file), Some(Hunk("", line, [])), next;
        } else if hunk.Some? {
          hunk := Some(hunk.value.(lines := hunk.value.lines + [line]));
        } else {
          var file := NoteHeader(host, current.value, line);
          current := Some(file);
        }
      }
    }
    assert lines[..|lines|] == lines;
    files := CloseFile(host, files, current, hunk, index);
  }

  /** parseUnifiedPatch: one pass over the normalised lines, or nothing for blank input. */
  method ParseUnifiedPatch(host: Host, raw: string) returns (files: seq<PatchFile>)
    ensures files == Parse(host, raw)
    ensures Shaped(host, files) && Flatten(files) == FromFirstDiff(Lines(raw))
  {
    var text := Normalize(raw);
    files := [];
    if TrimSpace(text) != "" {
      files := ScanAll(host, Split(text));
    }
    ParseCharacterised(host, raw, files);
  }
}
