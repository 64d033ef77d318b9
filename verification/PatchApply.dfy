/**
 Printing a patch and building the text that is handed to `git apply` for a selection of hunks.
 */
module PatchApply {
  import opened Common
  import opened Text
  import opened PatchText

  // ----- the printer -----

  /** The printed lines: files in order, separated by one empty line. */
  function RenderLines(files: seq<PatchFile>): seq<string> {
    var n := |files|;
    if n == 0 then []
    else if n == 1 then FlattenFile(files[0])
    else RenderLines(files[..n - 1]) + [""] + FlattenFile(files[n - 1])
  }

  function Render(files: seq<PatchFile>): string {
    Unlines(RenderLines(files))
  }

  /** One empty line more at the end of the file's last group of lines. */
  function AddBlank(file: PatchFile): PatchFile {
    var n := |file.hunks|;
    if n == 0 then file.(headerLines := file.headerLines + [""])
    else file.(hunks := file.hunks[n - 1 := file.hunks[n - 1].(lines := file.hunks[n - 1].lines + [""])])
  }

  function AddBlanks(files: seq<PatchFile>): (r: seq<PatchFile>)
    ensures |r| == |files|
  {
    if files == [] then [] else AddBlanks(files[..|files| - 1]) + [AddBlank(files[|files| - 1])]
  }

  lemma AddBlankFlatten(file: PatchFile)
    ensures FlattenFile(AddBlank(file)) == FlattenFile(file) + [""]
  {
    var n := |file.hunks|;
    if n > 0 {
      assert AddBlank(file).hunks[..n - 1] == file.hunks[..n - 1];
    }
  }

  lemma AddBlankShaped(host: Host, file: PatchFile)
    requires ShapedFile(host, file)
    ensures ShapedFile(host, AddBlank(file))
  {
    var n := |file.hunks|;
    if n == 0 {
      var ls := file.headerLines + [""];
      assert ls[..|ls| - 1] == file.headerLines && ls[1..] == file.headerLines[1..] + [""];
      assert file == file.(hunks := []);
    } else {
      var g := AddBlank(file);
      assert ShapedHunk(file.hunks[n - 1]);
      assert ShapedHunk(g.hunks[n - 1]);
      assert g.(hunks := []) == file.(hunks := []);
    }
  }

  lemma {:induction false} AddBlanksShaped(host: Host, files: seq<PatchFile>)
    requires Shaped(host, files)
    ensures Shaped(host, AddBlanks(files))
  {
    if files != [] {
      assert ShapedFile(host, files[|files| - 1]);
      AddBlanksShaped(host, files[..|files| - 1]);
      AddBlankShaped(host, files[|files| - 1]);
    }
  }

  lemma {:induction false} RenderedLines(files: seq<PatchFile>)
    requires files != []
    ensures RenderLines(files) + [""] == Flatten(AddBlanks(files))
  {
    var n := |files|;
    AddBlankFlatten(files[n - 1]);
    if n == 1 {
      assert files[..0] == [];
      assert Flatten(AddBlanks(files)) == FlattenFile(AddBlank(files[0]));
    } else {
      RenderedLines(files[..n - 1]);
    }
  }

  predicate NoTrailingCR(lines: seq<string>) {
    forall l :: l in lines ==> !EndsInCR(l)
  }

  lemma StripNothing(lines: seq<string>)
    ensures StripCRs(lines) == lines <==> NoTrailingCR(lines)
  {
    if StripCRs(lines) == lines {
      forall l | l in lines ensures !EndsInCR(l) {
        var i :| 0 <= i < |lines| && lines[i] == l;
        assert StripCR(lines[i]) == lines[i];
      }
    }
  }

  lemma {:induction false} RenderLinesNoLineFeed(files: seq<PatchFile>)
    requires NoLineFeed(Flatten(files))
    ensures NoLineFeed(RenderLines(files))
    ensures NoTrailingCR(RenderLines(files)) <==> NoTrailingCR(Flatten(files))
  {
    var n := |files|;
    if n > 0 {
      RenderLinesNoLineFeed(files[..n - 1]);
      assert files[..0] == [];
    }
  }

  lemma StripKeepsDiff(line: string)
    requires IsDiffLine(line)
    ensures IsDiffLine(StripCR(line))
  {
    assert line[..11] == "diff --git ";
    assert line[10] == ' ';
  }

  lemma {:induction false} FirstRenderedLine(host: Host, files: seq<PatchFile>)
    requires Shaped(host, files) && files != []
    ensures RenderLines(files) != [] && IsDiffLine(RenderLines(files)[0])
  {
    assert ShapedFile(host, files[0]);
    if |files| > 1 {
      FirstRenderedLine(host, files[..|files| - 1]);
    }
  }

  /** What a reader sees in the printed text. */
  lemma ReadRendered(host: Host, files: seq<PatchFile>)
    requires Shaped(host, files) && NoLineFeed(Flatten(files)) && files != []
    ensures FromFirstDiff(Lines(Render(files))) == StripCRs(RenderLines(files)) + [""]
  {
    RenderLinesNoLineFeed(files);
    LinesOfUnlines(RenderLines(files));
    FirstRenderedLine(host, files);
    StripKeepsDiff(RenderLines(files)[0]);
  }

  /** The files, as they come back from printing and parsing: one empty line more each, IDs recomputed. */
  function Reprinted(host: Host, files: seq<PatchFile>): seq<PatchFile> {
    Renumber(host, AddBlanks(files))
  }

  lemma RenumberFlatten(host: Host, files: seq<PatchFile>)
    requires Shaped(host, files)
    ensures Flatten(Renumber(host, files)) == Flatten(files)
  {
    ReadBack(host, files);
    ParseLinesOk(host, Flatten(files));
    FlattenStartsWithDiff(host, files);
  }

  lemma FlattenStartsWithDiff(host: Host, files: seq<PatchFile>)
    requires Shaped(host, files)
    ensures FromFirstDiff(Flatten(files)) == Flatten(files)
  {
    if files != [] {
      FirstLineIsDiff(host, files);
    }
  }

  lemma {:induction false} FirstLineIsDiff(host: Host, files: seq<PatchFile>)
    requires Shaped(host, files) && files != []
    ensures Flatten(files) != [] && IsDiffLine(Flatten(files)[0])
  {
    assert ShapedFile(host, files[|files| - 1]);
    if |files| > 1 {
      FirstLineIsDiff(host, files[..|files| - 1]);
    } else {
      assert files[..0] == [];
    }
  }

  /**
   Print then parse. The same files, paths, statuses, headers and hunks come back in the same order,
   each file with one empty line more in its last group and hunk IDs recomputed, exactly when no line
   of the patch ends in a carriage return.
   */
  lemma RoundTrip(host: Host, files: seq<PatchFile>)
    requires Shaped(host, files) && NoLineFeed(Flatten(files))
    ensures Parse(host, Render(files)) == Reprinted(host, files) <==> NoTrailingCR(Flatten(files))
  {
    if files == [] {
      assert Render(files) == "";
    } else {
      var lines := RenderLines(files);
      RenderLinesNoLineFeed(files);
      ReadRendered(host, files);
      RenderedLines(files);
      StripNothing(lines);
      AddBlanksShaped(host, files);
      ReadBack(host, AddBlanks(files));
      RenumberFlatten(host, AddBlanks(files));
      ReprintedIsNumbered(host, files);
      ParseCharacterised(host, Render(files), Reprinted(host, files));
      assert StripCRs(lines) + [""] == lines + [""] <==> StripCRs(lines) == lines;
    }
  }

  lemma ReprintedIsNumbered(host: Host, files: seq<PatchFile>)
    requires Shaped(host, files)
    ensures Shaped(host, Reprinted(host, files))
    ensures Renumber(host, Reprinted(host, files)) == Reprinted(host, files)
  {
    AddBlanksShaped(host, files);
    ReadBack(host, AddBlanks(files));
    ParseLinesOk(host, Flatten(AddBlanks(files)));
  }

  lemma {:induction false} FirstDiffNoLineFeed(lines: seq<string>)
    requires NoLineFeed(lines)
    ensures NoLineFeed(FromFirstDiff(lines))
  {
    if lines != [] && !IsDiffLine(lines[0]) {
      FirstDiffNoLineFeed(lines[1..]);
    }
  }

  lemma ParsedHasNoLineFeed(host: Host, raw: string)
    ensures NoLineFeed(Flatten(Parse(host, raw)))
  {
    ParseCharacterised(host, raw, Parse(host, raw));
    SplitHasNoLineFeed(Normalize(raw));
    FirstDiffNoLineFeed(Lines(raw));
  }

  lemma {:induction false} UnlinesAppend(a: seq<string>, b: seq<string>)
    ensures Unlines(a + b) == Unlines(a) + Unlines(b)
  {
    if a == [] {
      assert a + b == b;
    } else {
      assert (a + b)[1..] == a[1..] + b;
      UnlinesAppend(a[1..], b);
    }
  }

  method WriteLines(text: string, lines: seq<string>) returns (r: string)
    ensures r == text + Unlines(lines)
  {
    r := text;
    for i := 0 to |lines|
      invariant r == text + Unlines(lines[..i])
    {
      UnlinesAppend(lines[..i], [lines[i]]);
      assert lines[..i + 1] == lines[..i] + [lines[i]];
      assert Unlines([lines[i]]) == lines[i] + "\n";
      r := r + lines[i] + "\n";
    }
    assert lines[..|lines|] == lines;
  }

  lemma NextGroup(headerLines: seq<string>, hunks: seq<Hunk>, i: nat)
    requires i < |hunks|
    ensures Unlines(headerLines + FlattenHunks(hunks[..i + 1]))
         == Unlines(headerLines + FlattenHunks(hunks[..i])) + (hunks[i].header + "\n" + Unlines(hunks[i].lines))
  {
    var done := headerLines + FlattenHunks(hunks[..i]);
    var group := [hunks[i].header] + hunks[i].lines;
    UnlinesAppend(done, group);
    assert hunks[..i + 1][..i] == hunks[..i];
    assert done + group == headerLines + FlattenHunks(hunks[..i + 1]);
  }

  method WriteFile(text: string, file: PatchFile) returns (r: string)
    ensures r == text + Unlines(FlattenFile(file))
  {
    r := WriteLines(text, file.headerLines);
    var hunks := file.hunks;
    assert file.headerLines + FlattenHunks(hunks[..0]) == file.headerLines;
    for i := 0 to |hunks|
      invariant r == text + Unlines(file.headerLines + FlattenHunks(hunks[..i]))
    {
      NextGroup(file.headerLines, hunks, i);
      r := r + hunks[i].header + "\n";
      r := WriteLines(r, hunks[i].lines);
    }
    assert hunks[..|hunks|] == hunks;
  }

  /** renderUnifiedPatch */
  method RenderUnifiedPatch(files: seq<PatchFile>) returns (text: string)
    ensures text == Render(files)
  {
    text := "";
    for i := 0 to |files|
      invariant text == Render(files[..i])
    {
      var done := RenderLines(files[..i]);
      assert files[..i + 1][..i] == files[..i];
      if i > 0 {
        text := text + "\n";
        UnlinesAppend(done, [""]);
        UnlinesAppend(done + [""], FlattenFile(files[i]));
      }
      text := WriteFile(text, files[i]);
    }
    assert files[..|files|] == files;
  }

  // ----- selection -----

  datatype SelectedHunk = SelectedHunk(path: string, hunkIds: seq<string>)

  /** A hunk with the file it belongs to. */
  datatype Located = Located(path: string, status: string, headerLines: seq<string>, hunk: Hunk)

  /** The (path, hunk ID) pairs a request names. */
  function Wanted(entries: seq<SelectedHunk>): set<(string, string)> {
    set e, id | e in entries && id in e.hunkIds :: (e.path, id)
  }

  function LocateHunks(file: PatchFile, hunks: seq<Hunk>): seq<Located> {
    if hunks == [] then []
    else LocateHunks(file, hunks[..|hunks| - 1])
         + [Located(file.path, file.status, file.headerLines, hunks[|hunks| - 1])]
  }

  /** All hunks of a patch in order. */
  function Locate(files: seq<PatchFile>): seq<Located> {
    if files == [] then []
    else Locate(files[..|files| - 1]) + LocateHunks(files[|files| - 1], files[|files| - 1].hunks)
  }

  /** The sub-sequence that was asked for. */
  function Keep(hunks: seq<Located>, want: set<(string, string)>): seq<Located> {
    if hunks == [] then []
    else
      var last := hunks[|hunks| - 1];
      var kept := Keep(hunks[..|hunks| - 1], want);
      if (last.path, last.hunk.id) in want then kept + [last] else kept
  }

  function FilterHunks(path: string, hunks: seq<Hunk>, want: set<(string, string)>): (r: seq<Hunk>)
    ensures forall k :: k in r ==> k in hunks
  {
    if hunks == [] then []
    else
      var last := hunks[|hunks| - 1];
      var kept := FilterHunks(path, hunks[..|hunks| - 1], want);
      if (path, last.id) in want then kept + [last] else kept
  }

  function FilterFile(file: PatchFile, want: set<(string, string)>): PatchFile {
    file.(hunks := FilterHunks(file.path, file.hunks, want))
  }

  /** The patch with only the wanted hunks; files left without hunks disappear. */
  function FilterFiles(files: seq<PatchFile>, want: set<(string, string)>): seq<PatchFile> {
    if files == [] then []
    else
      var last := FilterFile(files[|files| - 1], want);
      var kept := FilterFiles(files[..|files| - 1], want);
      if last.hunks != [] then kept + [last] else kept
  }

  function CountHunks(files: seq<PatchFile>): nat {
    if files == [] then 0 else CountHunks(files[..|files| - 1]) + |files[|files| - 1].hunks|
  }

  const NO_SELECTION := "selected mode requires hunk selection"
  const NOT_FOUND := "selected hunks not found in patch"

  /** buildPatchForApply: the text to apply and the number of hunks in it. */
  function BuildPatch(raw: string, parsed: seq<PatchFile>, mode: string, entries: seq<SelectedHunk>)
    : Result<(string, nat)> {
    if mode == "all" || mode == "" then Ok((raw, CountHunks(parsed)))
    else if mode != "selected" then Err("unsupported patch apply mode: " + mode)
    else if entries == [] then Err(NO_SELECTION)
    else
      var kept := FilterFiles(parsed, Wanted(entries));
      if CountHunks(kept) == 0 then Err(NOT_FOUND) else Ok((Render(kept), CountHunks(kept)))
  }

  lemma {:induction false} LocateLength(file: PatchFile, hunks: seq<Hunk>)
    ensures |LocateHunks(file, hunks)| == |hunks|
  {
    if hunks != [] { LocateLength(file, hunks[..|hunks| - 1]); }
  }

  lemma {:induction false} CountIsLength(files: seq<PatchFile>)
    ensures CountHunks(files) == |Locate(files)|
  {
    if files != [] {
      CountIsLength(files[..|files| - 1]);
      LocateLength(files[|files| - 1], files[|files| - 1].hunks);
    }
  }

  lemma {:induction false} KeepAppend(a: seq<Located>, b: seq<Located>, want: set<(string, string)>)
    ensures Keep(a + b, want) == Keep(a, want) + Keep(b, want)
  {
    if b == [] {
      assert a + b == a;
    } else {
      assert (a + b)[..|a + b| - 1] == a + b[..|b| - 1];
      KeepAppend(a, b[..|b| - 1], want);
    }
  }

  lemma {:induction false} FilterHunksKeeps(file: PatchFile, hunks: seq<Hunk>, want: set<(string, string)>)
    ensures LocateHunks(file, FilterHunks(file.path, hunks, want)) == Keep(LocateHunks(file, hunks), want)
  {
    if hunks != [] {
      var before, last := hunks[..|hunks| - 1], hunks[|hunks| - 1];
      FilterHunksKeeps(file, before, want);
      var f := FilterHunks(file.path, before, want);
      assert (f + [last])[..|f|] == f;
      KeepAppend(LocateHunks(file, before), [Located(file.path, file.status, file.headerLines, last)], want);
    }
  }

  lemma {:induction false} LocateSame(a: PatchFile, b: PatchFile, hunks: seq<Hunk>)
    requires a == b.(hunks := a.hunks)
    ensures LocateHunks(a, hunks) == LocateHunks(b, hunks)
  {
    if hunks != [] { LocateSame(a, b, hunks[..|hunks| - 1]); }
  }

  /** Filtering keeps exactly the wanted hunks, in order, under their own file headers. */
  lemma {:induction false} FilterKeeps(files: seq<PatchFile>, want: set<(string, string)>)
    ensures Locate(FilterFiles(files, want)) == Keep(Locate(files), want)
  {
    if files != [] {
      var before, last := files[..|files| - 1], files[|files| - 1];
      FilterKeeps(before, want);
      FilterHunksKeeps(last, last.hunks, want);
      var f, g := FilterFiles(before, want), FilterFile(last, want);
      LocateSame(last, g, g.hunks);
      assert (f + [g])[..|f|] == f;
      KeepAppend(Locate(before), LocateHunks(last, last.hunks), want);
    }
  }

  lemma {:induction false} FilterShaped(host: Host, files: seq<PatchFile>, want: set<(string, string)>)
    requires Shaped(host, files)
    ensures Shaped(host, FilterFiles(files, want))
  {
    if files != [] {
      var last := files[|files| - 1];
      assert ShapedFile(host, last);
      FilterShaped(host, files[..|files| - 1], want);
      assert FilterFile(last, want).(hunks := []) == last.(hunks := []);
      assert ShapedFile(host, FilterFile(last, want));
    }
  }

  lemma {:induction false} FilterHunksLines(path: string, hunks: seq<Hunk>, want: set<(string, string)>)
    ensures forall l :: l in FlattenHunks(FilterHunks(path, hunks, want)) ==> l in FlattenHunks(hunks)
  {
    if hunks != [] {
      var before, last := hunks[..|hunks| - 1], hunks[|hunks| - 1];
      FilterHunksLines(path, before, want);
      var f := FilterHunks(path, before, want);
      assert (f + [last])[..|f|] == f;
    }
  }

  lemma {:induction false} FilterLines(files: seq<PatchFile>, want: set<(string, string)>)
    ensures forall l :: l in Flatten(FilterFiles(files, want)) ==> l in Flatten(files)
  {
    if files != [] {
      var before, last := files[..|files| - 1], files[|files| - 1];
      FilterLines(before, want);
      FilterHunksLines(last.path, last.hunks, want);
      var f, g := FilterFiles(before, want), FilterFile(last, want);
      assert (f + [g])[..|f|] == f;
    }
  }

  lemma {:induction false} KeepNothing(hunks: seq<Located>, want: set<(string, string)>)
    ensures Keep(hunks, want) == [] <==> forall l :: l in hunks ==> (l.path, l.hunk.id) !in want
  {
    if hunks != [] {
      KeepNothing(hunks[..|hunks| - 1], want);
      assert forall l :: l in hunks ==> l in hunks[..|hunks| - 1] || l == hunks[|hunks| - 1];
      assert hunks[|hunks| - 1] in hunks;
    }
  }

  /**
   Selected mode fails exactly when no (path, hunk ID) pair of the patch was asked for. Otherwise the
   count is the number of wanted hunks, and the text, parsed again, is the patch made of exactly those
   hunks in their original order under their full file headers (one empty line more per file, IDs
   recomputed) exactly when none of its lines ends in a carriage return.
   */
  lemma SelectedApply(host: Host, raw: string, entries: seq<SelectedHunk>)
    ensures
      var parsed := Parse(host, raw);
      var want := Wanted(entries);
      var kept := FilterFiles(parsed, want);
      var r := BuildPatch(raw, parsed, "selected", entries);
      && (r.Err? <==> forall l :: l in Locate(parsed) ==> (l.path, l.hunk.id) !in want)
      && (r.Ok? ==>
            && r.value.1 == |Keep(Locate(parsed), want)|
            && Locate(kept) == Keep(Locate(parsed), want)
            && (Parse(host, r.value.0) == Reprinted(host, kept) <==> NoTrailingCR(Flatten(kept))))
  {
    var parsed := Parse(host, raw);
    var want := Wanted(entries);
    var kept := FilterFiles(parsed, want);
    FilterKeeps(parsed, want);
    CountIsLength(kept);
    KeepNothing(Locate(parsed), want);
    ParseCharacterised(host, raw, parsed);
    ParsedHasNoLineFeed(host, raw);
    FilterShaped(host, parsed, want);
    FilterLines(parsed, want);
    RoundTrip(host, kept);
  }

  /** By default the whole diff is applied as it came, and every hunk counts. */
  lemma WholeApply(host: Host, raw: string, mode: string, entries: seq<SelectedHunk>)
    requires mode == "all" || mode == ""
    ensures
      var r := BuildPatch(raw, Parse(host, raw), mode, entries);
      r.Ok? && r.value.0 == raw && r.value.1 == |Locate(Parse(host, raw))|
  {
    hide Parse, Locate;
    CountIsLength(Parse(host, raw));
  }

  /** Exactly when nothing can be applied, and why: an unknown mode, no selection at all, or none that matches. */
  lemma ApplyErrors(host: Host, raw: string, mode: string, entries: seq<SelectedHunk>)
    ensures
      var r := BuildPatch(raw, Parse(host, raw), mode, entries);
      var none := forall l :: l in Locate(Parse(host, raw)) ==> (l.path, l.hunk.id) !in Wanted(entries);
      && (r.Err? <==> (mode != "all" && mode != "" && mode != "selected") || (mode == "selected" && none))
      && (mode != "all" && mode != "" && mode != "selected" ==> r.message == "unsupported patch apply mode: " + mode)
      && (mode == "selected" && entries == [] ==> r == Err("selected mode requires hunk selection"))
      && (mode == "selected" && entries != [] && none ==> r == Err("selected hunks not found in patch"))
  {
    hide Parse, Locate, Wanted, FilterFiles, Keep, CountHunks;
    if mode == "selected" {
      if entries == [] { NothingWanted(); }
      var parsed, want := Parse(host, raw), Wanted(entries);
      FilterKeeps(parsed, want);
      CountIsLength(FilterFiles(parsed, want));
      KeepNothing(Locate(parsed), want);
    }
  }

  lemma NothingWanted()
    ensures Wanted([]) == {}
  {
  }

  /** A diff with one hunk, whose line ends in two carriage returns before the line feed. */
  function DoubleCR(): string { Unlines(["diff --git a/x b/x", "@@ -1 +1 @@", "+a\r\r"]) }

  function OneHunk(host: Host): PatchFile {
    FromHeader(host, ["diff --git a/x b/x"]).(hunks := [Hunk("", "@@ -1 +1 @@", ["+a\r", ""])])
  }

  lemma OneHunkIsShaped(host: Host)
    ensures Shaped(host, [OneHunk(host)])
    ensures Flatten([OneHunk(host)]) == ["diff --git a/x b/x", "@@ -1 +1 @@", "+a\r", ""]
  {
    hide ParseDiffGitPath;
    var file := OneHunk(host);
    var hunk := file.hunks[0];
    HeaderNamesStatus(host, ["diff --git a/x b/x"]);
    assert hunk.lines[0][0] == '+' && IsPlain(hunk.lines[0]) && IsPlain("");
    assert ShapedHunk(hunk);
    assert file.headerLines[1..] == [] && [file][..0] == [] && file.hunks[..0] == [];
    assert FlattenHunks(file.hunks) == [hunk.header] + hunk.lines;
  }

  lemma DoubleCRLines()
    ensures Lines(DoubleCR()) == ["diff --git a/x b/x", "@@ -1 +1 @@", "+a\r", ""]
  {
    var a, b, c := "diff --git a/x b/x", "@@ -1 +1 @@", "+a\r\r";
    assert '\n' !in a && '\n' !in b && '\n' !in c;
    assert StripCR(a) == a && StripCR(b) == b && StripCR(c) == "+a\r";
    hide *;
    ThreeLines(a, b, c);
  }

  lemma ThreeLines(a: string, b: string, c: string)
    requires '\n' !in a && '\n' !in b && '\n' !in c
    ensures Lines(Unlines([a, b, c])) == [StripCR(a), StripCR(b), StripCR(c), ""]
  {
    hide Unlines, Lines, StripCR, StripCRs;
    LinesOfUnlines([a, b, c]);
    assert StripCRs([a, b, c]) == [StripCR(a), StripCR(b), StripCR(c)];
  }

  lemma DoubleCRParsed(host: Host)
    ensures Parse(host, DoubleCR()) == Renumber(host, [OneHunk(host)])
  {
    hide OneHunk, DoubleCR;
    OneHunkIsShaped(host);
    DoubleCRLines();
    ParseIsScan(host, DoubleCR());
    ReadBack(host, [OneHunk(host)]);
  }

  lemma DoubleCRShape(host: Host)
    ensures
      var parsed := Parse(host, DoubleCR());
      |parsed| == 1 && |parsed[0].hunks| == 1 && Flatten(parsed) == ["diff --git a/x b/x", "@@ -1 +1 @@", "+a\r", ""]
  {
    hide DoubleCR, Parse, Renumber, Flatten;
    DoubleCRParsed(host);
    OneHunkIsShaped(host);
    RenumberFlatten(host, [OneHunk(host)]);
    RenumberedFile(host, [OneHunk(host)], 0);
  }

  /** Selecting its hunk gives a text that does not parse back to it: the line has lost a carriage return. */
  lemma TrailingCRIsLost(host: Host)
    ensures
      var parsed := Parse(host, DoubleCR());
      && |parsed| == 1 && |parsed[0].hunks| == 1
      && var entries := [SelectedHunk(parsed[0].path, [parsed[0].hunks[0].id])];
         var r := BuildPatch(DoubleCR(), parsed, "selected", entries);
         && FilterFiles(parsed, Wanted(entries)) == parsed
         && r.Ok? && Parse(host, r.value.0) != Reprinted(host, parsed)
  {
    hide DoubleCR, Parse, Reprinted, BuildPatch, Renumber, Flatten, FilterFiles, Wanted, Locate;
    DoubleCRShape(host);
    var parsed := Parse(host, DoubleCR());
    var entries := [SelectedHunk(parsed[0].path, [parsed[0].hunks[0].id])];
    SelectAll(parsed, entries);
    SelectedApply(host, DoubleCR(), entries);
    assert EndsInCR(Flatten(parsed)[2]);
  }

  lemma SelectAll(files: seq<PatchFile>, entries: seq<SelectedHunk>)
    requires |files| == 1 && |files[0].hunks| == 1
    requires entries == [SelectedHunk(files[0].path, [files[0].hunks[0].id])]
    ensures FilterFiles(files, Wanted(entries)) == files
    ensures |Locate(files)| == 1 && (Locate(files)[0].path, Locate(files)[0].hunk.id) in Wanted(entries)
  {
    var f := files[0];
    assert entries[0] in entries && f.hunks[0].id in entries[0].hunkIds;
    assert files[..0] == [] && f.hunks[..0] == [];
    assert FilterHunks(f.path, f.hunks, Wanted(entries)) == f.hunks;
    OneLocated(files);
  }

  lemma OneLocated(files: seq<PatchFile>)
    requires |files| == 1 && |files[0].hunks| == 1
    ensures var f := files[0]; Locate(files) == [Located(f.path, f.status, f.headerLines, f.hunks[0])]
  {
    var f := files[0];
    assert files[..0] == [] && f.hunks[..0] == [];
    assert LocateHunks(f, f.hunks[..0]) == [] && Locate(files[..0]) == [];
  }

  /** The outcome depends only on the set of pairs, not on the order or repetition of the entries. */
  lemma OnlyPairsMatter(raw: string, parsed: seq<PatchFile>, a: seq<SelectedHunk>, b: seq<SelectedHunk>)
    requires Wanted(a) == Wanted(b)
    ensures var x, y := BuildPatch(raw, parsed, "selected", a), BuildPatch(raw, parsed, "selected", b);
            (x.Ok? <==> y.Ok?) && (x.Ok? ==> x == y)
  {
    var want := Wanted(a);
    FilterKeeps(parsed, want);
    CountIsLength(FilterFiles(parsed, want));
    KeepNothing(Locate(parsed), want);
  }

  /** The nested lookup table: path, then the hunk IDs named for it. */
  method CollectSelection(entries: seq<SelectedHunk>) returns (selected: map<string, set<string>>)
    ensures forall p, id :: (p in selected && id in selected[p]) <==> (p, id) in Wanted(entries)
  {
    selected := map[];
    for i := 0 to |entries|
      invariant forall p, id :: (p in selected && id in selected[p]) <==> (p, id) in Wanted(entries[..i])
    {
      var e := entries[i];
      if e.path !in selected {
        selected := selected[e.path := {}];
      }
      ghost var before := selected;
      for j := 0 to |e.hunkIds|
        invariant e.path in selected && selected.Keys == before.Keys
        invariant forall p :: p in before && p != e.path ==> selected[p] == before[p]
        invariant forall id :: id in selected[e.path] <==> id in before[e.path] || id in e.hunkIds[..j]
      {
        selected := selected[e.path := selected[e.path] + {e.hunkIds[j]}];
      }
      WantedSnoc(entries[..i], e);
      assert entries[..i + 1] == entries[..i] + [e];
    }
    assert entries[..|entries|] == entries;
  }

  lemma WantedSnoc(entries: seq<SelectedHunk>, e: SelectedHunk)
    ensures forall p, id :: (p, id) in Wanted(entries + [e]) <==>
              (p, id) in Wanted(entries) || (p == e.path && id in e.hunkIds)
  {
    forall p, id
      ensures (p, id) in Wanted(entries + [e]) <==> (p, id) in Wanted(entries) || (p == e.path && id in e.hunkIds)
    {
      if p == e.path && id in e.hunkIds {
        assert e in entries + [e];
      }
    }
  }

  method FilterOne(file: PatchFile, ids: set<string>, ghost want: set<(string, string)>) returns (hunks: seq<Hunk>)
    requires forall id :: id in ids <==> (file.path, id) in want
    ensures hunks == FilterHunks(file.path, file.hunks, want)
  {
    hunks := [];
    for j := 0 to |file.hunks|
      invariant hunks == FilterHunks(file.path, file.hunks[..j], want)
    {
      assert file.hunks[..j + 1][..j] == file.hunks[..j];
      if file.hunks[j].id in ids {
        hunks := hunks + [file.hunks[j]];
      }
    }
    assert file.hunks[..|file.hunks|] == file.hunks;
  }

  lemma {:induction false} FilterWithoutPath(path: string, hunks: seq<Hunk>, want: set<(string, string)>)
    requires forall id :: (path, id) !in want
    ensures FilterHunks(path, hunks, want) == []
  {
    if hunks != [] { FilterWithoutPath(path, hunks[..|hunks| - 1], want); }
  }

  /** The filtering loop: the files that keep a hunk, and how many hunks they keep. */
  method FilterPatch(parsed: seq<PatchFile>, selected: map<string, set<string>>, ghost want: set<(string, string)>)
    returns (filtered: seq<PatchFile>, count: nat)
    requires forall p, id :: (p in selected && id in selected[p]) <==> (p, id) in want
    ensures filtered == FilterFiles(parsed, want) && count == CountHunks(filtered)
  {
    filtered, count := [], 0;
    for i := 0 to |parsed|
      invariant filtered == FilterFiles(parsed[..i], want)
      invariant count == CountHunks(filtered)
    {
      var file := parsed[i];
      assert parsed[..i + 1][..i] == parsed[..i];
      if file.path in selected {
        var hunks := FilterOne(file, selected[file.path], want);
        if hunks != [] {
          assert (filtered + [file.(hunks := hunks)])[..|filtered|] == filtered;
          filtered := filtered + [file.(hunks := hunks)];
        }
        count := count + |hunks|;
      } else {
        FilterWithoutPath(file.path, file.hunks, want);
      }
    }
    assert parsed[..|parsed|] == parsed;
  }

  /** buildPatchForApply, with its lookup table and filtering loops. */
  method BuildPatchForApply(raw: string, parsed: seq<PatchFile>, mode: string, entries: seq<SelectedHunk>)
    returns (r: Result<(string, nat)>)
    ensures r == BuildPatch(raw, parsed, mode, entries)
  {
    if mode == "all" || mode == "" {
      r := Ok((raw, CountHunks(parsed)));
    } else if mode != "selected" {
      r := Err("unsupported patch apply mode: " + mode);
    } else if entries == [] {
      r := Err(NO_SELECTION);
    } else {
      var selected := CollectSelection(entries);
      var filtered, count := FilterPatch(parsed, selected, Wanted(entries));
      if count == 0 {
        r := Err(NOT_FOUND);
      } else {
        var text := RenderUnifiedPatch(filtered);
        r := Ok((text, count));
      }
    }
  }
}
