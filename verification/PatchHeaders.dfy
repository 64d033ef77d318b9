/** What the header lines of a parsed file say about its path and its status. */
module PatchHeaders {
  import opened Common
  import opened Text
  import opened PatchText

  // ----- words and trimming -----

  predicate NoSpace(s: string) {
    forall c :: c in s ==> !IsSpace(c)
  }

  lemma {:induction false} NothingToTrim(s: string)
    requires s != "" && !IsSpace(s[0]) && !IsSpace(s[|s| - 1])
    ensures TrimSpace(s) == s
  {
  }

  lemma {:induction false} WordEnds(w: string, rest: string)
    requires NoSpace(w)
    ensures WordLength(w + " " + rest) == |w| && WordLength(w) == |w|
  {
    if w != "" {
      assert w[0] in w && (w + " " + rest)[1..] == w[1..] + " " + rest;
      WordEnds(w[1..], rest);
    } else {
      assert (w + " " + rest)[0] == ' ';
    }
  }

  lemma FirstField(w: string, rest: string)
    requires w != "" && NoSpace(w)
    ensures Fields(w + " " + rest) == [w] + Fields(rest)
    ensures Fields(w) == [w]
  {
    WordEnds(w, rest);
    assert w[0] in w;
    var s := w + " " + rest;
    assert s[..|w|] == w && s[|w|..] == " " + rest && (" " + rest)[1..] == rest;
    assert TrimLeft(s) == s && TrimLeft(" " + rest) == TrimLeft(rest);
    assert Fields(" " + rest) == Fields(rest);
    assert w[..|w|] == w && w[|w|..] == "" && Fields("") == [];
  }

  lemma FourFields(a: string, b: string, c: string, d: string)
    requires a != "" && b != "" && c != "" && d != "" && NoSpace(a) && NoSpace(b) && NoSpace(c) && NoSpace(d)
    ensures Fields(a + " " + b + " " + c + " " + d) == [a, b, c, d]
  {
    hide Fields, NoSpace;
    var cd := c + " " + d;
    var bcd := b + " " + cd;
    FirstField(a, bcd);
    FirstField(b, cd);
    FirstField(c, d);
    FirstField(d, "");
    Regroup(a, b, c, d);
  }

  lemma Regroup(a: string, b: string, c: string, d: string)
    ensures a + " " + b + " " + c + " " + d == a + " " + (b + " " + (c + " " + d))
  {
    assert a + " " + b + " " + (c + " " + d) == a + " " + (b + " " + (c + " " + d));
  }

  // ----- paths -----

  lemma {:induction false} ToSlashPointwise(host: Host, path: string)
    ensures |ToSlash(host, path)| == |path|
    ensures forall i :: 0 <= i < |path| ==>
              ToSlash(host, path)[i] == if host.windows && path[i] == '\\' then '/' else path[i]
  {
    if path != "" { ToSlashPointwise(host, path[1..]); }
  }

  /** A path that can stand at the end of a header line as it is. */
  predicate PlainPath(host: Host, p: string) {
    && UsablePath(p) && !IsSpace(p[|p| - 1]) && p[|p| - 1] != '"'
    && (host.windows ==> '\\' !in p)
  }

  lemma SlashesStay(host: Host, p: string)
    requires host.windows ==> '\\' !in p
    ensures ToSlash(host, p) == p
  {
    ToSlashPointwise(host, p);
  }

  lemma Unquoted(v: string)
    requires v != "" && v[0] != '"' && v[|v| - 1] != '"'
    ensures TrimChar(v, '"') == v && TrimChar("\"" + v + "\"", '"') == v
  {
    var quoted := "\"" + v + "\"";
    assert quoted[1..] == v + "\"" && (v + "\"")[..|v|] == v;
    assert TrimChar(v + "\"", '"') == TrimChar(v, '"');
  }

  /** The side marker is cut off, once; a pair of quotes around marker and path is too. */
  lemma MarkedPath(host: Host, p: string)
    requires PlainPath(host, p)
    ensures ParsePatchPath(host, "a/" + p) == p && ParsePatchPath(host, "b/" + p) == p
    ensures ParsePatchPath(host, "\"b/" + p + "\"") == p
  {
    hide ToSlash, TrimSpace, TrimChar;
    SlashesStay(host, p);
    NothingToTrim("a/" + p);
    NothingToTrim("b/" + p);
    Unquoted("a/" + p);
    Unquoted("b/" + p);
    var quoted := "\"" + ("b/" + p) + "\"";
    NothingToTrim(quoted);
    assert quoted == "\"b/" + p + "\"";
    assert ("a/" + p)[2..] == p && ("b/" + p)[2..] == p;
  }

  lemma NullPath(host: Host)
    ensures ParsePatchPath(host, "/dev/null") == "/dev/null"
  {
    hide ToSlash;
    NothingToTrim("/dev/null");
    SlashesStay(host, "/dev/null");
  }

  /** What a "+++ " line names. */
  function NamedBy(host: Host, line: string): string {
    if "+++ " <= line then ParsePatchPath(host, TrimSpace(line[4..])) else ""
  }

  predicate NamesFile(host: Host, line: string) { UsablePath(NamedBy(host, line)) }

  /** Lines for either side name the file behind the marker; the null device is no file. */
  lemma PlusLines(host: Host, p: string)
    requires PlainPath(host, p)
    ensures forall line :: line in ["+++ a/" + p, "+++ b/" + p, "+++ \"b/" + p + "\""] ==>
              NamesFile(host, line) && NamedBy(host, line) == p
    ensures !NamesFile(host, "+++ /dev/null")
  {
    hide ParsePatchPath, TrimSpace;
    MarkedPath(host, p);
    NullPath(host);
    NothingToTrim("/dev/null");
    NothingToTrim("a/" + p);
    NothingToTrim("b/" + p);
    NothingToTrim("\"b/" + p + "\"");
    assert ("+++ a/" + p)[4..] == "a/" + p && ("+++ b/" + p)[4..] == "b/" + p;
    assert ("+++ \"b/" + p + "\"")[4..] == "\"b/" + p + "\"" && "+++ /dev/null"[4..] == "/dev/null";
  }

  /** The "diff --git" line names the new side, or the old one when the new side is the null device. */
  lemma DiffLinePath(host: Host, p: string)
    requires PlainPath(host, p) && NoSpace(p)
    ensures ParseDiffGitPath(host, "diff --git a/" + p + " b/" + p) == p
    ensures ParseDiffGitPath(host, "diff --git a/" + p + " /dev/null") == p
  {
    hide ParsePatchPath, Fields;
    MarkedPath(host, p);
    NullPath(host);
    DiffFields("a/" + p, "b/" + p);
    DiffFields("a/" + p, "/dev/null");
    assert "diff --git a/" + p + " b/" + p == "diff --git " + ("a/" + p) + " " + ("b/" + p);
    assert "diff --git a/" + p + " /dev/null" == "diff --git " + ("a/" + p) + " " + "/dev/null";
  }

  lemma DiffFields(c: string, d: string)
    requires c != "" && d != "" && NoSpace(c) && NoSpace(d)
    ensures Fields("diff --git " + c + " " + d) == ["diff", "--git", c, d]
  {
    hide Fields;
    FourFields("diff", "--git", c, d);
    assert "diff" + " " + "--git" + " " + c + " " + d == "diff --git " + c + " " + d;
  }

  /** The i-th header line names a file, and no later one does. */
  ghost predicate LastNaming(host: Host, lines: seq<string>, i: int) {
    0 <= i < |lines| && NamesFile(host, lines[i]) && forall k :: i < k < |lines| ==> !NamesFile(host, lines[k])
  }

  predicate IsStatusLine(line: string) {
    "new file mode " <= line || "deleted file mode " <= line || "rename from " <= line || "rename to " <= line
  }

  /** The i-th header line tells a status, and no later one does. */
  ghost predicate LastTelling(lines: seq<string>, i: int) {
    0 <= i < |lines| && IsStatusLine(lines[i]) && forall k :: i < k < |lines| ==> !IsStatusLine(lines[k])
  }

  function StatusTold(line: string): string
    requires IsStatusLine(line)
  {
    if line[0] == 'n' then "added" else if line[0] == 'd' then "deleted" else "renamed"
  }

  /** What one line does to path and status. */
  lemma HeaderLine(host: Host, file: PatchFile, line: string)
    ensures
      var f := ReadHeader(host, file, line);
      && f.status == (if IsStatusLine(line) then StatusTold(line) else file.status)
      && f.path == (if NamesFile(host, line) then NamedBy(host, line) else file.path)
  {
    hide ParsePatchPath, TrimSpace;
  }

  lemma FromHeaderStep(host: Host, lines: seq<string>)
    requires |lines| > 1
    ensures
      var n := |lines| - 1;
      var f, before := FromHeader(host, lines), FromHeader(host, lines[..n]);
      && f.status == (if IsStatusLine(lines[n]) then StatusTold(lines[n]) else before.status)
      && f.path == (if NamesFile(host, lines[n]) then NamedBy(host, lines[n]) else before.path)
  {
    hide ReadHeader, IsStatusLine, NamesFile, NamedBy, StatusTold;
    HeaderLine(host, FromHeader(host, lines[..|lines| - 1]), lines[|lines| - 1]);
  }

  lemma {:induction false} HeaderTells(host: Host, lines: seq<string>, i: int)
    requires LastTelling(lines, i) && IsDiffLine(lines[0])
    ensures FromHeader(host, lines).status == StatusTold(lines[i])
    decreases |lines|
  {
    hide FromHeader, IsStatusLine, StatusTold, NamesFile, NamedBy, IsDiffLine;
    DiffLineTellsNothing(host, lines[0]);
    FromHeaderStep(host, lines);
    if i < |lines| - 1 { HeaderTells(host, lines[..|lines| - 1], i); }
  }

  lemma {:induction false} HeaderTellsNothing(host: Host, lines: seq<string>)
    requires lines != [] && forall l :: l in lines ==> !IsStatusLine(l)
    ensures FromHeader(host, lines).status == "modified"
  {
    hide IsStatusLine, NamesFile, NamedBy, ParseDiffGitPath, ReadHeader;
    if |lines| > 1 {
      FromHeaderStep(host, lines);
      HeaderTellsNothing(host, lines[..|lines| - 1]);
    }
  }

  lemma {:induction false} HeaderNames(host: Host, lines: seq<string>, i: int)
    requires LastNaming(host, lines, i) && IsDiffLine(lines[0])
    ensures FromHeader(host, lines).path == NamedBy(host, lines[i])
    decreases |lines|
  {
    hide FromHeader, IsStatusLine, NamesFile, NamedBy, IsDiffLine;
    DiffLineTellsNothing(host, lines[0]);
    FromHeaderStep(host, lines);
    if i < |lines| - 1 { HeaderNames(host, lines[..|lines| - 1], i); }
  }

  lemma {:induction false} HeaderNamesNothing(host: Host, lines: seq<string>)
    requires lines != [] && forall l :: l in lines ==> !NamesFile(host, l)
    ensures FromHeader(host, lines).path == ParseDiffGitPath(host, lines[0])
  {
    hide IsStatusLine, NamesFile, NamedBy, ParseDiffGitPath, ReadHeader;
    if |lines| > 1 {
      FromHeaderStep(host, lines);
      HeaderNamesNothing(host, lines[..|lines| - 1]);
    }
  }

  lemma DiffLineTellsNothing(host: Host, line: string)
    requires IsDiffLine(line)
    ensures !IsStatusLine(line) && !NamesFile(host, line)
  {
    assert line[0] == 'd' && line[1] == 'i';
  }

  /** A parsed file, as its header says it. */
  lemma ParsedHeader(host: Host, raw: string, k: nat)
    requires k < |Parse(host, raw)|
    ensures
      var f := Parse(host, raw)[k];
      && f.headerLines != [] && IsDiffLine(f.headerLines[0])
      && f.path == FromHeader(host, f.headerLines).path && f.status == FromHeader(host, f.headerLines).status
  {
    hide Parse, FromHeader;
    var files := Parse(host, raw);
    ParseCharacterised(host, raw, files);
    assert files[k] in files;
    var f := files[k];
    assert f.path == f.(hunks := []).path && f.status == f.(hunks := []).status;
  }

  /** The status of a parsed file is told by the last header line that tells one; without any it is "modified". */
  lemma ParsedStatus(host: Host, raw: string, k: nat)
    requires k < |Parse(host, raw)|
    ensures
      var f := Parse(host, raw)[k];
      var h := f.headerLines;
      && (forall i :: LastTelling(h, i) && "new file mode " <= h[i] ==> f.status == "added")
      && (forall i :: LastTelling(h, i) && "deleted file mode " <= h[i] ==> f.status == "deleted")
      && (forall i :: LastTelling(h, i) && ("rename from " <= h[i] || "rename to " <= h[i]) ==> f.status == "renamed")
      && ((forall l :: l in h ==> !IsStatusLine(l)) ==> f.status == "modified")
  {
    hide Parse, FromHeader;
    ParsedHeader(host, raw, k);
    var h := Parse(host, raw)[k].headerLines;
    forall i | LastTelling(h, i) ensures Parse(host, raw)[k].status == StatusTold(h[i]) { HeaderTells(host, h, i); }
    if forall l :: l in h ==> !IsStatusLine(l) { HeaderTellsNothing(host, h); }
  }

  /**
   The path of a parsed file is the one behind the marker in the last "+++ " line that names a file. If none does, it
   is the one in the "diff --git" line, and empty if that line has fewer than four words.
   */
  lemma ParsedPath(host: Host, raw: string, k: nat, p: string)
    requires k < |Parse(host, raw)| && PlainPath(host, p)
    ensures
      var f := Parse(host, raw)[k];
      var h := f.headerLines;
      var none := forall l :: l in h ==> !NamesFile(host, l);
      && (forall i :: LastNaming(host, h, i) && h[i] in ["+++ a/" + p, "+++ b/" + p, "+++ \"b/" + p + "\""] ==>
            f.path == p)
      && h != []
      && (none && NoSpace(p) && h[0] in ["diff --git a/" + p + " b/" + p, "diff --git a/" + p + " /dev/null"] ==>
            f.path == p)
      && (none && |Fields(h[0])| < 4 ==> f.path == "")
  {
    hide Parse, FromHeader, NamesFile, NamedBy, ParsePatchPath, Fields, NoSpace;
    ParsedHeader(host, raw, k);
    var h := Parse(host, raw)[k].headerLines;
    forall i | LastNaming(host, h, i) ensures Parse(host, raw)[k].path == NamedBy(host, h[i]) {
      HeaderNames(host, h, i);
    }
    if forall l :: l in h ==> !NamesFile(host, l) { HeaderNamesNothing(host, h); }
    PlusLines(host, p);
    if NoSpace(p) { DiffLinePath(host, p); }
  }

  // ----- hunk IDs -----

  /** Joining leaves out just the line feed after the last line. */
  lemma {:induction false} JoinUnlines(lines: seq<string>)
    requires lines != []
    ensures Join(lines) + "\n" == Unlines(lines)
  {
    if |lines| > 1 { JoinUnlines(lines[1..]); }
  }

  /** The ID of the i-th hunk counts from one and digests the file's final path with the hunk's own text. */
  lemma ParsedHunkId(host: Host, raw: string, k: nat, i: nat)
    requires k < |Parse(host, raw)| && i < |Parse(host, raw)[k].hunks|
    ensures
      var f := Parse(host, raw)[k];
      f.hunks[i].id == "h" + Decimal(i + 1) + "_"
                       + host.digest(f.path + "\n" + f.hunks[i].header + "\n" + Join(f.hunks[i].lines))
  {
    hide Parse, Decimal, Join;
    var files := Parse(host, raw);
    ParseCharacterised(host, raw, files);
    RenumberedFile(host, files, k);
    IdAt(host, files[k].path, files[k].hunks, i);
  }
}
