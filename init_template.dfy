/**
  init_template.py: turning the `python_module` template into a named
  project. The working tree is a map from paths to file contents; the edits
  are literal line-by-line replacements and whole-file writes, the renames
  are `git mv` runs, and the commands started are kept in a log.
*/
module InitTemplate {
  import opened Results
  import opened Strings
  import opened Decimal
  import opened Processes

  /** The name the template's own files use. */
  const TemplateName: string := "python_module"

  const DefaultAuthor: string := "Yurii Cherkasov"

  // ---------------------------------------------------------------------
  // capitalize_name
  // ---------------------------------------------------------------------

  /** ASCII upper case; every other character is left alone. */
  function Upper(c: char): char {
    if 'a' <= c <= 'z' then (c as int - 32) as char else c
  }

  /** ASCII lower case; every other character is left alone. */
  function Lower(c: char): char {
    if 'A' <= c <= 'Z' then (c as int + 32) as char else c
  }

  function LowerAll(s: string): (r: string)
    ensures |r| == |s|
    decreases |s|
  {
    if s == [] then [] else [Lower(s[0])] + LowerAll(s[1..])
  }

  lemma {:induction false} LowerAllAt(s: string)
    ensures forall i :: 0 <= i < |s| ==> LowerAll(s)[i] == Lower(s[i])
    decreases |s|
  {
    if s != [] {
      LowerAllAt(s[1..]);
      assert forall i :: 1 <= i < |s| ==> LowerAll(s)[i] == LowerAll(s[1..])[i - 1];
    }
  }

  /** `word.capitalize()` over ASCII: the first character upper case, the rest lower case. */
  function Capitalize(w: string): (r: string)
    ensures |r| == |w|
  {
    if w == [] then [] else [Upper(w[0])] + LowerAll(w[1..])
  }

  lemma CapitalizeAt(w: string)
    ensures w != [] ==> Capitalize(w)[0] == Upper(w[0])
    ensures forall i :: 1 <= i < |w| ==> Capitalize(w)[i] == Lower(w[i])
  {
    if w != [] {
      LowerAllAt(w[1..]);
    }
  }

  /** Capitalising a capitalised word changes nothing. */
  lemma CapitalizeIdempotent(w: string)
    ensures Capitalize(Capitalize(w)) == Capitalize(w)
  {
    var c := Capitalize(w);
    CapitalizeAt(w);
    CapitalizeAt(c);
    assert forall i :: 0 <= i < |w| ==> Capitalize(c)[i] == c[i];
  }

  function CapitalizeAll(words: seq<string>): seq<string> {
    seq(|words|, i requires 0 <= i < |words| => Capitalize(words[i]))
  }

  /** `' '.join(word.capitalize() for word in name.split('_'))` */
  function CapitalizeName(name: string): string {
    Join(CapitalizeAll(Split(name, '_')), " ")
  }

  /**
    The same text character by character: `_` becomes a space, the first
    character and every one after `_` goes to upper case, every other one
    to lower case.
  */
  function Render(s: string, atStart: bool): string
    decreases |s|
  {
    if s == [] then []
    else if s[0] == '_' then " " + Render(s[1..], true)
    else [if atStart then Upper(s[0]) else Lower(s[0])] + Render(s[1..], false)
  }

  /** The words after the first, each preceded by the space that joins it. */
  function JoinedTail(parts: seq<string>): string {
    if parts == [] then [] else " " + Join(CapitalizeAll(parts), " ")
  }

  lemma JoinCapitalized(parts: seq<string>)
    requires parts != []
    ensures Join(CapitalizeAll(parts), " ") == Capitalize(parts[0]) + JoinedTail(parts[1..])
  {
    var words := CapitalizeAll(parts);
    assert words[1..] == CapitalizeAll(parts[1..]);
    if |parts| == 1 {
      assert words[0] + [] == words[0];
    }
  }

  lemma {:induction false} RenderSplit(t: string, atStart: bool)
    ensures var parts := Split(t, '_');
      Render(t, atStart) == (if atStart then Capitalize(parts[0]) else LowerAll(parts[0])) + JoinedTail(parts[1..])
    decreases |t|
  {
    if t == [] {
      assert Split(t, '_') == [[]];
    } else if t[0] == '_' {
      RenderSplit(t[1..], true);
      RenderSplitSeparator(t, atStart);
    } else {
      RenderSplit(t[1..], false);
      RenderSplitLetter(t, atStart);
    }
  }

  lemma RenderSplitSeparator(t: string, atStart: bool)
    requires t != [] && t[0] == '_'
    requires var rest := Split(t[1..], '_');
      Render(t[1..], true) == Capitalize(rest[0]) + JoinedTail(rest[1..])
    ensures var parts := Split(t, '_');
      Render(t, atStart) == (if atStart then Capitalize(parts[0]) else LowerAll(parts[0])) + JoinedTail(parts[1..])
  {
    var rest := Split(t[1..], '_');
    var parts := Split(t, '_');
    assert parts == [[]] + rest;
    assert parts[1..] == rest;
    JoinCapitalized(rest);
    assert (if atStart then Capitalize(parts[0]) else LowerAll(parts[0])) == [];
  }

  lemma RenderSplitLetter(t: string, atStart: bool)
    requires t != [] && t[0] != '_'
    requires var rest := Split(t[1..], '_');
      Render(t[1..], false) == LowerAll(rest[0]) + JoinedTail(rest[1..])
    ensures var parts := Split(t, '_');
      Render(t, atStart) == (if atStart then Capitalize(parts[0]) else LowerAll(parts[0])) + JoinedTail(parts[1..])
  {
    var rest := Split(t[1..], '_');
    SplitLetter(t, '_');
    var head, lower, tail := [if atStart then Upper(t[0]) else Lower(t[0])], LowerAll(rest[0]), JoinedTail(rest[1..]);
    RenderLetter(t, atStart, lower, tail);
    FirstWordOf(t[0], rest[0], atStart);
    AppendAssoc(head, lower, tail);
    var word := if atStart then Capitalize(Split(t, '_')[0]) else LowerAll(Split(t, '_')[0]);
    assert word == head + lower;
  }


  lemma RenderLetter(t: string, atStart: bool, lower: string, tail: string)
    requires t != [] && t[0] != '_'
    requires Render(t[1..], false) == lower + tail
    ensures Render(t, atStart) == [if atStart then Upper(t[0]) else Lower(t[0])] + (lower + tail)
  {
  }

  /** Splitting text that starts with another character extends the first part. */
  lemma SplitLetter(t: string, c: char)
    requires t != [] && t[0] != c
    ensures Split(t, c)[0] == [t[0]] + Split(t[1..], c)[0]
    ensures Split(t, c)[1..] == Split(t[1..], c)[1..]
  {
  }

  lemma FirstWordOf(c: char, w: string, atStart: bool)
    ensures (if atStart then Capitalize([c] + w) else LowerAll([c] + w))
      == [if atStart then Upper(c) else Lower(c)] + LowerAll(w)
  {
    assert ([c] + w)[1..] == w;
  }

  /** `capitalize_name` agrees with the character-by-character reading. */
  lemma CapitalizeNameIsRender(name: string)
    ensures CapitalizeName(name) == Render(name, true)
  {
    RenderSplit(name, true);
    JoinCapitalized(Split(name, '_'));
  }

  /** The character `Render` writes at position `i`. */
  function RenderedChar(s: string, i: nat, atStart: bool): char
    requires i < |s|
  {
    if s[i] == '_' then ' '
    else if (if i == 0 then atStart else s[i - 1] == '_') then Upper(s[i])
    else Lower(s[i])
  }

  lemma {:induction false} RenderAt(s: string, atStart: bool)
    ensures |Render(s, atStart)| == |s|
    ensures forall i :: 0 <= i < |s| ==> Render(s, atStart)[i] == RenderedChar(s, i, atStart)
    decreases |s|
  {
    if s != [] {
      var tail := s[1..];
      RenderAt(tail, s[0] == '_');
      var r := Render(s, atStart);
      forall i | 1 <= i < |s|
        ensures r[i] == RenderedChar(s, i, atStart)
      {
        assert r[i] == Render(tail, s[0] == '_')[i - 1];
        assert tail[i - 1] == s[i];
        assert i - 1 > 0 ==> tail[i - 2] == s[i - 1];
      }
    }
  }

  /**
    `capitalize_name` keeps the length, turns each `_` into a space at the
    same position, upper-cases the first letter of every word and
    lower-cases the rest; no `_` is left.
  */
  lemma CapitalizeNamePositions(name: string)
    ensures |CapitalizeName(name)| == |name|
    ensures forall i :: 0 <= i < |name| ==>
              CapitalizeName(name)[i] ==
                if name[i] == '_' then ' '
                else if i == 0 || name[i - 1] == '_' then Upper(name[i])
                else Lower(name[i])
    ensures '_' !in CapitalizeName(name)
  {
    CapitalizeNameIsRender(name);
    RenderAt(name, true);
    var r := CapitalizeName(name);
    forall i | 0 <= i < |r|
      ensures r[i] != '_'
    {
      assert r[i] == RenderedChar(name, i, true);
    }
  }

  /**
    For a name without spaces, splitting the result at spaces gives the
    capitalised form of each underscore-separated part, in order.
  */
  lemma CapitalizeNameWords(name: string)
    requires ' ' !in name
    ensures Split(CapitalizeName(name), ' ') == CapitalizeAll(Split(name, '_'))
  {
    var parts := Split(name, '_');
    var words := CapitalizeAll(parts);
    forall i | 0 <= i < |words|
      ensures ' ' !in words[i]
    {
      CapitalizeAt(parts[i]);
      assert forall j :: 0 <= j < |parts[i]| ==> parts[i][j] in name by {
        SplitPartsFrom(name, '_');
      }
    }
    SplitJoin(words, ' ');
  }

  /** Every character of a part of a split comes from the text. */
  lemma {:induction false} SplitPartsFrom(s: string, c: char)
    ensures forall i, j :: 0 <= i < |Split(s, c)| && 0 <= j < |Split(s, c)[i]| ==> Split(s, c)[i][j] in s
    decreases |s|
  {
    if s != [] {
      SplitPartsFrom(s[1..], c);
      var rest := Split(s[1..], c);
      assert forall x :: x in s[1..] ==> x in s;
      if s[0] != c {
        var first := [s[0]] + rest[0];
        assert forall j :: 1 <= j < |first| ==> first[j] == rest[0][j - 1];
      }
    }
  }

  /** The class line for a two-word name: the space stays inside the class name. */
  lemma CapitalizeMyTool()
    ensures CapitalizeName("my_tool") == "My Tool"
  {
    CapitalizeNameIsRender("my_tool");
    assert Render("my_tool", true) == "My Tool";
  }

  // ---------------------------------------------------------------------
  // The working tree and the edits
  // ---------------------------------------------------------------------

  /** The FileNotFoundError that opening a missing file raises. */
  datatype FileError = FileNotFound(path: string)

  /** `replace_in_file` on a tree: the file's lines rewritten, or the error for a missing file. */
  function Edit(files: map<string, string>, path: string, pat: string, rep: string): (r: Result<map<string, string>, FileError>)
    ensures r.Err? <==> path !in files
    ensures r.Err? ==> r.error == FileNotFound(path)
    ensures r.Ok? ==> r.value.Keys == files.Keys && r.value[path] == ReplaceByLine(files[path], pat, rep)
    ensures r.Ok? ==> forall k :: k in files && k != path ==> r.value[k] == files[k]
  {
    if path in files then Ok(files[path := ReplaceByLine(files[path], pat, rep)]) else Err(FileNotFound(path))
  }

  /**
    What `replace_in_file` promises line by line: as many lines as before, in
    the same order, a line without the literal left as it was, and every
    other line with each occurrence replaced.
  */
  lemma ReplaceEachLines(lines: seq<string>, pat: string, rep: string)
    requires pat != []
    ensures |ReplaceEach(lines, pat, rep)| == |lines|
    ensures forall i :: 0 <= i < |lines| && !Contains(lines[i], pat) ==> ReplaceEach(lines, pat, rep)[i] == lines[i]
    ensures forall i :: 0 <= i < |lines| && Contains(lines[i], pat) ==>
              ReplaceEach(lines, pat, rep)[i] == ReplaceAll(lines[i], pat, rep)
    ensures forall i :: 0 <= i < |lines| ==>
              |ReplaceEach(lines, pat, rep)[i]| == |lines[i]| + Occurrences(lines[i], pat) * (|rep| - |pat|)
  {
    forall i | 0 <= i < |lines|
      ensures !Contains(lines[i], pat) ==> ReplaceEach(lines, pat, rep)[i] == lines[i]
      ensures |ReplaceEach(lines, pat, rep)[i]| == |lines[i]| + Occurrences(lines[i], pat) * (|rep| - |pat|)
    {
      if !Contains(lines[i], pat) {
        ReplaceAllNoMatch(lines[i], pat, rep);
      }
      ReplaceAllLength(lines[i], pat, rep);
    }
  }

  /**
    A file that, as text mode reads it, does not hold the literal (without
    newlines) only has its line ends rewritten as `\n`; without a carriage
    return it is left exactly as it was.
  */
  lemma EditWithoutMatch(files: map<string, string>, path: string, pat: string, rep: string)
    requires path in files && pat != [] && '\n' !in pat
    requires !Contains(UniversalNewlines(files[path]), pat)
    ensures Edit(files, path, pat, rep) == Ok(files[path := UniversalNewlines(files[path])])
    ensures '\r' !in files[path] ==> Edit(files, path, pat, rep) == Ok(files)
  {
    ReplaceByLineIsReplaceAll(files[path], pat, rep);
    ReplaceAllNoMatch(UniversalNewlines(files[path]), pat, rep);
    if '\r' !in files[path] {
      UniversalNewlinesWithoutCR(files[path]);
      assert files[path := files[path]] == files;
    }
  }

  /** `p` is the path `dir` or lies below it. */
  predicate Under(p: string, dir: string) {
    p == dir || StartsWith(p, dir + "/")
  }

  /** Something exists at `dir`: a file of that name or a file below it. */
  predicate Present(files: map<string, string>, dir: string) {
    exists k :: k in files && Under(k, dir)
  }

  /** When `git mv src dst` moves: the source exists, the destination does not, and it is not below the source. */
  predicate MoveAllowed(files: map<string, string>, src: string, dst: string) {
    Present(files, src) && !Present(files, dst) && !Under(dst, src)
  }

  /** Where a path ends up after `src` has been renamed to `dst`. */
  function Relocate(p: string, src: string, dst: string): string {
    if Under(p, src) then dst + p[|src|..] else p
  }

  lemma UnderPrefix(p: string, dir: string)
    requires Under(p, dir)
    ensures |dir| <= |p| && p[..|dir|] == dir
    ensures p[|dir|..] == [] || p[|dir|..][0] == '/'
  {
    if p != dir {
      assert p[..|dir|] == (dir + "/")[..|dir|];
      assert p[|dir|] == (dir + "/")[|dir|];
    }
  }

  /** Renaming is one-to-one on a tree where the destination is free. */
  lemma RelocateInjective(files: map<string, string>, src: string, dst: string)
    requires !Present(files, dst)
    ensures forall a, b :: a in files && b in files && Relocate(a, src, dst) == Relocate(b, src, dst) ==> a == b
  {
    forall a, b | a in files && b in files && Relocate(a, src, dst) == Relocate(b, src, dst)
      ensures a == b
    {
      if Under(a, src) && Under(b, src) {
        UnderPrefix(a, src);
        UnderPrefix(b, src);
        assert a[|src|..] == (dst + a[|src|..])[|dst|..];
        assert a == a[..|src|] + a[|src|..];
        assert b == b[..|src|] + b[|src|..];
      } else if Under(a, src) {
        RelocatedIsUnder(a, src, dst);
      } else if Under(b, src) {
        RelocatedIsUnder(b, src, dst);
      }
    }
  }

  lemma RelocatedIsUnder(p: string, src: string, dst: string)
    requires Under(p, src)
    ensures Under(Relocate(p, src, dst), dst)
  {
    UnderPrefix(p, src);
    var q := Relocate(p, src, dst);
    if p[|src|..] != [] {
      assert q[..|dst| + 1] == dst + "/";
    }
  }

  /**
    `git mv src dst` on the tree: when the move is allowed every path below
    `src` moves below `dst` with its content and every other file stays;
    when git refuses, nothing changes.
  */
  function Moved(files: map<string, string>, src: string, dst: string): (r: map<string, string>)
    ensures !MoveAllowed(files, src, dst) ==> r == files
    ensures MoveAllowed(files, src, dst) ==>
      forall k :: k in files ==> Relocate(k, src, dst) in r && r[Relocate(k, src, dst)] == files[k]
    ensures MoveAllowed(files, src, dst) ==>
      forall k :: k in r <==> exists j :: j in files && Relocate(j, src, dst) == k
  {
    if MoveAllowed(files, src, dst) then
      RelocateInjective(files, src, dst);
      map k | k in files :: Relocate(k, src, dst) := files[k]
    else files
  }

  /** Two directories that hold a common path are nested, the shorter above the longer. */
  lemma NestedDirs(q: string, a: string, b: string)
    requires Under(q, a) && Under(q, b) && |a| <= |b|
    ensures Under(b, a)
  {
    UnderPrefix(q, a);
    UnderPrefix(q, b);
    assert b[..|a|] == q[..|b|][..|a|] == a;
    if |a| < |b| {
      assert b[|a|] == q[|a|] == q[|a|..][0];
      assert b[..|a| + 1] == a + "/";
    } else {
      assert b == b[..|a|];
    }
  }

  /** A path below a directory agrees with it on the directory's characters. */
  lemma UnderAt(q: string, dir: string, i: nat)
    requires i < |dir|
    ensures Under(q, dir) ==> i < |q| && q[i] == dir[i]
  {
    if Under(q, dir) {
      UnderPrefix(q, dir);
      assert q[..|dir|][i] == q[i];
    }
  }

  /** A path that differs from a directory at one of the directory's characters is not below it. */
  lemma NotUnderAt(q: string, dir: string, i: nat)
    requires i < |q| && i < |dir| && q[i] != dir[i]
    ensures !Under(q, dir)
  {
    UnderAt(q, dir, i);
  }

  /** A file not below the source of a move keeps its path and its content. */
  lemma MovedKeeps(files: map<string, string>, src: string, dst: string, k: string)
    requires k in files && !Under(k, src)
    ensures k in Moved(files, src, dst) && Moved(files, src, dst)[k] == files[k]
  {
  }

  /** A path of the moved tree that is not below the destination was there before, with the same content. */
  lemma MovedOrigin(files: map<string, string>, src: string, dst: string, k: string)
    requires k in Moved(files, src, dst) && !Under(k, dst)
    ensures k in files && Moved(files, src, dst)[k] == files[k]
  {
    if MoveAllowed(files, src, dst) {
      var j :| j in files && Relocate(j, src, dst) == k;
      if Under(j, src) {
        RelocatedIsUnder(j, src, dst);
      }
    }
  }

  /** Moving between two paths that differ from `d` at some character leaves what exists at `d` as it was. */
  lemma MovedPresent(files: map<string, string>, src: string, dst: string, d: string, i: nat)
    requires i < |src| && i < |dst| && i < |d| && d[i] != src[i] && d[i] != dst[i]
    ensures Present(Moved(files, src, dst), d) <==> Present(files, d)
  {
    var r := Moved(files, src, dst);
    if Present(r, d) {
      var k :| k in r && Under(k, d);
      UnderAt(k, d, i);
      if Under(k, dst) {
        UnderAt(k, dst, i);
      }
      MovedOrigin(files, src, dst, k);
    }
    if Present(files, d) {
      var k :| k in files && Under(k, d);
      UnderAt(k, d, i);
      if Under(k, src) {
        UnderAt(k, src, i);
      }
      MovedKeeps(files, src, dst, k);
    }
  }

  // ---------------------------------------------------------------------
  // replace_template_name
  // ---------------------------------------------------------------------

  /** The arguments of `replace_template_name`, with the year `date.today()` gives. */
  datatype Params = Params(template: string, newName: string, description: string, author: string, year: nat)

  function NameLine(name: string): string {
    "name = " + name
  }

  /** `# <capitalised name>`, a blank line, the description, a blank line. */
  function ReadmeText(p: Params): string {
    "# " + CapitalizeName(p.newName) + "\n\n" + p.description + "\n\n"
  }

  function TemplateCopyright(author: string): string {
    "Copyright (c) 20xx " + author
  }

  function Copyright(year: nat, author: string): string {
    "Copyright (c) " + Numeral(year) + " " + author
  }

  const DescriptionPlaceholder: string := "    description=None,"

  function DescriptionLine(description: string): string {
    "    description=\"" + description + "\","
  }

  function SrcDir(name: string): string {
    "src/" + name
  }

  function TestFile(name: string): string {
    "test/" + name + "_test.py"
  }

  const TemplateClassLine: string := "class PythonModuleTest(unittest.TestCase):"

  /** The test class literal is a single non-empty line. */
  lemma TemplateClassLineIsOneLine()
    ensures TemplateClassLine != [] && '\n' !in TemplateClassLine
  {
    assert forall i :: 0 <= i < |TemplateClassLine| ==> TemplateClassLine[i] != '\n';
  }

  function ClassLine(name: string): string {
    "class " + CapitalizeName(name) + "Test(unittest.TestCase):"
  }

  /**
    The class line names the class after the capitalised name as it is:
    every `_` of the name becomes a space inside the class name, which is
    then not a valid Python identifier.
  */
  lemma ClassLineSpaces(name: string, i: nat)
    requires i < |name| && name[i] == '_'
    ensures StartsWith(ClassLine(name), "class ")
    ensures |ClassLine(name)| > 6 + i && ClassLine(name)[6 + i] == ' '
  {
    CapitalizeNameIsRender(name);
    RenderAt(name, true);
    var cap := CapitalizeName(name);
    assert cap[i] == RenderedChar(name, i, true);
    var line := ClassLine(name);
    assert line == "class " + (cap + "Test(unittest.TestCase):");
    assert line[..6] == "class ";
    assert line[6 + i] == (cap + "Test(unittest.TestCase):")[i] == cap[i];
  }

  /** For `my_tool` the class line is `class My ToolTest(unittest.TestCase):`. */
  lemma ClassLineMyTool(name: string)
    requires name == "my_tool"
    ensures ClassLine(name) == "class " + "My Tool" + "Test(unittest.TestCase):"
  {
    CapitalizeMyTool();
  }

  function MoveCommand(src: string, dst: string): Command {
    ["git", "mv", src, dst]
  }

  /** The tree, the commands started and the error that ended the run early, if any. */
  datatype Outcome = Outcome(files: map<string, string>, log: seq<Command>, error: Option<FileError>)

  /** The two `git mv` runs: the source package, then the test module. */
  function Renamed(files: map<string, string>, p: Params): map<string, string> {
    Moved(Moved(files, SrcDir(p.template), SrcDir(p.newName)), TestFile(p.template), TestFile(p.newName))
  }

  /** The setup.py edit, the two renames and the test-class edit: the steps after LICENSE. */
  function AfterLicense(f3: map<string, string>, log: seq<Command>, p: Params): Outcome {
    match Edit(f3, "setup.py", DescriptionPlaceholder, DescriptionLine(p.description))
    case Err(e) => Outcome(f3, log, Some(e))
    case Ok(f4) =>
      var f6 := Renamed(f4, p);
      var log6 := log + [MoveCommand(SrcDir(p.template), SrcDir(p.newName)),
                         MoveCommand(TestFile(p.template), TestFile(p.newName))];
      match Edit(f6, TestFile(p.newName), TemplateClassLine, ClassLine(p.newName))
      case Err(e) => Outcome(f6, log6, Some(e))
      case Ok(f7) => Outcome(f7, log6, None)
  }

  /**
    `replace_template_name` (init_template.py:28-69): setup.cfg, README.md,
    LICENSE and setup.py in turn, then the two `git mv` runs, whose exit
    status is not looked at, then the class line of the renamed test file.
    An exception from a missing file ends the function there.
  */
  function RewriteTemplate(files: map<string, string>, log: seq<Command>, p: Params): Outcome {
    match Edit(files, "setup.cfg", NameLine(p.template), NameLine(p.newName))
    case Err(e) => Outcome(files, log, Some(e))
    case Ok(f1) =>
      var f2 := f1["README.md" := ReadmeText(p)];
      match Edit(f2, "LICENSE", TemplateCopyright(p.author), Copyright(p.year, p.author))
      case Err(e) => Outcome(f2, log, Some(e))
      case Ok(f3) => AfterLicense(f3, log, p)
  }

  function CommitCommand(newName: string, description: string): Command {
    ["git", "commit", "--all", "--message",
     "Initialize template with name " + newName + " and description \"" + description + "\""]
  }

  /** `main` after argument parsing: the rewrite of the `python_module` template, then the commit if it got through. */
  function InitializeOutcome(files: map<string, string>, log: seq<Command>, p: Params): Outcome {
    var o := RewriteTemplate(files, log, p);
    if o.error.None? then o.(log := o.log + [CommitCommand(p.newName, p.description)]) else o
  }

  /** The parameters `main` passes on: the fixed template name, and the defaults of the options. */
  function MainParams(newName: string, description: Option<string>, author: Option<string>, year: nat): Params {
    Params(TemplateName,
           newName,
           if description.Some? then description.value else "",
           if author.Some? then author.value else DefaultAuthor,
           year)
  }

  /** The files the two renames leave where they were: those below neither source. */
  lemma RenamedKeeps(files: map<string, string>, p: Params, k: string)
    requires k in files && !Under(k, SrcDir(p.template)) && !Under(k, TestFile(p.template))
    ensures k in Renamed(files, p) && Renamed(files, p)[k] == files[k]
  {
    MovedKeeps(files, SrcDir(p.template), SrcDir(p.newName), k);
    MovedKeeps(Moved(files, SrcDir(p.template), SrcDir(p.newName)), TestFile(p.template), TestFile(p.newName), k);
  }

  /** A top-level file other than setup.py and the new test module comes out of the renames and edits after LICENSE untouched. */
  lemma AfterLicenseKeeps(f3: map<string, string>, log: seq<Command>, p: Params, k: string)
    requires k in f3 && k != "setup.py" && k != TestFile(p.newName)
    requires !Under(k, SrcDir(p.template)) && !Under(k, TestFile(p.template))
    ensures var o := AfterLicense(f3, log, p);
      k in o.files && o.files[k] == f3[k]
  {
    if "setup.py" in f3 {
      var f4 := Edit(f3, "setup.py", DescriptionPlaceholder, DescriptionLine(p.description)).value;
      RenamedKeeps(f4, p, k);
    }
  }

  /**
    The order in which missing files stop `replace_template_name`: each of
    setup.cfg, LICENSE and setup.py raises before anything after it, and
    once all three are there both `git mv` commands run and only the
    renamed test module can still be missing.
  */
  lemma RewriteStopsAtFirstMissing(files: map<string, string>, log: seq<Command>, p: Params)
    ensures var o := RewriteTemplate(files, log, p);
      "setup.cfg" !in files ==> o == Outcome(files, log, Some(FileNotFound("setup.cfg")))
    ensures var o := RewriteTemplate(files, log, p);
      "setup.cfg" in files && "LICENSE" !in files ==> o.error == Some(FileNotFound("LICENSE")) && o.log == log
    ensures var o := RewriteTemplate(files, log, p);
      "setup.cfg" in files && "LICENSE" in files && "setup.py" !in files ==>
        o.error == Some(FileNotFound("setup.py")) && o.log == log
    ensures var o := RewriteTemplate(files, log, p);
      "setup.cfg" in files && "LICENSE" in files && "setup.py" in files ==>
        o.log == log + [MoveCommand(SrcDir(p.template), SrcDir(p.newName)),
                        MoveCommand(TestFile(p.template), TestFile(p.newName))]
        && (o.error.None? || o.error == Some(FileNotFound(TestFile(p.newName))))
  {
  }

  /** Once setup.cfg exists, README.md ends up holding exactly the generated text, whatever it held before. */
  lemma ReadmeWritten(files: map<string, string>, log: seq<Command>, p: Params)
    requires "setup.cfg" in files
    ensures var o := RewriteTemplate(files, log, p);
      "README.md" in o.files && o.files["README.md"] == ReadmeText(p)
  {
    var f2 := Edit(files, "setup.cfg", NameLine(p.template), NameLine(p.newName)).value["README.md" := ReadmeText(p)];
    if "LICENSE" in f2 {
      var f3 := Edit(f2, "LICENSE", TemplateCopyright(p.author), Copyright(p.year, p.author)).value;
      NotUnderAt("README.md", SrcDir(p.template), 0);
      NotUnderAt("README.md", TestFile(p.template), 0);
      NotUnderAt("README.md", TestFile(p.newName), 0);
      AfterLicenseKeeps(f3, log, p, "README.md");
    }
  }

  /** setup.cfg keeps its line-by-line edit through the rest of the rewrite. */
  lemma SetupCfgEdited(files: map<string, string>, log: seq<Command>, p: Params)
    requires "setup.cfg" in files
    ensures var o := RewriteTemplate(files, log, p);
      "setup.cfg" in o.files && o.files["setup.cfg"] == ReplaceByLine(files["setup.cfg"], NameLine(p.template), NameLine(p.newName))
  {
    var f1 := Edit(files, "setup.cfg", NameLine(p.template), NameLine(p.newName)).value;
    var f2 := f1["README.md" := ReadmeText(p)];
    if "LICENSE" in f2 {
      var f3 := Edit(f2, "LICENSE", TemplateCopyright(p.author), Copyright(p.year, p.author)).value;
      NotUnderAt("setup.cfg", SrcDir(p.template), 1);
      NotUnderAt("setup.cfg", TestFile(p.template), 0);
      NotUnderAt("setup.cfg", TestFile(p.newName), 0);
      AfterLicenseKeeps(f3, log, p, "setup.cfg");
    }
  }

  /**
    In setup.cfg every `name = <template>` becomes `name = <new name>`, and
    nothing else changes but the line ends, which are written as `\n`.
  */
  lemma SetupCfgRenamed(files: map<string, string>, log: seq<Command>, p: Params)
    requires "setup.cfg" in files && '\n' !in p.template
    ensures var o := RewriteTemplate(files, log, p);
      "setup.cfg" in o.files
      && o.files["setup.cfg"] == ReplaceAll(UniversalNewlines(files["setup.cfg"]), NameLine(p.template), NameLine(p.newName))
  {
    SetupCfgEdited(files, log, p);
    ReplaceByLineIsReplaceAll(files["setup.cfg"], NameLine(p.template), NameLine(p.newName));
  }

  /**
    In LICENSE every `Copyright (c) 20xx <author>` gets the year; the literal
    names the new author, so a licence that names someone else is left as it
    was.
  */
  lemma LicenseDated(files: map<string, string>, log: seq<Command>, p: Params)
    requires "setup.cfg" in files && "LICENSE" in files && '\n' !in p.author
    ensures var o := RewriteTemplate(files, log, p);
      "LICENSE" in o.files
      && o.files["LICENSE"] == ReplaceAll(UniversalNewlines(files["LICENSE"]), TemplateCopyright(p.author), Copyright(p.year, p.author))
    ensures var o := RewriteTemplate(files, log, p);
      !Contains(UniversalNewlines(files["LICENSE"]), TemplateCopyright(p.author)) ==>
        o.files["LICENSE"] == UniversalNewlines(files["LICENSE"])
  {
    var f1 := Edit(files, "setup.cfg", NameLine(p.template), NameLine(p.newName)).value;
    var f2 := f1["README.md" := ReadmeText(p)];
    var text := files["LICENSE"];
    assert f2["LICENSE"] == text;
    ReplaceByLineIsReplaceAll(text, TemplateCopyright(p.author), Copyright(p.year, p.author));
    if !Contains(UniversalNewlines(text), TemplateCopyright(p.author)) {
      ReplaceAllNoMatch(UniversalNewlines(text), TemplateCopyright(p.author), Copyright(p.year, p.author));
    }
    var f3 := Edit(f2, "LICENSE", TemplateCopyright(p.author), Copyright(p.year, p.author)).value;
    NotUnderAt("LICENSE", SrcDir(p.template), 0);
    NotUnderAt("LICENSE", TestFile(p.template), 0);
    NotUnderAt("LICENSE", TestFile(p.newName), 0);
    AfterLicenseKeeps(f3, log, p, "LICENSE");
  }

  /** After LICENSE, setup.py gets its line-by-line description edit and keeps it through the renames. */
  lemma AfterLicenseDescribes(f3: map<string, string>, log: seq<Command>, p: Params)
    requires "setup.py" in f3
    ensures var o := AfterLicense(f3, log, p);
      "setup.py" in o.files && o.files["setup.py"] == ReplaceByLine(f3["setup.py"], DescriptionPlaceholder, DescriptionLine(p.description))
  {
    var f4 := Edit(f3, "setup.py", DescriptionPlaceholder, DescriptionLine(p.description)).value;
    NotUnderAt("setup.py", SrcDir(p.template), 1);
    NotUnderAt("setup.py", TestFile(p.template), 0);
    NotUnderAt("setup.py", TestFile(p.newName), 0);
    RenamedKeeps(f4, p, "setup.py");
  }

  /** In setup.py the `description=None,` line gets the description. */
  lemma SetupPyDescribed(files: map<string, string>, log: seq<Command>, p: Params)
    requires "setup.cfg" in files && "LICENSE" in files && "setup.py" in files
    ensures var o := RewriteTemplate(files, log, p);
      "setup.py" in o.files
      && o.files["setup.py"] == ReplaceAll(UniversalNewlines(files["setup.py"]), DescriptionPlaceholder, DescriptionLine(p.description))
  {
    var f1 := Edit(files, "setup.cfg", NameLine(p.template), NameLine(p.newName)).value;
    var f2 := f1["README.md" := ReadmeText(p)];
    var f3 := Edit(f2, "LICENSE", TemplateCopyright(p.author), Copyright(p.year, p.author)).value;
    assert f3["setup.py"] == files["setup.py"];
    ReplaceByLineIsReplaceAll(files["setup.py"], DescriptionPlaceholder, DescriptionLine(p.description));
    AfterLicenseDescribes(f3, log, p);
  }

  /** Writing README.md creates nothing below a test path. */
  lemma ReadmeAddsNothingUnder(files: map<string, string>, text: string, name: string)
    requires !Present(files, TestFile(name))
    ensures !Present(files["README.md" := text], TestFile(name))
  {
    NotUnderAt("README.md", TestFile(name), 0);
  }

  /** When the test module can move, the renames leave its content at the new path. */
  lemma RenamedMovesTest(files: map<string, string>, p: Params)
    requires TestFile(p.template) in files && !Present(files, TestFile(p.newName))
    requires !Under(TestFile(p.newName), TestFile(p.template))
    ensures TestFile(p.newName) in Renamed(files, p)
    ensures Renamed(files, p)[TestFile(p.newName)] == files[TestFile(p.template)]
  {
    var src, dst := TestFile(p.template), TestFile(p.newName);
    var f5 := Moved(files, SrcDir(p.template), SrcDir(p.newName));
    NotUnderAt(src, SrcDir(p.template), 0);
    MovedKeeps(files, SrcDir(p.template), SrcDir(p.newName), src);
    MovedPresent(files, SrcDir(p.template), SrcDir(p.newName), dst, 0);
    assert Present(f5, src) by {
      assert Under(src, src);
    }
    assert MoveAllowed(f5, src, dst);
    assert Relocate(src, src, dst) == dst by {
      assert src[|src|..] == [];
    }
  }

  /** When no test module is left at the template's path, the renames leave nothing at the new path that was not there. */
  lemma RenamedLosesTest(files: map<string, string>, p: Params)
    requires !Present(files, TestFile(p.template)) && TestFile(p.newName) !in files
    ensures TestFile(p.newName) !in Renamed(files, p)
  {
    var f5 := Moved(files, SrcDir(p.template), SrcDir(p.newName));
    MovedPresent(files, SrcDir(p.template), SrcDir(p.newName), TestFile(p.template), 0);
    NotUnderAt(TestFile(p.newName), SrcDir(p.newName), 0);
    if TestFile(p.newName) in f5 {
      MovedOrigin(files, SrcDir(p.template), SrcDir(p.newName), TestFile(p.newName));
    }
  }

  /** After LICENSE, a test module that can move is moved and its class line rewritten at the new path. */
  lemma AfterLicenseRenamesTest(f3: map<string, string>, log: seq<Command>, p: Params)
    requires "setup.py" in f3 && TestFile(p.template) in f3 && !Present(f3, TestFile(p.newName))
    requires !Under(TestFile(p.newName), TestFile(p.template))
    ensures var o := AfterLicense(f3, log, p);
      o.error == None && TestFile(p.newName) in o.files
      && o.files[TestFile(p.newName)] == ReplaceByLine(f3[TestFile(p.template)], TemplateClassLine, ClassLine(p.newName))
  {
    var f4 := Edit(f3, "setup.py", DescriptionPlaceholder, DescriptionLine(p.description)).value;
    assert f4[TestFile(p.template)] == f3[TestFile(p.template)];
    RenamedMovesTest(f4, p);
  }

  /**
    The renamed test module: with the three top-level files there, the
    template's test module there and its new path free, the test class
    line is rewritten in the file at the new path, the run completes, and
    `main` commits.
  */
  lemma TestModuleRenamed(files: map<string, string>, log: seq<Command>, p: Params)
    requires "setup.cfg" in files && "LICENSE" in files && "setup.py" in files
    requires TestFile(p.template) in files && !Present(files, TestFile(p.newName))
    requires !Under(TestFile(p.newName), TestFile(p.template))
    ensures var o := RewriteTemplate(files, log, p);
      o.error == None && TestFile(p.newName) in o.files
      && o.files[TestFile(p.newName)] == ReplaceAll(UniversalNewlines(files[TestFile(p.template)]), TemplateClassLine, ClassLine(p.newName))
    ensures InitializeOutcome(files, log, p).log ==
      log + [MoveCommand(SrcDir(p.template), SrcDir(p.newName)),
             MoveCommand(TestFile(p.template), TestFile(p.newName)),
             CommitCommand(p.newName, p.description)]
  {
    var f1 := Edit(files, "setup.cfg", NameLine(p.template), NameLine(p.newName)).value;
    var f2 := f1["README.md" := ReadmeText(p)];
    ReadmeAddsNothingUnder(f1, ReadmeText(p), p.newName);
    var f3 := Edit(f2, "LICENSE", TemplateCopyright(p.author), Copyright(p.year, p.author)).value;
    assert f3[TestFile(p.template)] == files[TestFile(p.template)];
    AfterLicenseRenamesTest(f3, log, p);
    TemplateClassLineIsOneLine();
    ReplaceByLineIsReplaceAll(files[TestFile(p.template)], TemplateClassLine, ClassLine(p.newName));
    RewriteStopsAtFirstMissing(files, log, p);
    var moves := [MoveCommand(SrcDir(p.template), SrcDir(p.newName)), MoveCommand(TestFile(p.template), TestFile(p.newName))];
    var commit := [CommitCommand(p.newName, p.description)];
    AppendAssoc(log, moves, commit);
    assert moves + commit == [moves[0], moves[1], commit[0]];
  }

  /**
    `git mv` failing goes unnoticed: with no test module at the template's
    path and none at the new one, the class-line edit raises on the new path
    after both moves were started, and `main` never commits.
  */
  lemma RefusedTestMoveSkipsCommit(files: map<string, string>, log: seq<Command>, p: Params)
    requires "setup.cfg" in files && "LICENSE" in files && "setup.py" in files
    requires !Present(files, TestFile(p.template)) && TestFile(p.newName) !in files
    ensures var o := InitializeOutcome(files, log, p);
      o.error == Some(FileNotFound(TestFile(p.newName)))
      && o.log == log + [MoveCommand(SrcDir(p.template), SrcDir(p.newName)),
                         MoveCommand(TestFile(p.template), TestFile(p.newName))]
  {
    var f1 := Edit(files, "setup.cfg", NameLine(p.template), NameLine(p.newName)).value;
    var f2 := f1["README.md" := ReadmeText(p)];
    ReadmeAddsNothingUnder(f1, ReadmeText(p), p.template);
    NotUnderAt("README.md", TestFile(p.newName), 0);
    var f3 := Edit(f2, "LICENSE", TemplateCopyright(p.author), Copyright(p.year, p.author)).value;
    var f4 := Edit(f3, "setup.py", DescriptionPlaceholder, DescriptionLine(p.description)).value;
    RenamedLosesTest(f4, p);
    RewriteStopsAtFirstMissing(files, log, p);
  }

  /** The files `replace_template_name` edits at the top level lie outside every package directory. */
  lemma TopLevelOutsideSrc(name: string)
    ensures !Under("setup.cfg", SrcDir(name)) && !Under("README.md", SrcDir(name))
    ensures !Under("LICENSE", SrcDir(name)) && !Under("setup.py", SrcDir(name))
  {
    NotUnderAt("setup.cfg", SrcDir(name), 1);
    NotUnderAt("README.md", SrcDir(name), 0);
    NotUnderAt("LICENSE", SrcDir(name), 0);
    NotUnderAt("setup.py", SrcDir(name), 1);
  }

  /**
    When `git mv src/<template> src/<new>` is allowed, the two renames leave
    a file below the template's package at the matching path below the new
    one, with its content, and nothing below the old package.
  */
  lemma RenamedMovesSrc(f4: map<string, string>, p: Params, k: string)
    requires MoveAllowed(f4, SrcDir(p.template), SrcDir(p.newName))
    requires k in f4 && Under(k, SrcDir(p.template))
    ensures var r := Relocate(k, SrcDir(p.template), SrcDir(p.newName));
      r in Renamed(f4, p) && Renamed(f4, p)[r] == f4[k]
    ensures !Present(Renamed(f4, p), SrcDir(p.template))
  {
    var src, dst := SrcDir(p.template), SrcDir(p.newName);
    var f5 := Moved(f4, src, dst);
    var r := Relocate(k, src, dst);
    RelocatedIsUnder(k, src, dst);
    UnderAt(r, dst, 0);
    NotUnderAt(r, TestFile(p.template), 0);
    MovedKeeps(f5, TestFile(p.template), TestFile(p.newName), r);
    MovedVacatesSource(f4, src, dst);
    MovedPresent(f5, TestFile(p.template), TestFile(p.newName), src, 0);
  }

  /**
    After LICENSE, when `git mv src/<template> src/<new>` is allowed, a file
    below the template's package is found at the matching path below the
    new one, with its content, and nothing is left below the old package,
    whether or not the test module's edit then raises.
  */
  lemma AfterLicenseMovesSrc(f3: map<string, string>, log: seq<Command>, p: Params, k: string)
    requires "setup.py" in f3 && MoveAllowed(f3, SrcDir(p.template), SrcDir(p.newName))
    requires k in f3 && Under(k, SrcDir(p.template))
    ensures var o := AfterLicense(f3, log, p);
      var r := Relocate(k, SrcDir(p.template), SrcDir(p.newName));
      r in o.files && o.files[r] == f3[k]
    ensures !Present(AfterLicense(f3, log, p).files, SrcDir(p.template))
  {
    var src, dst := SrcDir(p.template), SrcDir(p.newName);
    var f4 := Edit(f3, "setup.py", DescriptionPlaceholder, DescriptionLine(p.description)).value;
    NotUnderAt("setup.py", src, 1);
    assert MoveAllowed(f4, src, dst) by {
      assert k in f4;
    }
    RenamedMovesSrc(f4, p, k);
    var r := Relocate(k, src, dst);
    RelocatedIsUnder(k, src, dst);
    UnderAt(r, dst, 0);
    NotUnderAt(r, TestFile(p.newName), 0);
    var f6 := Renamed(f4, p);
    var o := AfterLicense(f3, log, p);
    if TestFile(p.newName) in f6 {
      var f7 := Edit(f6, TestFile(p.newName), TemplateClassLine, ClassLine(p.newName)).value;
      assert o.files == f7;
    } else {
      assert o.files == f6;
    }
  }

  /**
    The package directory: with setup.cfg, LICENSE and setup.py there and
    `git mv src/<template> src/<new>` allowed, every file below the
    template's package ends up at the matching path below the new one with
    its content, and nothing is left below the template's package.
  */
  lemma SrcPackageRenamed(files: map<string, string>, log: seq<Command>, p: Params, k: string)
    requires "setup.cfg" in files && "LICENSE" in files && "setup.py" in files
    requires MoveAllowed(files, SrcDir(p.template), SrcDir(p.newName))
    requires k in files && Under(k, SrcDir(p.template))
    ensures var o := RewriteTemplate(files, log, p);
      var r := Relocate(k, SrcDir(p.template), SrcDir(p.newName));
      r in o.files && o.files[r] == files[k]
    ensures !Present(RewriteTemplate(files, log, p).files, SrcDir(p.template))
  {
    var src, dst := SrcDir(p.template), SrcDir(p.newName);
    var f1 := Edit(files, "setup.cfg", NameLine(p.template), NameLine(p.newName)).value;
    var f2 := f1["README.md" := ReadmeText(p)];
    var f3 := Edit(f2, "LICENSE", TemplateCopyright(p.author), Copyright(p.year, p.author)).value;
    TopLevelOutsideSrc(p.template);
    TopLevelOutsideSrc(p.newName);
    assert f3[k] == files[k];
    assert MoveAllowed(f3, src, dst) by {
      assert k in f3;
    }
    AfterLicenseMovesSrc(f3, log, p, k);
  }

  /** Below a path below a directory is below the directory. */
  lemma UnderTransitive(k: string, a: string, b: string)
    requires Under(k, a) && Under(a, b)
    ensures Under(k, b)
  {
    if k != a && a != b {
      UnderPrefix(k, a);
      UnderPrefix(a, b);
      assert k[..|b| + 1] == a[..|b| + 1] == b + "/";
    }
  }

  /** An allowed move's source never lies below its destination: the destination would not be free. */
  lemma AllowedNotUnder(files: map<string, string>, src: string, dst: string)
    requires MoveAllowed(files, src, dst)
    ensures !Under(src, dst)
  {
    var k :| k in files && Under(k, src);
    if Under(src, dst) {
      UnderTransitive(k, src, dst);
    }
  }

  /** After an allowed move, nothing is left below the source. */
  lemma MovedVacatesSource(files: map<string, string>, src: string, dst: string)
    requires MoveAllowed(files, src, dst)
    ensures !Present(Moved(files, src, dst), src)
  {
    AllowedNotUnder(files, src, dst);
    var r := Moved(files, src, dst);
    forall k | k in r
      ensures !Under(k, src)
    {
      var j :| j in files && Relocate(j, src, dst) == k;
      if Under(j, src) {
        RelocatedIsUnder(j, src, dst);
        if Under(k, src) {
          if |src| <= |dst| {
            NestedDirs(k, src, dst);
          } else {
            NestedDirs(k, dst, src);
          }
        }
      }
    }
  }

  lemma SameMaps(a: map<string, string>, b: map<string, string>)
    requires forall k :: k in a ==> k in b && a[k] == b[k]
    requires forall k :: k in b ==> k in a
    ensures a == b
  {
  }

  /** A path of a tree with nothing at `dst` comes back to itself when renamed there and back. */
  lemma RelocateBack(j: string, src: string, dst: string)
    requires !Under(j, dst) || Under(j, src)
    ensures Relocate(Relocate(j, src, dst), dst, src) == j
  {
    if Under(j, src) {
      UnderPrefix(j, src);
      RelocatedIsUnder(j, src, dst);
      var suffix := j[|src|..];
      assert Relocate(j, src, dst)[|dst|..] == suffix;
      assert j == src + suffix;
    }
  }

  /** After an allowed move the reverse move is allowed. */
  lemma MoveBackAllowed(files: map<string, string>, src: string, dst: string)
    requires MoveAllowed(files, src, dst)
    ensures MoveAllowed(Moved(files, src, dst), dst, src)
  {
    var j0 :| j0 in files && Under(j0, src);
    AllowedNotUnder(files, src, dst);
    RelocatedIsUnder(j0, src, dst);
    assert Relocate(j0, src, dst) in Moved(files, src, dst);
    MovedVacatesSource(files, src, dst);
  }

  /** Every file of the tree moved there and back was in the original tree, with the same content. */
  lemma MoveBackWithin(files: map<string, string>, src: string, dst: string)
    requires MoveAllowed(files, src, dst)
    ensures var back := Moved(Moved(files, src, dst), dst, src);
      forall k :: k in back ==> k in files && back[k] == files[k]
  {
    forall k | k in Moved(Moved(files, src, dst), dst, src)
      ensures k in files && Moved(Moved(files, src, dst), dst, src)[k] == files[k]
    {
      MoveBackAt(files, src, dst, k);
    }
  }

  lemma MoveBackAt(files: map<string, string>, src: string, dst: string, k: string)
    requires MoveAllowed(files, src, dst)
    requires k in Moved(Moved(files, src, dst), dst, src)
    ensures k in files && Moved(Moved(files, src, dst), dst, src)[k] == files[k]
  {
    var r := Moved(files, src, dst);
    MoveBackAllowed(files, src, dst);
    var k1 :| k1 in r && Relocate(k1, dst, src) == k;
    var j :| j in files && Relocate(j, src, dst) == k1;
    RelocateBack(j, src, dst);
    assert Moved(r, dst, src)[k] == r[k1] == files[j];
  }

  /** Every file of the original tree is in the tree moved there and back. */
  lemma MoveBackCovers(files: map<string, string>, src: string, dst: string)
    requires MoveAllowed(files, src, dst)
    ensures forall j :: j in files ==> j in Moved(Moved(files, src, dst), dst, src)
  {
    var r := Moved(files, src, dst);
    MoveBackAllowed(files, src, dst);
    forall j | j in files
      ensures j in Moved(r, dst, src)
    {
      RelocateBack(j, src, dst);
      assert Relocate(j, src, dst) in r;
    }
  }

  /** Moving back undoes an allowed move: `git mv dst src` restores the tree that `git mv src dst` changed. */
  lemma MoveBack(files: map<string, string>, src: string, dst: string)
    requires MoveAllowed(files, src, dst)
    ensures Moved(Moved(files, src, dst), dst, src) == files
  {
    MoveBackWithin(files, src, dst);
    MoveBackCovers(files, src, dst);
    SameMaps(Moved(Moved(files, src, dst), dst, src), files);
  }

  // ---------------------------------------------------------------------
  // The working copy, edited in place
  // ---------------------------------------------------------------------

  /** The checked-out template the script rewrites: its files, and the commands it has started. */
  class Workspace {
    var files: map<string, string>
    var log: seq<Command>

    constructor (initial: map<string, string>)
      ensures files == initial && log == []
    {
      files := initial;
      log := [];
    }

    /**
      `replace_in_file` (init_template.py:11-17): the file read line by line
      in text mode, each line written back with every occurrence replaced; a
      missing file raises before anything is written.
    */
    method ReplaceInFile(path: string, pat: string, rep: string) returns (err: Option<FileError>)
      modifies this
      ensures log == old(log)
      ensures Edit(old(files), path, pat, rep).Ok? ==> err.None? && files == Edit(old(files), path, pat, rep).value
      ensures Edit(old(files), path, pat, rep).Err? ==> err == Some(Edit(old(files), path, pat, rep).error) && files == old(files)
    {
      if path !in files {
        assert Edit(files, path, pat, rep) == Err(FileNotFound(path));
        return Some(FileNotFound(path));
      }
      var lines := SplitLines(UniversalNewlines(files[path]));
      ghost var edited := ReplaceEach(lines, pat, rep);
      var text := "";
      var i := 0;
      while i < |lines|
        invariant 0 <= i <= |lines|
        invariant text == Concat(edited[..i])
        invariant files == old(files) && log == old(log)
      {
        var line := ReplaceAll(lines[i], pat, rep);
        assert edited[..i + 1] == edited[..i] + [line];
        ConcatSnoc(edited[..i], line);
        text := text + line;
        i := i + 1;
      }
      assert edited[..|lines|] == edited;
      assert Edit(files, path, pat, rep) == Ok(files[path := text]);
      files := files[path := text];
      err := None;
    }

    /** `replace_content_file` (init_template.py:20-25): the file holds exactly the new content, whatever was there. */
    method ReplaceContentFile(path: string, content: string)
      modifies this
      ensures files == old(files)[path := content] && log == old(log)
    {
      files := files[path := content];
    }

    /** `subprocess.run(['git', 'mv', src, dst])`: the command is started, and the tree moves only when git allows it. */
    method GitMove(src: string, dst: string)
      modifies this
      ensures files == Moved(old(files), src, dst)
      ensures log == old(log) + [MoveCommand(src, dst)]
    {
      log := log + [MoveCommand(src, dst)];
      files := Moved(files, src, dst);
    }

    /** The steps of `replace_template_name` after LICENSE: setup.py, the two moves, the test class line. */
    method DescribeAndRename(p: Params) returns (err: Option<FileError>)
      modifies this
      ensures Outcome(files, log, err) == AfterLicense(old(files), old(log), p)
    {
      err := ReplaceInFile("setup.py", DescriptionPlaceholder, DescriptionLine(p.description));
      if err.Some? {
        return;
      }
      ghost var f4, log4 := files, log;
      GitMove(SrcDir(p.template), SrcDir(p.newName));
      GitMove(TestFile(p.template), TestFile(p.newName));
      assert files == Renamed(f4, p);
      AppendAssoc(log4, [MoveCommand(SrcDir(p.template), SrcDir(p.newName))], [MoveCommand(TestFile(p.template), TestFile(p.newName))]);
      err := ReplaceInFile(TestFile(p.newName), TemplateClassLine, ClassLine(p.newName));
    }

    /** `replace_template_name` (init_template.py:28-69), step by step on the working copy. */
    method ReplaceTemplateName(p: Params) returns (err: Option<FileError>)
      modifies this
      ensures Outcome(files, log, err) == RewriteTemplate(old(files), old(log), p)
    {
      err := ReplaceInFile("setup.cfg", NameLine(p.template), NameLine(p.newName));
      if err.Some? {
        return;
      }
      ReplaceContentFile("README.md", ReadmeText(p));
      err := ReplaceInFile("LICENSE", TemplateCopyright(p.author), Copyright(p.year, p.author));
      if err.Some? {
        return;
      }
      err := DescribeAndRename(p);
    }

    /**
      `main` after argument parsing (init_template.py:78-100): the template
      rewrite with the defaults filled in, then `git commit --all` once the
      rewrite got through.
    */
    method Initialize(newName: string, description: Option<string>, author: Option<string>, year: nat) returns (err: Option<FileError>)
      modifies this
      ensures Outcome(files, log, err) == InitializeOutcome(old(files), old(log), MainParams(newName, description, author, year))
    {
      var p := MainParams(newName, description, author, year);
      err := ReplaceTemplateName(p);
      if err.None? {
        log := log + [CommitCommand(p.newName, p.description)];
      }
    }
  }
}
