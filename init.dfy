/** `submoduler_child init`: refuse when a `.submoduler.ini` is already there,
    choose the child name, write the configuration template and create the
    missing `lib`, `spec` and `bin` directories.

    The working directory is a finite map from names to entries. The result of
    globbing `*.gemspec` is a parameter, in the order the glob returns it. */
module Init {
  import opened Common

  datatype Node = File(content: string) | Directory

  const IniPath: string := ".submoduler.ini"

  /** The directories create_directory_structure makes, in its order. */
  const Layout: seq<string> := ["lib", "spec", "bin"]

  /** The lines of the configuration template after the child name. */
  const TemplateRest: seq<string> :=
    ["type = child", "",
     "[paths]", "lib = lib", "spec = spec", "",
     "[parent]", "# Path to parent submodule (relative or absolute)", "# path = ../parent"]

  /** The lines of the configuration template, without their line feeds,
      with the child name filled in. */
  function TemplateLines(name: string): seq<string>
  {
    ["[submoduler]", "childname = " + name] + TemplateRest
  }

  /** Each line followed by a line feed, as a heredoc writes them. */
  function JoinLines(ls: seq<string>): string
  {
    if ls == [] then "" else ls[0] + "\n" + JoinLines(ls[1..])
  }

  function Terminated(ls: seq<string>): (r: seq<string>)
    ensures |r| == |ls|
    ensures forall i :: 0 <= i < |ls| ==> r[i] == ls[i] + "\n"
  {
    if ls == [] then [] else [ls[0] + "\n"] + Terminated(ls[1..])
  }

  /** The text written to `.submoduler.ini`. */
  function ConfigContent(name: string): string
  {
    JoinLines(TemplateLines(name))
  }

  /** Reading joined lines back with each_line gives them back, each with its
      line feed. */
  lemma {:induction false} LinesOfJoin(ls: seq<string>)
    requires forall i :: 0 <= i < |ls| ==> '\n' !in ls[i]
    ensures Lines(JoinLines(ls)) == Terminated(ls)
  {
    if ls != [] {
      LinesOfJoin(ls[1..]);
      LinesCons(ls[0], JoinLines(ls[1..]));
    }
  }

  /** The written file, line by line: `[submoduler]` with the child name and
      the child type, then `[paths]` with lib and spec, then `[parent]`. */
  lemma ConfigLines(name: string)
    requires '\n' !in name
    ensures var ls := Lines(ConfigContent(name));
            && |ls| == 11
            && ls[0] == "[submoduler]\n" && ls[1] == "childname = " + name + "\n" && ls[2] == "type = child\n"
            && ls[4] == "[paths]\n" && ls[5] == "lib = lib\n" && ls[6] == "spec = spec\n"
            && ls[8] == "[parent]\n"
  {
    TemplateSingleLines(name);
    LinesOfJoin(TemplateLines(name));
  }

  lemma TemplateSingleLines(name: string)
    requires '\n' !in name
    ensures forall i :: 0 <= i < |TemplateLines(name)| ==> '\n' !in TemplateLines(name)[i]
  {
    RestSingleLines();
    assert '\n' !in "childname = ";
  }

  lemma RestSingleLines()
    ensures forall i :: 0 <= i < |TemplateRest| ==> '\n' !in TemplateRest[i]
  {
    CommentSingleLine();
  }

  /** The one long comment line of the template, checked in two halves
      (proved apart, to keep each proof small). */
  lemma CommentSingleLine()
    ensures '\n' !in "# Path to parent submodule (relative or absolute)"
  {
    CommentHalves();
    assert "# Path to parent submodule (relative or absolute)" == "# Path to parent " + "submodule (relative or absolute)";
  }

  lemma CommentHalves()
    ensures '\n' !in "# Path to parent "
    ensures '\n' !in "submodule (relative or absolute)"
  {
  }

  // ---------------------------------------------------------------------
  // detect_gem_name: the pattern spec\.name\s*=\s*["']([^"']+)["']

  /** The characters `\s` matches. */
  predicate RegexSpace(c: char)
  {
    c == ' ' || c == '\t' || c == '\n' || c == '\U{B}' || c == '\U{C}' || c == '\r'
  }

  predicate IsQuote(c: char)
  {
    c == '"' || c == '\''
  }

  /** End of the longest run of `\s` starting at `i`. */
  function SkipRegexSpace(s: string, i: nat): (j: nat)
    requires i <= |s|
    ensures i <= j <= |s|
    ensures forall x :: i <= x < j ==> RegexSpace(s[x])
    ensures j < |s| ==> !RegexSpace(s[j])
    decreases |s| - i
  {
    if i < |s| && RegexSpace(s[i]) then SkipRegexSpace(s, i + 1) else i
  }

  /** End of the longest run of non-quotes starting at `i`. */
  function QuoteRunEnd(s: string, i: nat): (k: nat)
    requires i <= |s|
    ensures i <= k <= |s|
    ensures forall x :: i <= x < k ==> !IsQuote(s[x])
    ensures k < |s| ==> IsQuote(s[k])
    decreases |s| - i
  {
    if i < |s| && !IsQuote(s[i]) then QuoteRunEnd(s, i + 1) else i
  }

  /** The capture of a match that starts at `p`, if the pattern matches there.
      Each repetition is greedy, and a shorter repetition would leave a
      character the next part of the pattern cannot take, so the first choice
      is the only one. */
  function MatchAt(s: string, p: nat): Option<string>
    requires p <= |s|
  {
    if p + 9 <= |s| && s[p..p + 9] == "spec.name" then
      var i := SkipRegexSpace(s, p + 9);
      if i < |s| && s[i] == '=' then
        var j := SkipRegexSpace(s, i + 1);
        if j < |s| && IsQuote(s[j]) then
          var k := QuoteRunEnd(s, j + 1);
          if j + 1 < k < |s| then Some(s[j + 1..k]) else None
        else None
      else None
    else None
  }

  /** The leftmost match at or after `p`. */
  function SearchFrom(s: string, p: nat): Option<string>
    requires p <= |s|
    decreases |s| - p
  {
    if MatchAt(s, p).Some? then MatchAt(s, p)
    else if p == |s| then None
    else SearchFrom(s, p + 1)
  }

  /** `content =~ pattern` followed by `$1`. */
  function GemNameIn(content: string): Option<string>
  {
    SearchFrom(content, 0)
  }

  /** What detect_gem_name finds: nothing without a gemspec, otherwise the
      match in the first one; reading a name that is not a file raises. */
  datatype GemLookup = Named(name: string) | Unnamed | ReadFails

  function DetectGemName(entries: map<string, Node>, gemspecs: seq<string>): GemLookup
  {
    if gemspecs == [] then Unnamed
    else if gemspecs[0] !in entries || entries[gemspecs[0]].Directory? then ReadFails
    else match GemNameIn(entries[gemspecs[0]].content)
      case Some(n) => Named(n)
      case None => Unnamed
  }

  /** The pattern `spec\.name\s*=\s*["']([^"']+)["']` matches at `p` with the
      `=` at `a`, the opening quote at `b` and the closing quote at `c`. */
  predicate MatchesWith(s: string, p: nat, a: nat, b: nat, c: nat)
  {
    && p + 9 <= a < b < c < |s|
    && s[p..p + 9] == "spec.name"
    && (forall x :: p + 9 <= x < a ==> RegexSpace(s[x]))
    && s[a] == '='
    && (forall x :: a + 1 <= x < b ==> RegexSpace(s[x]))
    && IsQuote(s[b])
    && b + 1 < c
    && (forall x :: b + 1 <= x < c ==> !IsQuote(s[x]))
    && IsQuote(s[c])
  }

  /** Any way of matching the pattern at `p` yields the capture MatchAt
      returns: the match is unique. */
  lemma MatchAtComplete(s: string, p: nat, a: nat, b: nat, c: nat)
    requires MatchesWith(s, p, a, b, c)
    ensures MatchAt(s, p) == Some(s[b + 1..c])
  {
    var i := SkipRegexSpace(s, p + 9);
    assert i == a;
    var j := SkipRegexSpace(s, i + 1);
    assert j == b;
    var k := QuoteRunEnd(s, j + 1);
    assert k == c;
  }

  /** Conversely, a capture comes from a match of the whole pattern at `p`:
      it is non-empty and holds no quote. */
  lemma MatchAtSound(s: string, p: nat)
    requires p <= |s| && MatchAt(s, p).Some?
    ensures exists a: nat, b: nat, c: nat :: MatchesWith(s, p, a, b, c) && MatchAt(s, p).value == s[b + 1..c]
    ensures MatchAt(s, p).value != []
    ensures forall x :: 0 <= x < |MatchAt(s, p).value| ==> !IsQuote(MatchAt(s, p).value[x])
  {
    var i := SkipRegexSpace(s, p + 9);
    var j := SkipRegexSpace(s, i + 1);
    var k := QuoteRunEnd(s, j + 1);
    var v := s[j + 1..k];
    assert MatchAt(s, p).value == v;
    assert MatchesWith(s, p, i, j, k);
    forall x | 0 <= x < |v|
      ensures !IsQuote(v[x])
    {
      assert v[x] == s[j + 1 + x];
    }
  }

  /** The search returns the leftmost match. */
  lemma {:induction false} SearchFromLeftmost(s: string, p: nat)
    requires p <= |s| && SearchFrom(s, p).Some?
    ensures exists q :: p <= q <= |s| && MatchAt(s, q) == SearchFrom(s, p)
                && forall x :: p <= x < q ==> MatchAt(s, x).None?
    decreases |s| - p
  {
    if MatchAt(s, p).Some? {
      assert MatchAt(s, p) == SearchFrom(s, p);
    } else {
      SearchFromLeftmost(s, p + 1);
      var q :| p + 1 <= q <= |s| && MatchAt(s, q) == SearchFrom(s, p + 1)
               && forall x :: p + 1 <= x < q ==> MatchAt(s, x).None?;
      assert forall x :: p <= x < q ==> MatchAt(s, x).None?;
    }
  }

  /** A match anywhere at or after `p` is found. */
  lemma {:induction false} SearchFromFinds(s: string, p: nat, q: nat)
    requires p <= q <= |s| && MatchAt(s, q).Some?
    ensures SearchFrom(s, p).Some?
    decreases q - p
  {
    if p < q && MatchAt(s, p).None? {
      SearchFromFinds(s, p + 1, q);
    }
  }

  /** A gemspec whose text starts with the usual declaration yields its
      name, quoted either way. */
  lemma GemNameOfDeclaration(name: string, open: char, close: char, rest: string)
    requires name != [] && IsQuote(open) && IsQuote(close)
    requires forall x :: 0 <= x < |name| ==> !IsQuote(name[x])
    ensures GemNameIn("spec.name = " + [open] + name + [close] + rest) == Some(name)
  {
    var s := "spec.name = " + [open] + name + [close] + rest;
    var c := 13 + |name|;
    assert s[..9] == "spec.name";
    assert s[13..c] == name;
    forall x | 14 <= x < c
      ensures !IsQuote(s[x])
    {
      assert s[x] == name[x - 13];
    }
    MatchAtComplete(s, 0, 10, 12, c);
  }

  // ---------------------------------------------------------------------
  // The command

  /** `options[:name] || detect_gem_name || File.basename(Dir.pwd)`. An
      empty `--name` value is a string, so it is kept. */
  function ChildName(option: Option<string>, gem: GemLookup, cwdName: string): string
    requires !gem.ReadFails?
  {
    if option.Some? then option.value else if gem.Named? then gem.name else cwdName
  }

  /** The effect of create_directory_structure on `dirs`: the entries after,
      the directories created (for the "Created" lines), and whether a mkdir
      raised because a non-directory already has that name. */
  datatype DirsRun = DirsRun(entries: map<string, Node>, created: seq<string>, raised: bool)

  function MakeDirs(entries: map<string, Node>, dirs: seq<string>): DirsRun
    decreases |dirs|
  {
    if dirs == [] then DirsRun(entries, [], false)
    else
      var d := dirs[0];
      if d in entries && entries[d].Directory? then MakeDirs(entries, dirs[1..])
      else if d in entries then DirsRun(entries, [], true)
      else
        var rest := MakeDirs(entries[d := Directory], dirs[1..]);
        DirsRun(rest.entries, [d] + rest.created, rest.raised)
  }

  datatype InitResult = Exited(code: int) | Raised

  /** The reference outcome of InitCommand#execute: the entries after the run,
      its result and the name it chose (when it got that far). */
  datatype InitRun = InitRun(entries: map<string, Node>, result: InitResult, name: Option<string>, created: seq<string>)

  function InitSpec(entries: map<string, Node>, cwdName: string, option: Option<string>, gemspecs: seq<string>): InitRun
  {
    if IniPath in entries then InitRun(entries, Exited(1), None, [])
    else
      var gem := if option.Some? then Unnamed else DetectGemName(entries, gemspecs);
      if gem.ReadFails? then InitRun(entries, Raised, None, [])
      else
        var name := ChildName(option, gem, cwdName);
        var dirs := MakeDirs(entries[IniPath := File(ConfigContent(name))], Layout);
        InitRun(dirs.entries, if dirs.raised then Raised else Exited(0), Some(name), dirs.created)
  }

  class Workspace {
    var entries: map<string, Node>
    const cwdName: string

    constructor(entries0: map<string, Node>, cwdName0: string)
      ensures entries == entries0 && cwdName == cwdName0
    {
      entries := entries0;
      cwdName := cwdName0;
    }
  }

  class InitCommand {
    /** The `--name` option, if given. */
    const name: Option<string>

    constructor(name0: Option<string>)
      ensures name == name0
    {
      name := name0;
    }

    /** create_directory_structure: make each missing directory of `dirs`. */
    method CreateDirectoryStructure(ws: Workspace, dirs: seq<string>) returns (created: seq<string>, raised: bool)
      modifies ws
      ensures MakeDirs(old(ws.entries), dirs) == DirsRun(ws.entries, created, raised)
    {
      created := [];
      var i := 0;
      while i < |dirs|
        invariant 0 <= i <= |dirs|
        invariant var rest := MakeDirs(ws.entries, dirs[i..]);
                  MakeDirs(old(ws.entries), dirs) == DirsRun(rest.entries, created + rest.created, rest.raised)
      {
        var d := dirs[i];
        assert dirs[i..][1..] == dirs[i + 1..];
        if d in ws.entries && ws.entries[d].Directory? {
        } else if d in ws.entries {
          return created, true;
        } else {
          ws.entries := ws.entries[d := Directory];
          created := created + [d];
        }
        i := i + 1;
      }
      assert dirs[i..] == [];
      return created, false;
    }

    /** InitCommand#execute. */
    method Execute(ws: Workspace, gemspecs: seq<string>) returns (result: InitResult, chosen: Option<string>, created: seq<string>)
      modifies ws
      ensures InitSpec(old(ws.entries), ws.cwdName, name, gemspecs) == InitRun(ws.entries, result, chosen, created)
    {
      if IniPath in ws.entries {
        return Exited(1), None, [];
      }
      var childName;
      if name.Some? {
        childName := name.value;
      } else {
        var gem := DetectGemName(ws.entries, gemspecs);
        if gem.ReadFails? {
          return Raised, None, [];
        }
        childName := ChildName(name, gem, ws.cwdName);
      }
      ws.entries := ws.entries[IniPath := File(ConfigContent(childName))];
      var raised;
      created, raised := CreateDirectoryStructure(ws, Layout);
      result := if raised then Raised else Exited(0);
      chosen := Some(childName);
    }
  }

  // ---------------------------------------------------------------------
  // Properties of init

  /** A second init is refused: exit 1, nothing written, nothing created. */
  lemma ExistingConfigRefused(entries: map<string, Node>, cwdName: string, option: Option<string>, gemspecs: seq<string>)
    requires IniPath in entries
    ensures InitSpec(entries, cwdName, option, gemspecs) == InitRun(entries, Exited(1), None, [])
  {
  }

  /** The name chosen: the option, else the gemspec's name, else the
      directory's own name. */
  lemma NamePriority(entries: map<string, Node>, cwdName: string, option: Option<string>, gemspecs: seq<string>)
    requires IniPath !in entries
    requires InitSpec(entries, cwdName, option, gemspecs).name.Some?
    ensures var n := InitSpec(entries, cwdName, option, gemspecs).name.value;
            && (option.Some? ==> n == option.value)
            && (option.None? && DetectGemName(entries, gemspecs).Named? ==> n == DetectGemName(entries, gemspecs).name)
            && (option.None? && DetectGemName(entries, gemspecs).Unnamed? ==> n == cwdName)
  {
  }

  /** mkdir raises exactly when one of the names is taken by something that
      is not a directory. */
  lemma {:induction false} MakeDirsRaises(entries: map<string, Node>, dirs: seq<string>)
    ensures MakeDirs(entries, dirs).raised <==> exists i :: 0 <= i < |dirs| && dirs[i] in entries && entries[dirs[i]].File?
    decreases |dirs|
  {
    if dirs != [] {
      var d := dirs[0];
      var next := if d in entries then entries else entries[d := Directory];
      if !(d in entries && entries[d].File?) {
        MakeDirsRaises(next, dirs[1..]);
        assert forall i :: 1 <= i < |dirs| ==> (dirs[i] in next && next[dirs[i]].File? <==> dirs[i] in entries && entries[dirs[i]].File?);
        if MakeDirs(entries, dirs).raised {
          var i :| 0 <= i < |dirs[1..]| && dirs[1..][i] in next && next[dirs[1..][i]].File?;
          assert dirs[i + 1] == dirs[1..][i];
        }
        if exists i :: 0 <= i < |dirs| && dirs[i] in entries && entries[dirs[i]].File? {
          var i :| 0 <= i < |dirs| && dirs[i] in entries && entries[dirs[i]].File?;
          assert dirs[1..][i - 1] == dirs[i];
        }
      }
    }
  }

  /** Nothing existing is overwritten or removed; only directories are added. */
  lemma {:induction false} MakeDirsPreserves(entries: map<string, Node>, dirs: seq<string>)
    ensures var after := MakeDirs(entries, dirs).entries;
            && (forall p :: p in entries ==> p in after && after[p] == entries[p])
            && (forall p :: p in after && p !in entries ==> after[p] == Directory && p in dirs)
    decreases |dirs|
  {
    if dirs != [] {
      var d := dirs[0];
      if d !in entries {
        MakeDirsPreserves(entries[d := Directory], dirs[1..]);
      } else if entries[d].Directory? {
        MakeDirsPreserves(entries, dirs[1..]);
      }
    }
  }

  /** After a run that does not raise, every name is a directory, and the ones
      created are exactly the names that did not exist before. */
  lemma {:induction false} MakeDirsCreatesMissing(entries: map<string, Node>, dirs: seq<string>)
    requires !MakeDirs(entries, dirs).raised
    ensures forall d :: d in dirs ==> d in MakeDirs(entries, dirs).entries && MakeDirs(entries, dirs).entries[d] == Directory
    ensures forall d :: d in MakeDirs(entries, dirs).created <==> d in dirs && d !in entries
    decreases |dirs|
  {
    if dirs != [] {
      var d := dirs[0];
      var next := if d in entries then entries else entries[d := Directory];
      MakeDirsCreatesMissing(next, dirs[1..]);
      MakeDirsPreserves(next, dirs[1..]);
    }
  }

  /** A second pass over the same names creates nothing and changes nothing. */
  lemma MakeDirsIdempotent(entries: map<string, Node>, dirs: seq<string>)
    requires !MakeDirs(entries, dirs).raised
    ensures var after := MakeDirs(entries, dirs).entries;
            MakeDirs(after, dirs) == DirsRun(after, [], false)
  {
    var after := MakeDirs(entries, dirs).entries;
    MakeDirsCreatesMissing(entries, dirs);
    AllPresent(after, dirs);
  }

  lemma {:induction false} AllPresent(entries: map<string, Node>, dirs: seq<string>)
    requires forall d :: d in dirs ==> d in entries && entries[d] == Directory
    ensures MakeDirs(entries, dirs) == DirsRun(entries, [], false)
    decreases |dirs|
  {
    if dirs != [] {
      AllPresent(entries, dirs[1..]);
    }
  }

  /** A successful init: exit 0, the template written with the chosen name,
      lib, spec and bin all directories, every other entry as it was, and the
      "Created" lines exactly for the directories that were missing. */
  lemma SuccessfulInit(entries: map<string, Node>, cwdName: string, option: Option<string>, gemspecs: seq<string>)
    requires InitSpec(entries, cwdName, option, gemspecs).result == Exited(0)
    ensures var r := InitSpec(entries, cwdName, option, gemspecs);
            && IniPath !in entries
            && r.name.Some?
            && IniPath in r.entries && r.entries[IniPath] == File(ConfigContent(r.name.value))
            && (forall d :: d in Layout ==> d in r.entries && r.entries[d] == Directory)
            && (forall p :: p in entries ==> p in r.entries && r.entries[p] == entries[p])
            && (forall p :: p in r.entries ==> p in entries || p == IniPath || p in Layout)
            && (forall d :: d in r.created <==> d in Layout && d !in entries)
  {
    var gem := if option.Some? then Unnamed else DetectGemName(entries, gemspecs);
    var name := ChildName(option, gem, cwdName);
    var written := entries[IniPath := File(ConfigContent(name))];
    MakeDirsPreserves(written, Layout);
    MakeDirsCreatesMissing(written, Layout);
    assert IniPath !in Layout;
  }

  /** init fails (raises, so the CLI exits 1) when the first gemspec cannot be
      read or when lib, spec or bin names a file; the other results are 0 or
      the refusal. */
  lemma InitResults(entries: map<string, Node>, cwdName: string, option: Option<string>, gemspecs: seq<string>)
    requires IniPath !in entries
    ensures InitSpec(entries, cwdName, option, gemspecs).result == Raised
            <==> (option.None? && DetectGemName(entries, gemspecs).ReadFails?)
                 || (exists i :: 0 <= i < |Layout| && Layout[i] in entries && entries[Layout[i]].File?)
  {
    var gem := if option.Some? then Unnamed else DetectGemName(entries, gemspecs);
    if !gem.ReadFails? {
      var name := ChildName(option, gem, cwdName);
      var written := entries[IniPath := File(ConfigContent(name))];
      MakeDirsRaises(written, Layout);
      assert IniPath !in Layout;
      assert forall i :: 0 <= i < |Layout| ==> (Layout[i] in written && written[Layout[i]].File? <==> Layout[i] in entries && entries[Layout[i]].File?);
    }
  }

  /** After a successful init, running it again is refused and changes nothing. */
  lemma InitAgainRefused(entries: map<string, Node>, cwdName: string, option: Option<string>, gemspecs: seq<string>,
                         option2: Option<string>, gemspecs2: seq<string>)
    requires InitSpec(entries, cwdName, option, gemspecs).result == Exited(0)
    ensures var after := InitSpec(entries, cwdName, option, gemspecs).entries;
            InitSpec(after, cwdName, option2, gemspecs2) == InitRun(after, Exited(1), None, [])
  {
    SuccessfulInit(entries, cwdName, option, gemspecs);
  }
}
