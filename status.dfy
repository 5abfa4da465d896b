/** The `status` command: the working tree report built from
    `git status --short` and the branch report built from the current branch
    name and the `rev-list --left-right --count` ahead/behind pair.

    Each git call is an oracle: its output text and whether it succeeded. */
module Status {
  import opened Common

  /** What a git invocation reports. */
  datatype GitOutput = GitOutput(output: string, success: bool)

  /** The three lists a dirty tree is reported in. */
  datatype Group = StagedList | ModifiedList | UntrackedList

  /** Where one line of short-format output lands. */
  datatype LineKind = Listed(group: Group, path: string) | Ignored

  datatype Changes = Changes(staged: seq<string>, modified: seq<string>, untracked: seq<string>)

  datatype TreeStatus = StatusError | Clean | Dirty(changes: Changes)

  /** The stripped line is tested for "M ", then "??", then "A ". The
      untracked name starts after the third character; a line too short for
      one yields nil in Ruby, which prints as the empty name. */
  function ClassifyLine(raw: string): LineKind
  {
    ClassifyStripped(Strip(raw))
  }

  function ClassifyStripped(line: string): LineKind
  {
    if StartsWith(line, "M ") then Listed(ModifiedList, line[2..])
    else if StartsWith(line, "??") then Listed(UntrackedList, if |line| >= 3 then line[3..] else "")
    else if StartsWith(line, "A ") then Listed(StagedList, line[2..])
    else Ignored
  }

  function ListOf(c: Changes, g: Group): seq<string>
  {
    match g
    case StagedList => c.staged
    case ModifiedList => c.modified
    case UntrackedList => c.untracked
  }

  function Add(c: Changes, k: LineKind): Changes
  {
    if k.Ignored? then c
    else match k.group
      case StagedList => Changes(c.staged + [k.path], c.modified, c.untracked)
      case ModifiedList => Changes(c.staged, c.modified + [k.path], c.untracked)
      case UntrackedList => Changes(c.staged, c.modified, c.untracked + [k.path])
  }

  /** The classification of every line, in order. */
  function Kinds(lines: seq<string>): (ks: seq<LineKind>)
    ensures |ks| == |lines| && forall i :: 0 <= i < |lines| ==> ks[i] == ClassifyLine(lines[i])
  {
    seq(|lines|, i requires 0 <= i < |lines| => ClassifyLine(lines[i]))
  }

  /** Lines are classified independently of the lines around them. */
  lemma KindsAppend(a: seq<string>, b: seq<string>)
    ensures Kinds(a + b) == Kinds(a) + Kinds(b)
  {
  }

  /** The three lists after adding the classified lines in order. */
  function Collect(ks: seq<LineKind>): Changes
    decreases |ks|
  {
    if ks == [] then Changes([], [], [])
    else Add(Collect(ks[..|ks| - 1]), ks[|ks| - 1])
  }

  /** The tree report of check_repository_status. */
  function RepositoryStatus(query: GitOutput): TreeStatus
  {
    if !query.success then StatusError
    else if Strip(query.output) == [] then Clean
    else Dirty(Collect(Kinds(Lines(query.output))))
  }

  /** check_repository_status: the loop over the output lines appending to the
      three local lists. */
  method CheckRepositoryStatus(query: GitOutput) returns (r: TreeStatus)
    ensures r == RepositoryStatus(query)
  {
    if !query.success {
      return StatusError;
    }
    if Strip(query.output) == [] {
      return Clean;
    }
    var changes := CollectLines(Lines(query.output));
    r := Dirty(changes);
  }

  /** The each_line loop of check_repository_status, appending each stripped
      line's name to the list its prefix selects. */
  method CollectLines(lines: seq<string>) returns (r: Changes)
    ensures r == Collect(Kinds(lines))
  {
    ghost var ks := Kinds(lines);
    var staged, modified, untracked := [], [], [];
    var i := 0;
    assert ks[..0] == [];
    while i < |lines|
      invariant 0 <= i <= |lines|
      invariant Changes(staged, modified, untracked) == Collect(ks[..i])
    {
      var kind := ClassifyLine(lines[i]);
      assert kind == ks[i];
      staged, modified, untracked := AppendByPrefix(staged, modified, untracked, kind);
      CollectStep(ks, i);
      i := i + 1;
    }
    assert ks[..|ks|] == ks;
    r := Changes(staged, modified, untracked);
  }

  /** The body of the each_line loop: append the line's path to the list its
      kind (computed by ClassifyStripped) selects. */
  method AppendByPrefix(staged: seq<string>, modified: seq<string>, untracked: seq<string>, kind: LineKind)
    returns (staged': seq<string>, modified': seq<string>, untracked': seq<string>)
    ensures Changes(staged', modified', untracked') == Add(Changes(staged, modified, untracked), kind)
  {
    staged', modified', untracked' := staged, modified, untracked;
    if kind.Listed? && kind.group == ModifiedList {
      modified' := modified + [kind.path];
    } else if kind.Listed? && kind.group == UntrackedList {
      untracked' := untracked + [kind.path];
    } else if kind.Listed? && kind.group == StagedList {
      staged' := staged + [kind.path];
    }
  }

  lemma CollectStep(ks: seq<LineKind>, i: nat)
    requires i < |ks|
    ensures Collect(ks[..i + 1]) == Add(Collect(ks[..i]), ks[i])
  {
    assert ks[..i + 1][..i] == ks[..i];
  }

  // ---------------------------------------------------------------------
  // Properties of the classifier

  lemma StripLeadingSpace(x: string)
    ensures Strip([' '] + x) == Strip(x)
  {
    assert ([' '] + x)[1..] == x;
  }

  /** A status code that starts with a non-space, a path that ends with one,
      and the line feed: strip removes only the line feed. */
  lemma ClassifyRendered(line: string, code: string, path: string)
    requires code != [] && !IsSpace(code[0]) && path != [] && !IsSpace(path[|path| - 1])
    requires line == code + path + "\n"
    ensures ClassifyLine(line) == ClassifyStripped(code + path)
  {
    var s := code + path;
    assert s[0] == code[0] && s[|s| - 1] == path[|path| - 1];
    StripLine(s);
  }

  /** The same behind the space of an unchanged index column. */
  lemma ClassifyRenderedUnstaged(line: string, code: string, path: string)
    requires code != [] && !IsSpace(code[0]) && path != [] && !IsSpace(path[|path| - 1])
    requires line == [' '] + (code + path + "\n")
    ensures ClassifyLine(line) == ClassifyStripped(code + path)
  {
    StripLeadingSpace(code + path + "\n");
    var s := code + path;
    assert s[0] == code[0] && s[|s| - 1] == path[|path| - 1];
    StripLine(s);
  }

  /** git's short-format line for an unstaged modification lists the path as
      modified. */
  lemma UnstagedModificationLine(path: string)
    requires path != [] && !IsSpace(path[|path| - 1])
    ensures ClassifyLine(" M " + path + "\n") == Listed(ModifiedList, path)
  {
    assert " M " + path + "\n" == [' '] + ("M " + path + "\n");
    ClassifyRenderedUnstaged(" M " + path + "\n", "M ", path);
    assert ("M " + path)[..2] == "M " && ("M " + path)[2..] == path;
  }

  /** A staged modification is listed as modified too, with the space of the
      empty work-tree column in front of the path. */
  lemma StagedModificationLine(path: string)
    requires path != [] && !IsSpace(path[|path| - 1])
    ensures ClassifyLine("M  " + path + "\n") == Listed(ModifiedList, " " + path)
  {
    ClassifyRendered("M  " + path + "\n", "M  ", path);
    StagedModificationStripped("M  " + path, path);
  }

  lemma StagedModificationStripped(s: string, path: string)
    requires s == "M  " + path
    ensures ClassifyStripped(s) == Listed(ModifiedList, " " + path)
  {
    assert s[..2] == "M ";
    assert s[2..] == " " + path;
  }

  /** An untracked path is listed as untracked under its own name. */
  lemma UntrackedLine(path: string)
    requires path != [] && !IsSpace(path[|path| - 1])
    ensures ClassifyLine("?? " + path + "\n") == Listed(UntrackedList, path)
  {
    ClassifyRendered("?? " + path + "\n", "?? ", path);
    assert ("?? " + path)[..2] == "??" && ("?? " + path)[3..] == path;
  }

  /** A staged addition is listed as staged, with the column space in front
      of the path. */
  lemma AddedLine(path: string)
    requires path != [] && !IsSpace(path[|path| - 1])
    ensures ClassifyLine("A  " + path + "\n") == Listed(StagedList, " " + path)
  {
    ClassifyRendered("A  " + path + "\n", "A  ", path);
    AddedStripped("A  " + path, path);
  }

  lemma AddedStripped(s: string, path: string)
    requires s == "A  " + path
    ensures ClassifyStripped(s) == Listed(StagedList, " " + path)
  {
    assert s[0] == 'A';
    assert s[..2] == "A ";
    assert s[2..] == " " + path;
  }

  /** Any other index status (a deletion, a rename, a doubly modified path)
      is in no list. */
  lemma OtherIndexStatusLine(x: char, y: char, path: string)
    requires !IsSpace(x) && [x, y] != "M " && [x, y] != "??" && [x, y] != "A "
    requires path != [] && !IsSpace(path[|path| - 1])
    ensures ClassifyLine([x, y, ' '] + path + "\n") == Ignored
  {
    ClassifyRendered([x, y, ' '] + path + "\n", [x, y, ' '], path);
    assert ([x, y, ' '] + path)[..2] == [x, y];
  }

  /** Any work-tree status other than a modification, behind an unchanged
      index column, is in no list. */
  lemma OtherWorkTreeStatusLine(y: char, path: string)
    requires !IsSpace(y) && y != 'M' && y != 'A'
    requires path != [] && !IsSpace(path[|path| - 1])
    ensures ClassifyLine([' ', y, ' '] + path + "\n") == Ignored
  {
    assert [' ', y, ' '] + path + "\n" == [' '] + ([y, ' '] + path + "\n");
    ClassifyRenderedUnstaged([' ', y, ' '] + path + "\n", [y, ' '], path);
    assert ([y, ' '] + path)[..2] == [y, ' '];
  }

  /** The number of lines that are not ignored. */
  function ListedCount(ks: seq<LineKind>): (n: nat)
    ensures n <= |ks|
    decreases |ks|
  {
    if ks == [] then 0
    else ListedCount(ks[..|ks| - 1]) + (if ks[|ks| - 1].Ignored? then 0 else 1)
  }

  /** Every line lands in at most one list: the three list lengths add up to
      the number of lines that are not ignored. */
  lemma {:induction false} CollectCounts(ks: seq<LineKind>)
    ensures |Collect(ks).staged| + |Collect(ks).modified| + |Collect(ks).untracked| == ListedCount(ks)
    decreases |ks|
  {
    if ks != [] {
      CollectCounts(ks[..|ks| - 1]);
    }
  }

  /** Adding a line extends only the list of its own group, by its name. */
  lemma AddExtends(c: Changes, k: LineKind, g: Group)
    ensures ListOf(Add(c, k), g) == ListOf(c, g) + (if k.Listed? && k.group == g then [k.path] else [])
  {
  }

  /** A path is in a list exactly when some line is classified into that list
      under that name. */
  lemma {:induction false} CollectMembership(ks: seq<LineKind>, g: Group, p: string)
    ensures p in ListOf(Collect(ks), g) <==> exists i :: 0 <= i < |ks| && ks[i] == Listed(g, p)
    decreases |ks|
  {
    if ks != [] {
      var init := ks[..|ks| - 1];
      CollectMembership(init, g, p);
      AddExtends(Collect(init), ks[|ks| - 1], g);
      if exists i :: 0 <= i < |ks| && ks[i] == Listed(g, p) {
        var i :| 0 <= i < |ks| && ks[i] == Listed(g, p);
        if i < |ks| - 1 {
          assert init[i] == ks[i];
        }
      }
      if exists i :: 0 <= i < |init| && init[i] == Listed(g, p) {
        var i :| 0 <= i < |init| && init[i] == Listed(g, p);
        assert ks[i] == init[i];
      }
    }
  }

  /** The lists keep input order: more lines only extend each list. */
  lemma {:induction false} CollectExtends(ks: seq<LineKind>, more: seq<LineKind>, g: Group)
    ensures var before := ListOf(Collect(ks), g);
            var after := ListOf(Collect(ks + more), g);
            |before| <= |after| && after[..|before|] == before
    decreases |more|
  {
    if more == [] {
      assert ks + more == ks;
    } else {
      var shorter := more[..|more| - 1];
      CollectExtends(ks, shorter, g);
      assert (ks + more)[..|ks + more| - 1] == ks + shorter;
      AddExtends(Collect(ks + shorter), more[|more| - 1], g);
    }
  }

  /** An ignored line changes no list. */
  lemma IgnoredLine(ks: seq<LineKind>)
    ensures Collect(ks + [Ignored]) == Collect(ks)
  {
    assert (ks + [Ignored])[..|ks|] == ks;
  }

  lemma LinesOfTwo(la: string, lb: string)
    requires '\n' !in la && '\n' !in lb
    ensures Lines(la + "\n" + lb + "\n") == [la + "\n", lb + "\n"]
  {
    var second := lb + "\n";
    LinesCons(lb, "");
    assert lb + "\n" + "" == second;
    assert Lines("") == [];
    LinesCons(la, second);
    assert la + "\n" + second == la + "\n" + lb + "\n";
  }

  lemma CollectTwo(k1: LineKind, k2: LineKind)
    ensures Collect([k1, k2]) == Add(Add(Changes([], [], []), k1), k2)
  {
    assert [k1, k2][..1] == [k1];
    assert [k1][..0] == [];
    assert Collect([k1]) == Add(Changes([], [], []), k1);
  }

  /** Output that does not strip to nothing is classified line by line. */
  lemma DirtyOutput(out: string)
    requires Strip(out) != []
    ensures RepositoryStatus(GitOutput(out, true)) == Dirty(Collect(Kinds(Lines(out))))
  {
  }

  /** Two untracked lines and nothing else give exactly those two names, in
      order, and no staged or modified entry. */
  lemma TwoUntrackedLines(a: string, b: string)
    requires a != [] && b != [] && '\n' !in a && '\n' !in b
    requires !IsSpace(a[|a| - 1]) && !IsSpace(b[|b| - 1])
    ensures RepositoryStatus(GitOutput(("?? " + a) + "\n" + ("?? " + b) + "\n", true)) == Dirty(Changes([], [], [a, b]))
  {
    var out := ("?? " + a) + "\n" + ("?? " + b) + "\n";
    StripKeepsNonSpace(out, 0);
    LinesOfTwo("?? " + a, "?? " + b);
    UntrackedKinds(a, b);
    DirtyOutput(out);
  }

  lemma UntrackedKinds(a: string, b: string)
    requires a != [] && b != [] && !IsSpace(a[|a| - 1]) && !IsSpace(b[|b| - 1])
    ensures Collect(Kinds([("?? " + a) + "\n", ("?? " + b) + "\n"])) == Changes([], [], [a, b])
  {
    KindsTwo(("?? " + a) + "\n", ("?? " + b) + "\n");
    UntrackedLine(a);
    UntrackedLine(b);
    CollectTwo(Listed(UntrackedList, a), Listed(UntrackedList, b));
  }

  lemma KindsTwo(x: string, y: string)
    ensures Kinds([x, y]) == [ClassifyLine(x), ClassifyLine(y)]
  {
  }

  /** A failed status query reports an error and classifies nothing; blank
      output reports a clean tree. */
  lemma StatusShortcuts(query: GitOutput)
    ensures !query.success ==> RepositoryStatus(query) == StatusError
    ensures query.success ==> (RepositoryStatus(query) == Clean <==> Strip(query.output) == [])
  {
  }

  // ---------------------------------------------------------------------
  // Branch information

  datatype BranchState =
    | Detached
    | NoUpstream
    | AheadAndBehind(ahead: int, behind: int)
    | Ahead(ahead: int)
    | Behind(behind: int)
    | UpToDate

  /** The four-way decision on the ahead/behind pair. */
  function CompareCounts(ahead: int, behind: int): BranchState
  {
    if ahead > 0 && behind > 0 then AheadAndBehind(ahead, behind)
    else if ahead > 0 then Ahead(ahead)
    else if behind > 0 then Behind(behind)
    else UpToDate
  }

  /** check_branch_info; None when comparing a missing count raises
      NoMethodError (fewer than two tab-separated fields). */
  function BranchInfo(branchQuery: GitOutput, revList: GitOutput): Option<BranchState>
  {
    var branch := Strip(branchQuery.output);
    if !branchQuery.success || branch == [] then Some(Detached)
    else if !revList.success then Some(NoUpstream)
    else
      var fields := Split(Strip(revList.output), '\t');
      if |fields| < 2 then None
      else Some(CompareCounts(ToI(fields[0]), ToI(fields[1])))
  }

  /** Exactly one of the four states holds for any pair of counts, and which
      one is fixed by the signs. */
  lemma CompareCountsCases(ahead: int, behind: int)
    ensures CompareCounts(ahead, behind).AheadAndBehind? <==> ahead > 0 && behind > 0
    ensures CompareCounts(ahead, behind).Ahead? <==> ahead > 0 && behind <= 0
    ensures CompareCounts(ahead, behind).Behind? <==> ahead <= 0 && behind > 0
    ensures CompareCounts(ahead, behind) == UpToDate <==> ahead <= 0 && behind <= 0
    ensures !CompareCounts(ahead, behind).Detached? && !CompareCounts(ahead, behind).NoUpstream?
  {
  }

  /** The tab-separated count pair splits back into the two printed counts. */
  lemma CountFields(ahead: nat, behind: nat)
    ensures Split(Strip(NatToString(ahead) + "\t" + NatToString(behind) + "\n"), '\t') == [NatToString(ahead), NatToString(behind)]
  {
    var a := NatToString(ahead);
    var b := NatToString(behind);
    StripCountLine(a, b);
    NoTabInDigits(a);
    NoTabInDigits(b);
    assert a + "\t" + b == a + ['\t'] + b;
    SplitPair(a, b, '\t');
  }

  lemma StripCountLine(a: string, b: string)
    requires a != [] && b != [] && IsDigit(a[0]) && IsDigit(b[|b| - 1])
    ensures Strip(a + "\t" + b + "\n") == a + "\t" + b
  {
    var s := a + "\t" + b;
    assert s[0] == a[0] && s[|s| - 1] == b[|b| - 1];
    StripLine(s);
  }

  lemma NoTabInDigits(s: string)
    requires forall i :: 0 <= i < |s| ==> IsDigit(s[i])
    ensures '\t' !in s
  {
    assert forall i :: 0 <= i < |s| ==> s[i] != '\t';
  }

  /** The rev-list output "A\tB\n" for counts A and B is read back as the
      counts themselves. */
  lemma {:induction false} BranchInfoFromCounts(branchQuery: GitOutput, ahead: nat, behind: nat)
    requires branchQuery.success && Strip(branchQuery.output) != []
    ensures BranchInfo(branchQuery, GitOutput(NatToString(ahead) + "\t" + NatToString(behind) + "\n", true))
            == Some(CompareCounts(ahead, behind))
  {
    CountFields(ahead, behind);
    ToINatToString(ahead);
    ToINatToString(behind);
  }

  /** An empty or failed branch query reports a detached HEAD; a failed
      rev-list reports no upstream; a rev-list with fewer than two fields
      raises. */
  lemma BranchShortcuts(branchQuery: GitOutput, revList: GitOutput)
    ensures !branchQuery.success || Strip(branchQuery.output) == [] ==> BranchInfo(branchQuery, revList) == Some(Detached)
    ensures branchQuery.success && Strip(branchQuery.output) != [] && !revList.success ==> BranchInfo(branchQuery, revList) == Some(NoUpstream)
    ensures branchQuery.success && Strip(branchQuery.output) != [] && revList.success && |Split(Strip(revList.output), '\t')| < 2
            ==> BranchInfo(branchQuery, revList) == None
  {
  }

  /** The external calls of StatusCommand#execute, in the order it makes them:
      the configuration reads of show_child_header, `git status --short`,
      `git branch --show-current` and `git rev-list`. */
  datatype Call = Header | StatusQuery | BranchQuery | RevList

  /** check_branch_info asks for the ahead/behind counts only on a named branch. */
  predicate RevListCalled(branchQuery: GitOutput)
  {
    branchQuery.success && Strip(branchQuery.output) != []
  }

  /** The exit code and the two reports; a report is None when a raise ended
      the run before it was made, or, for the branch, in it. */
  datatype StatusRun = StatusRun(code: int, tree: Option<TreeStatus>, branch: Option<BranchState>)

  /** The reference outcome of StatusCommand#execute, where `raisesAt` names the
      call, if any, that raises a StandardError not rescued on the way. */
  function StatusOutcome(statusQuery: GitOutput, branchQuery: GitOutput, revList: GitOutput, raisesAt: Option<Call>): StatusRun
  {
    if raisesAt == Some(Header) || raisesAt == Some(StatusQuery) then StatusRun(1, None, None)
    else
      var tree := Some(RepositoryStatus(statusQuery));
      if raisesAt == Some(BranchQuery) || (raisesAt == Some(RevList) && RevListCalled(branchQuery)) then StatusRun(1, tree, None)
      else
        var branch := BranchInfo(branchQuery, revList);
        StatusRun(if branch.None? then 1 else 0, tree, branch)
  }

  /** StatusCommand#execute: the header, the tree report, then the branch
      report; 0 unless a StandardError escapes, then 1. */
  method Execute(statusQuery: GitOutput, branchQuery: GitOutput, revList: GitOutput, raisesAt: Option<Call>)
    returns (code: int, tree: Option<TreeStatus>, branch: Option<BranchState>)
    ensures StatusRun(code, tree, branch) == StatusOutcome(statusQuery, branchQuery, revList, raisesAt)
  {
    tree, branch := None, None;
    if raisesAt == Some(Header) || raisesAt == Some(StatusQuery) {
      return 1, tree, branch;
    }
    var t := CheckRepositoryStatus(statusQuery);
    tree := Some(t);
    if raisesAt == Some(BranchQuery) {
      return 1, tree, branch;
    }
    if RevListCalled(branchQuery) && raisesAt == Some(RevList) {
      return 1, tree, branch;
    }
    branch := BranchInfo(branchQuery, revList);
    code := if branch.None? then 1 else 0;
  }

  /** The exit code is 0 or 1, and 1 exactly when an external call that is
      made raises or the comparison of a missing count raises. */
  lemma StatusExitCode(statusQuery: GitOutput, branchQuery: GitOutput, revList: GitOutput, raisesAt: Option<Call>)
    ensures var r := StatusOutcome(statusQuery, branchQuery, revList, raisesAt);
            && r.code in {0, 1}
            && (r.code == 1 <==>
                  raisesAt in {Some(Header), Some(StatusQuery), Some(BranchQuery)}
                  || (raisesAt == Some(RevList) && RevListCalled(branchQuery))
                  || (raisesAt != Some(BranchQuery) && BranchInfo(branchQuery, revList).None?))
  {
    if raisesAt.None? || raisesAt == Some(RevList) {
      BranchShortcuts(branchQuery, revList);
    }
  }

  /** The tree is reported exactly when nothing raised before it, and then as
      the status query says; a branch report is the reference one and comes
      with exit code 0. */
  lemma StatusReports(statusQuery: GitOutput, branchQuery: GitOutput, revList: GitOutput, raisesAt: Option<Call>)
    ensures var r := StatusOutcome(statusQuery, branchQuery, revList, raisesAt);
            && (r.tree.Some? <==> raisesAt !in {Some(Header), Some(StatusQuery)})
            && (r.tree.Some? ==> r.tree.value == RepositoryStatus(statusQuery))
            && (r.branch.Some? ==> r.branch == BranchInfo(branchQuery, revList) && r.code == 0)
  {
  }
}
