/** The `update` workflow: run the tests, commit pending work with the
    caller's message, bump the patch version, commit the bump, push the branch
    and the tags, and optionally create a release on the hosting service.

    Every call into git, the test runner, the version command and the hosting
    API is an oracle: `Env` holds what each call reports. An exception raised
    by one of the external calls is modelled by `raisesAt`, the position in
    the trace of the step whose call raises. */
module Update {
  import opened Common

  /** The options record parse_options fills. */
  datatype Options = Options(message: string, release: bool)

  /** Construction either yields options or ends the process with a status. */
  datatype Parsed = Parsed(options: Options) | Exit(status: int)

  /** The options as parsed from `-h`, `--message` and `--[no-]release`:
      help ends the process with status 0 during parsing, a missing message
      then ends it with status 1, and an absent release flag is false. */
  function ParseOptions(help: bool, message: Option<string>, release: Option<bool>): (r: Parsed)
    ensures r.Exit? <==> help || message.None?
    ensures r.Exit? ==> r.status == (if help then 0 else 1)
    ensures r.Parsed? ==> r.options.message == message.value && (r.options.release <==> release == Some(true))
  {
    if help then Exit(0)
    else match message
      case None => Exit(1)
      case Some(m) => Parsed(Options(m, release == Some(true)))
  }

  /** The steps the workflow performs on the working tree and the remote. */
  datatype Step =
    | RunTests
    | StageAll
    | Commit(message: string)
    | BumpPatch
    | PushBranch
    | PushTags
    | CreateRelease(repo: string, tag: string)

  datatype Env = Env(
    testExit: int,              // TestCommand#execute's return value
    dirtyAfterTests: bool,      // `git status --porcelain` is non-empty after the tests
    commitSucceeded: bool,      // what `system("git commit ...")` returns
    bumpExit: int,              // VersionCommand#execute's return value for the bump
    dirtyAfterBump: bool,       // `git status --porcelain` is non-empty after the bump
    currentVersion: string,     // VersionCommand#get_current_version after the bump
    pushSucceeded: bool,        // what `system("git push")` returns
    token: Option<string>,      // the GITHUB_TOKEN environment variable
    remoteUrl: string,          // stripped output of `git remote get-url origin`
    latestTag: Option<string>,  // stripped output of `git describe --tags --abbrev=0`; None if it raised
    releaseAccepted: bool,      // false when create_release raises Octokit::Error
    raisesAt: Option<nat>)      // trace position of the step whose call raises a StandardError

  /** What became of the release. */
  datatype Release =
    | NotRequested
    | NoToken
    | NoTag
    | Released(tag: string)
    | Rejected(tag: string)
    | Aborted  // the workflow ended with an error before the release was decided

  datatype Run = Run(trace: seq<Step>, code: int, release: Release)

  function BumpMessage(version: string): string
  {
    "Bump version to " + version
  }

  function CommitSteps(dirty: bool, message: string): seq<Step>
  {
    if dirty then [StageAll, Commit(message)] else []
  }

  // ---------------------------------------------------------------------
  // detect_repository: /github\.com[:\/](.+)\/(.+)\.git/

  predicate GitAt(r: string, k: nat)
  {
    k + 4 <= |r| && r[k..k + 4] == ".git"
  }

  /** The largest k <= hi at which ".git" occurs. */
  function LastGit(r: string, hi: nat): (k: Option<nat>)
    ensures k.Some? ==> k.value <= hi && GitAt(r, k.value) && forall y :: k.value < y <= hi ==> !GitAt(r, y)
    ensures k.None? ==> forall y :: 0 <= y <= hi ==> !GitAt(r, y)
  {
    if GitAt(r, hi) then Some(hi) else if hi == 0 then None else LastGit(r, hi - 1)
  }

  /** The largest j with 1 <= j <= hi and r[j] == '/'. */
  function LastSlashFrom1(r: string, hi: int): (j: Option<nat>)
    requires hi < |r|
    ensures j.Some? ==> 1 <= j.value <= hi && r[j.value] == '/' && forall y :: j.value < y <= hi ==> r[y] != '/'
    ensures j.None? ==> forall y :: 1 <= y <= hi ==> r[y] != '/'
    decreases hi
  {
    if hi < 1 then None else if r[hi] == '/' then Some(hi) else LastSlashFrom1(r, hi - 1)
  }

  /** `(.+)\/(.+)\.git` against the text after "github.com:" or "github.com/",
      both groups greedy: the second group ends at the last ".git", the first
      at the last '/' that leaves the second group non-empty. */
  function MatchOwnerRepo(r: string): Option<string>
  {
    match LastGit(r, |r|)
    case None => None
    case Some(k) =>
      if k < 2 then None
      else match LastSlashFrom1(r, k - 2)
        case None => None
        case Some(j) => Some(r[..j] + "/" + r[j + 1..k])
  }

  predicate HostAt(url: string, i: nat)
  {
    i + 11 <= |url| && url[i..i + 10] == "github.com" && (url[i + 10] == ':' || url[i + 10] == '/')
  }

  /** The leftmost position at or after i where the whole pattern matches. */
  function SearchFrom(url: string, i: nat): Option<string>
    decreases |url| - i
  {
    if i + 11 > |url| then None
    else if HostAt(url, i) && MatchOwnerRepo(url[i + 11..]).Some? then MatchOwnerRepo(url[i + 11..])
    else SearchFrom(url, i + 1)
  }

  /** "owner/repo" from the remote URL; None where Ruby raises
      "Could not detect GitHub repository from remote URL". */
  function DetectRepository(url: string): Option<string>
  {
    SearchFrom(url, 0)
  }

  lemma SearchSkips(url: string, i: nat)
    requires forall y :: 0 <= y < i ==> !HostAt(url, y)
    ensures SearchFrom(url, 0) == SearchFrom(url, i)
  {
    var y := 0;
    while y < i
      invariant 0 <= y <= i
      invariant SearchFrom(url, 0) == SearchFrom(url, y)
    {
      y := y + 1;
    }
  }

  lemma {:induction false} MatchOwnerRepoPlain(owner: string, repo: string)
    requires owner != [] && repo != []
    ensures MatchOwnerRepo(owner + "/" + repo + ".git") == Some(owner + "/" + repo)
  {
    var r := owner + "/" + repo + ".git";
    var k := |owner| + 1 + |repo|;
    assert r[k..k + 4] == ".git";
    assert GitAt(r, k);
    var last := LastGit(r, |r|);
    assert last == Some(k);
    assert r[|owner|] == '/';
    var j := LastSlashFrom1(r, k - 2).value;
    assert r[..j] + "/" + r[j + 1..k] == r[..k];
    assert r[..k] == owner + "/" + repo;
  }

  lemma HostAtStart(url: string, y: nat)
    requires HostAt(url, y)
    ensures url[y] == 'g' && url[y + 3] == 'h'
  {
    assert url[y..y + 10][0] == 'g' && url[y..y + 10][3] == 'h';
  }

  /** An ssh remote URL yields "owner/repo". */
  lemma DetectsSshRemote(owner: string, repo: string)
    requires owner != [] && repo != []
    ensures DetectRepository("git@github.com:" + owner + "/" + repo + ".git") == Some(owner + "/" + repo)
  {
    MatchOwnerRepoPlain(owner, repo);
    var url := "git@github.com:" + owner + "/" + repo + ".git";
    assert url[15..] == owner + "/" + repo + ".git";
    assert url[4..14] == "github.com";
    assert HostAt(url, 4);
    forall y | 0 <= y < 4 ensures !HostAt(url, y) {
      if HostAt(url, y) { HostAtStart(url, y); }
    }
    SearchSkips(url, 4);
  }

  /** An https remote URL yields "owner/repo". */
  lemma DetectsHttpsRemote(owner: string, repo: string)
    requires owner != [] && repo != []
    ensures DetectRepository("https://github.com/" + owner + "/" + repo + ".git") == Some(owner + "/" + repo)
  {
    MatchOwnerRepoPlain(owner, repo);
    var url := "https://github.com/" + owner + "/" + repo + ".git";
    assert url[19..] == owner + "/" + repo + ".git";
    assert url[8..18] == "github.com";
    assert HostAt(url, 8);
    forall y | 0 <= y < 8 ensures !HostAt(url, y) {
      if HostAt(url, y) { HostAtStart(url, y); }
    }
    SearchSkips(url, 8);
  }

  /** A URL that does not mention "github.com" followed by ':' or '/' is rejected. */
  lemma NoHostNoRepository(url: string)
    requires forall i :: 0 <= i ==> !HostAt(url, i)
    ensures DetectRepository(url) == None
  {
    var i := |url|;
    while i > 0
      invariant 0 <= i <= |url|
      invariant SearchFrom(url, i) == None
    {
      i := i - 1;
    }
  }

  // ---------------------------------------------------------------------
  // The workflow as a reference definition

  /** What create_github_release does when no external call raises. */
  datatype ReleasePlan = ReleasePlan(steps: seq<Step>, error: bool, report: Release)

  function PlanRelease(env: Env): ReleasePlan
  {
    match env.token
    case None => ReleasePlan([], false, NoToken)
    case Some(_) =>
      match DetectRepository(env.remoteUrl)
      case None => ReleasePlan([], true, Aborted)
      case Some(repo) =>
        match env.latestTag
        case None => ReleasePlan([], false, NoTag)
        case Some(tag) => ReleasePlan([CreateRelease(repo, tag)], false, if env.releaseAccepted then Released(tag) else Rejected(tag))
  }

  /** The steps a run performs when no external call raises. */
  function Planned(o: Options, env: Env): seq<Step>
  {
    if env.testExit != 0 then [RunTests]
    else [RunTests]
         + CommitSteps(env.dirtyAfterTests, o.message)
         + [BumpPatch]
         + CommitSteps(env.dirtyAfterBump, BumpMessage(env.currentVersion))
         + [PushBranch, PushTags]
         + (if o.release then PlanRelease(env).steps else [])
  }

  /** Some external call of the planned steps raises. */
  predicate RaisesWithin(o: Options, env: Env)
  {
    env.raisesAt.Some? && env.raisesAt.value < |Planned(o, env)|
  }

  /** The reference outcome of UpdateCommand#execute. */
  function Workflow(o: Options, env: Env): Run
  {
    var plan := Planned(o, env);
    if RaisesWithin(o, env) then Run(plan[..env.raisesAt.value + 1], 1, Aborted)
    else if env.testExit != 0 then Run(plan, 1, Aborted)
    else if !o.release then Run(plan, 0, NotRequested)
    else Run(plan, if PlanRelease(env).error then 1 else 0, PlanRelease(env).report)
  }

  /** Construction followed by execute. */
  function UpdateCommand(help: bool, message: Option<string>, release: Option<bool>, env: Env): Run
  {
    match ParseOptions(help, message, release)
    case Exit(status) => Run([], status, Aborted)
    case Parsed(o) => Workflow(o, env)
  }

  // ---------------------------------------------------------------------
  // Trace vocabulary for the properties

  function CommitMessages(trace: seq<Step>): seq<string>
  {
    if trace == [] then []
    else (if trace[0].Commit? then [trace[0].message] else []) + CommitMessages(trace[1..])
  }

  function Occurrences(trace: seq<Step>, s: Step): nat
  {
    if trace == [] then 0 else (if trace[0] == s then 1 else 0) + Occurrences(trace[1..], s)
  }

  predicate IsSubsequence(a: seq<Step>, b: seq<Step>)
    decreases |b|
  {
    if a == [] then true
    else if b == [] then false
    else if a[0] == b[0] then IsSubsequence(a[1..], b[1..])
    else IsSubsequence(a, b[1..])
  }

  /** The fixed order of all steps the workflow can take. */
  function FullOrder(o: Options, env: Env): seq<Step>
  {
    [RunTests, StageAll, Commit(o.message), BumpPatch, StageAll, Commit(BumpMessage(env.currentVersion)), PushBranch, PushTags]
    + PlanRelease(env).steps
  }

  lemma {:induction false} CommitMessagesAppend(a: seq<Step>, b: seq<Step>)
    ensures CommitMessages(a + b) == CommitMessages(a) + CommitMessages(b)
  {
    if a != [] {
      assert (a + b)[1..] == a[1..] + b;
      CommitMessagesAppend(a[1..], b);
    } else {
      assert a + b == b;
    }
  }

  lemma {:induction false} OccurrencesAppend(a: seq<Step>, b: seq<Step>, s: Step)
    ensures Occurrences(a + b, s) == Occurrences(a, s) + Occurrences(b, s)
  {
    if a != [] {
      assert (a + b)[1..] == a[1..] + b;
      OccurrencesAppend(a[1..], b, s);
    } else {
      assert a + b == b;
    }
  }

  lemma {:induction false} SubsequenceCons(a: seq<Step>, x: Step, d: seq<Step>)
    requires IsSubsequence(a, d)
    ensures IsSubsequence(a, [x] + d)
    decreases |d|
  {
    assert ([x] + d)[1..] == d;
    if a != [] && a[0] == x {
      assert d != [];
      assert [d[0]] + d[1..] == d;
      if a[0] == d[0] {
        SubsequenceCons(a[1..], d[0], d[1..]);
      } else {
        SubsequenceCons(a, x, d[1..]);
        assert ([x] + d[1..])[1..] == d[1..];
        SubsequenceCons(a[1..], d[0], d[1..]);
      }
    }
  }

  lemma {:induction false} SubsequenceExtend(b: seq<Step>, c: seq<Step>, d: seq<Step>)
    requires IsSubsequence(b, d)
    ensures IsSubsequence(b, c + d)
    decreases |c|
  {
    if c != [] {
      SubsequenceExtend(b, c[1..], d);
      SubsequenceCons(b, c[0], c[1..] + d);
      assert [c[0]] + (c[1..] + d) == c + d;
    } else {
      assert c + d == d;
    }
  }

  lemma {:induction false} SubsequenceConcat(a: seq<Step>, b: seq<Step>, c: seq<Step>, d: seq<Step>)
    requires IsSubsequence(a, c) && IsSubsequence(b, d)
    ensures IsSubsequence(a + b, c + d)
    decreases |c|
  {
    if a == [] {
      assert a + b == b;
      SubsequenceExtend(b, c, d);
    } else {
      assert c != [];
      assert (a + b)[1..] == a[1..] + b;
      assert (c + d)[1..] == c[1..] + d;
      if a[0] == c[0] {
        SubsequenceConcat(a[1..], b, c[1..], d);
      } else {
        SubsequenceConcat(a, b, c[1..], d);
      }
    }
  }

  lemma {:induction false} SubsequencePrefix(a: seq<Step>, b: seq<Step>, k: nat)
    requires k <= |a| && IsSubsequence(a, b)
    ensures IsSubsequence(a[..k], b)
    decreases |b|
  {
    if k > 0 {
      assert a[..k][0] == a[0];
      assert a[..k][1..] == a[1..][..k - 1];
      if a[0] == b[0] {
        SubsequencePrefix(a[1..], b[1..], k - 1);
      } else {
        SubsequencePrefix(a, b[1..], k);
      }
    }
  }

  lemma {:induction false} SubsequenceRefl(a: seq<Step>)
    ensures IsSubsequence(a, a)
  {
    if a != [] {
      SubsequenceRefl(a[1..]);
    }
  }

  lemma CommitStepsMessages(dirty: bool, m: string)
    ensures CommitMessages(CommitSteps(dirty, m)) == if dirty then [m] else []
    ensures Occurrences(CommitSteps(dirty, m), BumpPatch) == 0
  {
    var t := CommitSteps(dirty, m);
    if dirty {
      assert t[1..] == [Commit(m)];
      assert t[1..][1..] == [];
      assert CommitMessages(t[1..]) == [m];
      assert Occurrences(t[1..], BumpPatch) == 0;
    } else {
      assert t == [];
    }
  }

  lemma ReleaseStepsMessages(steps: seq<Step>)
    requires steps == [] || (|steps| == 1 && steps[0].CreateRelease?)
    ensures CommitMessages(steps) == []
    ensures Occurrences(steps, BumpPatch) == 0
  {
  }

  lemma CommitStepsWithin(dirty: bool, m: string)
    ensures IsSubsequence(CommitSteps(dirty, m), [StageAll, Commit(m)])
  {
    SubsequenceRefl([StageAll, Commit(m)]);
  }

  // ---------------------------------------------------------------------
  // Properties of the workflow

  /** A failing test step ends the workflow with 1 before anything is staged,
      committed, bumped, pushed or released. */
  lemma TestFailureAborts(o: Options, env: Env)
    requires env.testExit != 0
    ensures Workflow(o, env).trace == [RunTests]
    ensures Workflow(o, env).code == 1
  {
  }

  /** The commit messages of a complete plan are those of its two commit
      blocks. */
  lemma PlanMessages(c1: seq<Step>, c2: seq<Step>, rel: seq<Step>)
    requires CommitMessages(rel) == []
    ensures CommitMessages([RunTests] + c1 + [BumpPatch] + c2 + [PushBranch, PushTags] + rel)
            == CommitMessages(c1) + CommitMessages(c2)
  {
    assert CommitMessages([PushBranch, PushTags]) == [] by {
      assert [PushBranch, PushTags][1..] == [PushTags];
    }
    CommitMessagesAppend([RunTests], c1);
    CommitMessagesAppend([RunTests] + c1, [BumpPatch]);
    CommitMessagesAppend([RunTests] + c1 + [BumpPatch], c2);
    CommitMessagesAppend([RunTests] + c1 + [BumpPatch] + c2, [PushBranch, PushTags]);
    CommitMessagesAppend([RunTests] + c1 + [BumpPatch] + c2 + [PushBranch, PushTags], rel);
  }

  /** The bumps of a complete plan: the one between the commit blocks. */
  lemma PlanBumps(c1: seq<Step>, c2: seq<Step>, rel: seq<Step>)
    requires Occurrences(c1, BumpPatch) == 0 && Occurrences(c2, BumpPatch) == 0 && Occurrences(rel, BumpPatch) == 0
    ensures Occurrences([RunTests] + c1 + [BumpPatch] + c2 + [PushBranch, PushTags] + rel, BumpPatch) == 1
  {
    assert Occurrences([PushBranch, PushTags], BumpPatch) == 0 by {
      assert [PushBranch, PushTags][1..] == [PushTags];
    }
    OccurrencesAppend([RunTests], c1, BumpPatch);
    OccurrencesAppend([RunTests] + c1, [BumpPatch], BumpPatch);
    OccurrencesAppend([RunTests] + c1 + [BumpPatch], c2, BumpPatch);
    OccurrencesAppend([RunTests] + c1 + [BumpPatch] + c2, [PushBranch, PushTags], BumpPatch);
    OccurrencesAppend([RunTests] + c1 + [BumpPatch] + c2 + [PushBranch, PushTags], rel, BumpPatch);
  }

  /** A run that passes its tests and does not raise follows its whole plan. */
  lemma CompleteRunTrace(o: Options, env: Env)
    requires env.testExit == 0 && !RaisesWithin(o, env)
    ensures Workflow(o, env).trace
            == [RunTests] + CommitSteps(env.dirtyAfterTests, o.message) + [BumpPatch]
               + CommitSteps(env.dirtyAfterBump, BumpMessage(env.currentVersion)) + [PushBranch, PushTags]
               + (if o.release then PlanRelease(env).steps else [])
  {
  }

  /** Once the tests pass and nothing raises, the commits are exactly: the
      caller's message if the tree was dirty after the tests, then the bump
      message if the tree was dirty after the bump. */
  lemma CommitsOfCompleteRun(o: Options, env: Env)
    requires env.testExit == 0 && !RaisesWithin(o, env)
    ensures CommitMessages(Workflow(o, env).trace)
              == (if env.dirtyAfterTests then [o.message] else [])
                 + (if env.dirtyAfterBump then ["Bump version to " + env.currentVersion] else [])
  {
    CompleteRunTrace(o, env);
    CommitStepsMessages(env.dirtyAfterTests, o.message);
    CommitStepsMessages(env.dirtyAfterBump, BumpMessage(env.currentVersion));
    var rel := if o.release then PlanRelease(env).steps else [];
    ReleaseStepsMessages(rel);
    PlanMessages(CommitSteps(env.dirtyAfterTests, o.message), CommitSteps(env.dirtyAfterBump, BumpMessage(env.currentVersion)), rel);
  }

  /** Once the tests pass and nothing raises, exactly one patch bump is made. */
  lemma OneBumpPerRun(o: Options, env: Env)
    requires env.testExit == 0 && !RaisesWithin(o, env)
    ensures Occurrences(Workflow(o, env).trace, BumpPatch) == 1
  {
    CompleteRunTrace(o, env);
    CommitStepsMessages(env.dirtyAfterTests, o.message);
    CommitStepsMessages(env.dirtyAfterBump, BumpMessage(env.currentVersion));
    var rel := if o.release then PlanRelease(env).steps else [];
    ReleaseStepsMessages(rel);
    PlanBumps(CommitSteps(env.dirtyAfterTests, o.message), CommitSteps(env.dirtyAfterBump, BumpMessage(env.currentVersion)), rel);
  }

  /** Ordered blocks, each within its slot, give an ordered plan. */
  lemma OrderedBlocks(c1: seq<Step>, f1: seq<Step>, c2: seq<Step>, f2: seq<Step>, relP: seq<Step>, rel: seq<Step>)
    requires IsSubsequence(c1, f1) && IsSubsequence(c2, f2) && IsSubsequence(relP, rel)
    ensures IsSubsequence([RunTests] + c1 + [BumpPatch] + c2 + [PushBranch, PushTags] + relP,
                          [RunTests] + f1 + [BumpPatch] + f2 + [PushBranch, PushTags] + rel)
  {
    SubsequenceRefl([RunTests]);
    SubsequenceRefl([BumpPatch]);
    SubsequenceRefl([PushBranch, PushTags]);
    SubsequenceConcat([RunTests], c1, [RunTests], f1);
    SubsequenceConcat([RunTests] + c1, [BumpPatch], [RunTests] + f1, [BumpPatch]);
    SubsequenceConcat([RunTests] + c1 + [BumpPatch], c2, [RunTests] + f1 + [BumpPatch], f2);
    SubsequenceConcat([RunTests] + c1 + [BumpPatch] + c2, [PushBranch, PushTags], [RunTests] + f1 + [BumpPatch] + f2, [PushBranch, PushTags]);
    SubsequenceConcat([RunTests] + c1 + [BumpPatch] + c2 + [PushBranch, PushTags], relP, [RunTests] + f1 + [BumpPatch] + f2 + [PushBranch, PushTags], rel);
  }

  lemma LeadingTests(rest: seq<Step>)
    ensures IsSubsequence([RunTests], [RunTests] + rest)
  {
    assert ([RunTests] + rest)[1..] == rest;
    assert [RunTests][1..] == [];
  }

  /** The plan itself is in the fixed order. */
  lemma PlanInOrder(o: Options, env: Env)
    ensures IsSubsequence(Planned(o, env), FullOrder(o, env))
  {
    var f1 := [StageAll, Commit(o.message)];
    var f2 := [StageAll, Commit(BumpMessage(env.currentVersion))];
    var rel := PlanRelease(env).steps;
    assert FullOrder(o, env) == [RunTests] + f1 + [BumpPatch] + f2 + [PushBranch, PushTags] + rel;
    if env.testExit != 0 {
      LeadingTests(f1 + [BumpPatch] + f2 + [PushBranch, PushTags] + rel);
      assert [RunTests] + (f1 + [BumpPatch] + f2 + [PushBranch, PushTags] + rel) == FullOrder(o, env);
    } else {
      CommitStepsWithin(env.dirtyAfterTests, o.message);
      CommitStepsWithin(env.dirtyAfterBump, BumpMessage(env.currentVersion));
      SubsequenceRefl(rel);
      var relP := if o.release then rel else [];
      assert IsSubsequence(relP, rel) by {
        if !o.release { SubsequenceExtend([], rel, []); }
      }
      OrderedBlocks(CommitSteps(env.dirtyAfterTests, o.message), f1,
                    CommitSteps(env.dirtyAfterBump, BumpMessage(env.currentVersion)), f2, relP, rel);
    }
  }

  /** Every run, aborted or not, takes its steps in the fixed order: tests,
      first commit, bump, second commit, push branch, push tags, release. */
  lemma StepsInFixedOrder(o: Options, env: Env)
    ensures IsSubsequence(Workflow(o, env).trace, FullOrder(o, env))
  {
    PlanInOrder(o, env);
    if RaisesWithin(o, env) {
      SubsequencePrefix(Planned(o, env), FullOrder(o, env), env.raisesAt.value + 1);
    }
  }

  /** Every commit in the trace is immediately preceded by staging all changes. */
  predicate Staged(t: seq<Step>)
  {
    forall i :: 0 <= i < |t| && t[i].Commit? ==> i > 0 && t[i - 1] == StageAll
  }

  lemma StagedAppend(a: seq<Step>, b: seq<Step>)
    requires Staged(a) && Staged(b) && (b != [] ==> !b[0].Commit?)
    ensures Staged(a + b)
  {
    forall i | 0 <= i < |a + b| && (a + b)[i].Commit?
      ensures i > 0 && (a + b)[i - 1] == StageAll
    {
      if i >= |a| {
        assert (a + b)[i] == b[i - |a|];
        assert i - |a| > 0;
        assert (a + b)[i - 1] == b[i - |a| - 1];
      }
    }
  }

  /** Every commit is immediately preceded by staging all changes, in every
      run, aborted or not. */
  lemma CommitsAreStaged(o: Options, env: Env)
    ensures Staged(Workflow(o, env).trace)
  {
    var plan := Planned(o, env);
    if env.testExit == 0 {
      var c1 := CommitSteps(env.dirtyAfterTests, o.message);
      var c2 := CommitSteps(env.dirtyAfterBump, BumpMessage(env.currentVersion));
      var rel := if o.release then PlanRelease(env).steps else [];
      StagedAppend([RunTests], c1);
      StagedAppend([RunTests] + c1, [BumpPatch]);
      StagedAppend([RunTests] + c1 + [BumpPatch], c2);
      StagedAppend([RunTests] + c1 + [BumpPatch] + c2, [PushBranch, PushTags]);
      StagedAppend([RunTests] + c1 + [BumpPatch] + c2 + [PushBranch, PushTags], rel);
    }
    assert Staged(plan);
  }

  /** Without the release option no release is attempted. */
  lemma ReleaseOnlyWhenRequested(o: Options, env: Env)
    requires !o.release
    ensures forall i :: 0 <= i < |Workflow(o, env).trace| ==> !Workflow(o, env).trace[i].CreateRelease?
    ensures Workflow(o, env).release in {NotRequested, Aborted}
  {
    var plan := Planned(o, env);
    forall i | 0 <= i < |plan| ensures !plan[i].CreateRelease? {
      if env.testExit == 0 {
        var c1 := CommitSteps(env.dirtyAfterTests, o.message);
        var c2 := CommitSteps(env.dirtyAfterBump, BumpMessage(env.currentVersion));
        assert plan == [RunTests] + c1 + [BumpPatch] + c2 + [PushBranch, PushTags];
      }
    }
  }

  /** The exit code is 1 exactly when the tests fail, an external call raises,
      or a release with a token meets a remote URL that names no repository;
      it is 0 otherwise, whatever the push, the commits, the bump's own result
      and the release call report. */
  lemma ExitCodeCases(o: Options, env: Env)
    ensures Workflow(o, env).code in {0, 1}
    ensures Workflow(o, env).code == 1 <==>
              env.testExit != 0 || RaisesWithin(o, env)
              || (o.release && env.token.Some? && DetectRepository(env.remoteUrl).None?)
  {
  }

  /** A rejected release leaves the exit code at 0. */
  lemma RejectedReleaseStillSucceeds(o: Options, env: Env)
    requires env.testExit == 0 && !RaisesWithin(o, env) && o.release
    requires env.token.Some? && DetectRepository(env.remoteUrl).Some? && env.latestTag.Some?
    requires !env.releaseAccepted
    ensures Workflow(o, env).code == 0
    ensures Workflow(o, env).release == Rejected(env.latestTag.value)
    ensures Workflow(o, env).trace[|Workflow(o, env).trace| - 1] == CreateRelease(DetectRepository(env.remoteUrl).value, env.latestTag.value)
  {
  }

  /** The results of committing, bumping and pushing are never looked at.
      This holds by construction: Workflow never reads the three fields,
      which stand for return values the source discards. */
  lemma IgnoredResults(o: Options, env: Env, commit: bool, bump: int, push: bool)
    ensures Workflow(o, env.(commitSucceeded := commit, bumpExit := bump, pushSucceeded := push)) == Workflow(o, env)
  {
  }

  /** Without --message the process ends with 1 before any step. */
  lemma MissingMessageExits(release: Option<bool>, env: Env)
    ensures UpdateCommand(false, None, release, env).trace == []
    ensures UpdateCommand(false, None, release, env).code == 1
  {
  }

  // ---------------------------------------------------------------------
  // The imperative execute

  /** No step before position n raises. */
  predicate Survived(env: Env, n: nat)
  {
    env.raisesAt.None? || env.raisesAt.value >= n
  }

  /** The trace so far is a prefix of the plan whose last step raised. */
  predicate AbortedAt(env: Env, plan: seq<Step>, trace: seq<Step>)
  {
    0 < |trace| <= |plan| && trace == plan[..|trace|] && env.raisesAt == Some(|trace| - 1)
  }

  /** Performs one external step; `raised` tells whether its call raises. */
  method Perform(env: Env, ghost plan: seq<Step>, trace: seq<Step>, step: Step) returns (trace': seq<Step>, raised: bool)
    requires |trace| < |plan| && plan[..|trace| + 1] == trace + [step]
    ensures trace' == trace + [step]
    ensures raised ==> AbortedAt(env, plan, trace')
    ensures Survived(env, |trace|) && !raised ==> Survived(env, |trace'|)
  {
    trace' := trace + [step];
    raised := env.raisesAt == Some(|trace|);
  }

  /** Two steps in a row, the second skipped when the first raises. */
  method PerformTwo(env: Env, ghost plan: seq<Step>, trace: seq<Step>, first: Step, second: Step)
    returns (trace': seq<Step>, raised: bool)
    requires |trace| + 2 <= |plan| && plan[..|trace| + 2] == trace + [first, second]
    ensures !raised ==> trace' == trace + [first, second]
    ensures raised ==> AbortedAt(env, plan, trace')
    ensures Survived(env, |trace|) && !raised ==> Survived(env, |trace'|)
  {
    assert plan[..|trace| + 1] == trace + [first] by {
      assert plan[..|trace| + 1] == plan[..|trace| + 2][..|trace| + 1];
    }
    trace', raised := Perform(env, plan, trace, first);
    if !raised {
      assert trace + [first, second] == trace' + [second];
      trace', raised := Perform(env, plan, trace', second);
    }
  }

  /** `unless git_clean?` followed by stage_changes and a commit. */
  method CommitIfDirty(env: Env, ghost plan: seq<Step>, trace: seq<Step>, dirty: bool, message: string)
    returns (trace': seq<Step>, raised: bool)
    requires |trace| + |CommitSteps(dirty, message)| <= |plan|
    requires plan[..|trace| + |CommitSteps(dirty, message)|] == trace + CommitSteps(dirty, message)
    ensures !raised ==> trace' == trace + CommitSteps(dirty, message)
    ensures raised ==> AbortedAt(env, plan, trace')
    ensures Survived(env, |trace|) && !raised ==> Survived(env, |trace'|)
  {
    trace', raised := trace, false;
    if dirty {
      trace', raised := PerformTwo(env, plan, trace, StageAll, Commit(message));
    } else {
      assert trace + [] == trace;
    }
  }

  /** create_github_release: no token skips with a warning; an unrecognised
      remote raises; no tag skips; otherwise the release is created, and a
      rejection by the hosting service is reported and swallowed. */
  method CreateGithubRelease(env: Env, ghost plan: seq<Step>, trace: seq<Step>)
    returns (trace': seq<Step>, failed: bool, report: Release)
    requires plan == trace + PlanRelease(env).steps
    ensures trace' == plan
    ensures failed <==> PlanRelease(env).error || (PlanRelease(env).steps != [] && env.raisesAt == Some(|trace|))
    ensures !failed ==> report == PlanRelease(env).report
    ensures failed ==> report == Aborted
    ensures Survived(env, |trace|) && !failed ==> Survived(env, |trace'|)
  {
    trace', failed, report := trace, false, NoToken;
    if env.token.None? {
      return;
    }
    var repo := DetectRepository(env.remoteUrl);
    if repo.None? {
      failed, report := true, Aborted;
      return;
    }
    var tag := env.latestTag;
    if tag.Some? {
      var raised;
      assert plan[..|trace| + 1] == trace + [CreateRelease(repo.value, tag.value)];
      trace', raised := Perform(env, plan, trace, CreateRelease(repo.value, tag.value));
      if raised {
        failed, report := true, Aborted;
        return;
      }
      report := if env.releaseAccepted then Released(tag.value) else Rejected(tag.value);
    } else {
      report := NoTag;
    }
  }

  /** A run whose step at the end of `trace` raises ends there with 1. */
  lemma AbortedRun(o: Options, env: Env, trace: seq<Step>)
    requires AbortedAt(env, Planned(o, env), trace)
    ensures Workflow(o, env) == Run(trace, 1, Aborted)
  {
  }

  /** The prefix of the plan before the release step. */
  lemma PlanShape(o: Options, env: Env)
    requires env.testExit == 0
    ensures var c1 := CommitSteps(env.dirtyAfterTests, o.message);
            var c2 := CommitSteps(env.dirtyAfterBump, BumpMessage(env.currentVersion));
            var plan := Planned(o, env);
            var n := 1 + |c1| + 1 + |c2| + 2;
            n <= |plan|
            && plan[..1] == [RunTests]
            && plan[..1 + |c1|] == [RunTests] + c1
            && plan[..1 + |c1| + 1] == [RunTests] + c1 + [BumpPatch]
            && plan[..1 + |c1| + 1 + |c2|] == [RunTests] + c1 + [BumpPatch] + c2
            && plan[..n] == [RunTests] + c1 + [BumpPatch] + c2 + [PushBranch, PushTags]
            && plan == plan[..n] + (if o.release then PlanRelease(env).steps else [])
  {
    var c1 := CommitSteps(env.dirtyAfterTests, o.message);
    var c2 := CommitSteps(env.dirtyAfterBump, BumpMessage(env.currentVersion));
    var p5 := [RunTests] + c1 + [BumpPatch] + c2 + [PushBranch, PushTags];
    var plan := Planned(o, env);
    assert plan == p5 + (if o.release then PlanRelease(env).steps else []);
    assert plan[..|p5|] == p5;
    assert p5[..1] == [RunTests];
    assert p5[..1 + |c1|] == [RunTests] + c1;
    assert p5[..1 + |c1| + 1] == [RunTests] + c1 + [BumpPatch];
    assert p5[..1 + |c1| + 1 + |c2|] == [RunTests] + c1 + [BumpPatch] + c2;
  }

  /** The steps after the tests pass: commit, bump, commit the bump, push. */
  method CommitBumpAndPush(o: Options, env: Env, ghost plan: seq<Step>, trace: seq<Step>)
    returns (trace': seq<Step>, raised: bool)
    requires env.testExit == 0 && plan == Planned(o, env) && trace == [RunTests] && Survived(env, 1)
    ensures raised ==> AbortedAt(env, plan, trace')
    ensures !raised ==> plan == trace' + (if o.release then PlanRelease(env).steps else []) && Survived(env, |trace'|)
  {
    PlanShape(o, env);
    trace', raised := CommitIfDirty(env, plan, trace, env.dirtyAfterTests, o.message);
    if raised { return; }
    trace', raised := Perform(env, plan, trace', BumpPatch);
    if raised { return; }
    trace', raised := CommitIfDirty(env, plan, trace', env.dirtyAfterBump, BumpMessage(env.currentVersion));
    if raised { return; }
    trace', raised := PerformTwo(env, plan, trace', PushBranch, PushTags);
  }

  /** The tail of execute once everything is pushed: the optional release
      and the exit code. */
  method ReleaseIfRequested(o: Options, env: Env, ghost plan: seq<Step>, pushed: seq<Step>)
    returns (trace: seq<Step>, code: int, release: Release)
    requires env.testExit == 0 && plan == Planned(o, env) && Survived(env, |pushed|)
    requires plan == pushed + (if o.release then PlanRelease(env).steps else [])
    ensures Run(trace, code, release) == Workflow(o, env)
  {
    if !o.release {
      assert pushed == plan;
      return pushed, 0, NotRequested;
    }
    var failed;
    trace, failed, release := CreateGithubRelease(env, plan, pushed);
    code := 0;
    if failed {
      code := 1;
      if PlanRelease(env).error {
        assert |plan| == |pushed|;
      } else {
        assert plan[..|pushed| + 1] == plan;
      }
    }
  }

  /** UpdateCommand#execute, with the early return and the rescue. */
  method Execute(o: Options, env: Env) returns (trace: seq<Step>, code: int, release: Release)
    ensures Run(trace, code, release) == Workflow(o, env)
  {
    ghost var plan := Planned(o, env);
    var raised;
    assert plan[..1] == [RunTests];
    trace, raised := Perform(env, plan, [], RunTests);
    if raised {
      AbortedRun(o, env, trace);
      return trace, 1, Aborted;
    }
    if env.testExit != 0 {
      return trace, 1, Aborted;
    }
    trace, raised := CommitBumpAndPush(o, env, plan, trace);
    if raised {
      AbortedRun(o, env, trace);
      return trace, 1, Aborted;
    }
    trace, code, release := ReleaseIfRequested(o, env, plan, trace);
  }
}
