/** The symlink reconciler of `symlink_build`: it fills the child's steering
    directory `.kiro/steering` with relative symbolic links to the markdown
    files of three source directories, never replacing a file that is not a
    link, and then reports the links that do not resolve.

    The target directory is a map from file name to entry (a missing key means
    no entry). Each source directory is the sequence of entries its listing
    yields, in listing order; a directory missing from `sources` does not exist.
    Whether a link's referent exists is given as the set of link texts that
    resolve from inside `.kiro/steering`. */
module SymlinkBuild {
  import opened Common

  const ProjectSteering: string := ".kiro/steering"
  const DefaultParentPath: string := "../../"

  // Source directories, relative to the parent path, in processing order.
  const VendorParent: string := "vendor/submoduler_parent/.kiro"
  const VendorChild: string := "vendor/submoduler_child/.kiro"
  const ParentKiro: string := ".kiro"
  const Steering: string := "steering"

  /** A directory entry: a symbolic link with its text, or anything else
      (a regular file or a directory). */
  datatype Entry = Regular | Symlink(text: string)

  /** An entry of a source directory; `kind` is Symlink(readlink) for a link. */
  datatype SourceFile = SourceFile(name: string, kind: Entry)

  /** What the configuration file offers: the value of `submoduler.path`. */
  datatype Config = Config(path: Option<string>)

  /** The configured parent path, or "../../" when it or the file is missing. */
  function ParentPath(config: Option<Config>): string
  {
    match config
    case Some(Config(Some(p))) => p
    case _ => DefaultParentPath
  }

  /** Names the pattern `*.md` matches: ending in ".md" and not hidden. */
  predicate IsMarkdown(name: string)
  {
    EndsWith(name, ".md") && name[0] != '.'
  }

  /** The listing filtered by the pattern `*.md`, in listing order. */
  function MarkdownFiles(listing: seq<SourceFile>): (r: seq<SourceFile>)
    ensures |r| <= |listing|
    ensures forall f :: f in r <==> f in listing && IsMarkdown(f.name)
  {
    if listing == [] then []
    else if IsMarkdown(listing[0].name) then [listing[0]] + MarkdownFiles(listing[1..])
    else MarkdownFiles(listing[1..])
  }

  /** Filtering a listing in two parts keeps the parts in order. */
  lemma {:induction false} MarkdownFilesAppend(x: seq<SourceFile>, y: seq<SourceFile>)
    ensures MarkdownFiles(x + y) == MarkdownFiles(x) + MarkdownFiles(y)
    decreases |x|
  {
    if x != [] {
      assert (x + y)[0] == x[0];
      assert (x + y)[1..] == x[1..] + y;
      MarkdownFilesAppend(x[1..], y);
    } else {
      assert x + y == y;
    }
  }

  /** A single file is kept exactly when the pattern matches its name. */
  lemma MarkdownFilesSingle(f: SourceFile)
    ensures MarkdownFiles([f]) == if IsMarkdown(f.name) then [f] else []
  {
    assert [f][1..] == [];
  }

  /** The three source directories for a parent path, in processing order. */
  function SourceDirs(parent: string): seq<string>
  {
    [Join(parent, VendorParent + "/" + Steering),
     Join(parent, VendorChild + "/" + Steering),
     Join(parent, ParentKiro + "/" + Steering)]
  }

  /** calculate_relative_path: a source path as seen from `.kiro/steering`. */
  function RelativePath(dir: string): string
  {
    Join(DefaultParentPath, dir)
  }

  /** The text of the link made for a source file: the prefix and the file
      name, or, for a source that is itself a link, its own text resolved one
      level against the prefix's parent directory. */
  function LinkText(prefix: string, f: SourceFile): string
  {
    match f.kind
    case Symlink(linked) => Join(Dirname(prefix), linked)
    case Regular => Join(prefix, f.name)
  }

  /** One attempt to link `name` to `text` in the target directory. */
  datatype Request = Request(name: string, text: string)

  function Requests(files: seq<SourceFile>, prefix: string): (r: seq<Request>)
    ensures |r| == |files|
    ensures forall i :: 0 <= i < |files| ==> r[i] == Request(files[i].name, LinkText(prefix, files[i]))
  {
    seq(|files|, i requires 0 <= i < |files| => Request(files[i].name, LinkText(prefix, files[i])))
  }

  /** The requests of two listings are those of each, in order. */
  lemma RequestsAppend(x: seq<SourceFile>, y: seq<SourceFile>, prefix: string)
    ensures Requests(x + y, prefix) == Requests(x, prefix) + Requests(y, prefix)
  {
  }

  /** The requests one source directory contributes: none when it is missing. */
  function SourceRequests(sources: map<string, seq<SourceFile>>, dir: string): seq<Request>
  {
    if dir in sources then Requests(MarkdownFiles(sources[dir]), RelativePath(dir)) else []
  }

  /** All requests of a run, source by source in the fixed order. */
  function RunRequests(sources: map<string, seq<SourceFile>>, parent: string): seq<Request>
  {
    var d := SourceDirs(parent);
    SourceRequests(sources, d[0]) + SourceRequests(sources, d[1]) + SourceRequests(sources, d[2])
  }

  /** The number of markdown files a source directory holds (0 if missing). */
  function MarkdownCount(sources: map<string, seq<SourceFile>>, dir: string): nat
  {
    if dir in sources then |MarkdownFiles(sources[dir])| else 0
  }

  datatype Action = Create | Update | Skip

  /** How a request for `name` is classified against the current entries. */
  function ActionFor(steering: map<string, Entry>, name: string): Action
  {
    if name in steering && steering[name].Symlink? then Update
    else if name in steering then Skip
    else Create
  }

  /** The target directory together with the three result lists. */
  datatype Tally = Tally(steering: map<string, Entry>, created: seq<string>, updated: seq<string>, skipped: seq<string>)

  /** One pass of the loop body of link_files_from. */
  function Apply(t: Tally, r: Request): Tally
  {
    match ActionFor(t.steering, r.name)
    case Update => t.(steering := t.steering[r.name := Symlink(r.text)], updated := t.updated + [r.name])
    case Skip => t.(skipped := t.skipped + [r.name])
    case Create => t.(steering := t.steering[r.name := Symlink(r.text)], created := t.created + [r.name])
  }

  function ApplyAll(t: Tally, rs: seq<Request>): Tally
    decreases |rs|
  {
    if rs == [] then t else Apply(ApplyAll(t, rs[..|rs| - 1]), rs[|rs| - 1])
  }

  /** The state after create_symlinks_from_vendor_and_parent. */
  function Reconcile(steering: map<string, Entry>, sources: map<string, seq<SourceFile>>, parent: string): Tally
  {
    ApplyAll(Tally(steering, [], [], []), RunRequests(sources, parent))
  }

  /** The markdown names whose entry is a link that does not resolve. */
  function Broken(steering: map<string, Entry>, resolves: set<string>): set<string>
  {
    set n | n in steering && IsMarkdown(n) && steering[n].Symlink? && steering[n].text !in resolves
  }

  predicate Distinct(s: seq<string>)
  {
    forall i, j :: 0 <= i < j < |s| ==> s[i] != s[j]
  }

  // ---------------------------------------------------------------------
  // Independent description of the outcome, in terms of the initial
  // directory and the requests alone.

  function Lookup(m: map<string, Entry>, n: string): Option<Entry>
  {
    if n in m then Some(m[n]) else None
  }

  predicate IsRegular(m: map<string, Entry>, n: string)
  {
    n in m && m[n] == Regular
  }

  /** The text of the last request for `n`, if there is one. */
  function LastText(rs: seq<Request>, n: string): Option<string>
    decreases |rs|
  {
    if rs == [] then None
    else if rs[|rs| - 1].name == n then Some(rs[|rs| - 1].text)
    else LastText(rs[..|rs| - 1], n)
  }

  /** The entry `n` should have after all requests: a non-link stays, else the
      last request for `n` wins, else the entry is as it was. */
  function Expected(initial: map<string, Entry>, rs: seq<Request>, n: string): Option<Entry>
  {
    if IsRegular(initial, n) then Some(Regular)
    else match LastText(rs, n)
      case Some(text) => Some(Symlink(text))
      case None => Lookup(initial, n)
  }

  /** The classification a request for `n` gets after the requests `done`:
      skipped for a non-link, updated if a link was there before or an earlier
      request made one, created otherwise. */
  function Kind(initial: map<string, Entry>, done: seq<Request>, n: string): Action
  {
    if IsRegular(initial, n) then Skip
    else if n in initial || LastText(done, n).Some? then Update
    else Create
  }

  /** The names of the requests that hit a non-link entry, in request order. */
  function RegularNames(initial: map<string, Entry>, rs: seq<Request>): seq<string>
    decreases |rs|
  {
    if rs == [] then []
    else RegularNames(initial, rs[..|rs| - 1]) + (if IsRegular(initial, rs[|rs| - 1].name) then [rs[|rs| - 1].name] else [])
  }

  // ---------------------------------------------------------------------
  // Lemmas

  lemma {:induction false} ApplyAllAppend(t: Tally, a: seq<Request>, b: seq<Request>)
    ensures ApplyAll(t, a + b) == ApplyAll(ApplyAll(t, a), b)
    decreases |b|
  {
    if b == [] {
      assert a + b == a;
    } else {
      assert (a + b)[..|a + b| - 1] == a + b[..|b| - 1];
      ApplyAllAppend(t, a, b[..|b| - 1]);
    }
  }

  lemma {:induction false} LastTextFound(rs: seq<Request>, i: nat)
    requires i < |rs|
    ensures LastText(rs, rs[i].name).Some?
    decreases |rs|
  {
    if i < |rs| - 1 && rs[|rs| - 1].name != rs[i].name {
      LastTextFound(rs[..|rs| - 1], i);
    }
  }

  lemma {:induction false} LastTextAppend(a: seq<Request>, b: seq<Request>, n: string)
    ensures LastText(a + b, n) == if LastText(b, n).Some? then LastText(b, n) else LastText(a, n)
    decreases |b|
  {
    if b == [] {
      assert a + b == a;
    } else {
      assert (a + b)[..|a + b| - 1] == a + b[..|b| - 1];
      LastTextAppend(a, b[..|b| - 1], n);
    }
  }

  /** Every entry after a sequence of requests is the one Expected names. */
  lemma {:induction false} ApplyAllEntry(t: Tally, rs: seq<Request>, n: string)
    ensures Lookup(ApplyAll(t, rs).steering, n) == Expected(t.steering, rs, n)
    decreases |rs|
  {
    if rs != [] {
      ApplyAllEntry(t, rs[..|rs| - 1], n);
    }
  }

  /** A non-link entry is never deleted or replaced, however many requests hit it. */
  lemma RegularNeverReplaced(t: Tally, rs: seq<Request>, n: string)
    requires IsRegular(t.steering, n)
    ensures IsRegular(ApplyAll(t, rs).steering, n)
  {
    ApplyAllEntry(t, rs, n);
  }

  /** Each request lands in exactly one list, the one Kind chooses from the
      initial directory and the earlier requests; a skipped request changes
      no entry. */
  lemma ClassifiedByHistory(t: Tally, rs: seq<Request>, i: nat)
    requires i < |rs|
    ensures var before := ApplyAll(t, rs[..i]);
            var after := ApplyAll(t, rs[..i + 1]);
            var n := rs[i].name;
            match Kind(t.steering, rs[..i], n)
            case Create => after.created == before.created + [n] && after.updated == before.updated && after.skipped == before.skipped
                           && n !in before.steering && after.steering == before.steering[n := Symlink(rs[i].text)]
            case Update => after.created == before.created && after.updated == before.updated + [n] && after.skipped == before.skipped
                           && after.steering == before.steering[n := Symlink(rs[i].text)]
            case Skip => after.created == before.created && after.updated == before.updated && after.skipped == before.skipped + [n]
                         && after.steering == before.steering
  {
    assert rs[..i + 1][..i] == rs[..i];
    ApplyAllEntry(t, rs[..i], rs[i].name);
  }

  /** Every request is counted once: the three lists grow by the number of requests. */
  lemma {:induction false} ApplyAllCounts(t: Tally, rs: seq<Request>)
    ensures var r := ApplyAll(t, rs);
            |r.created| + |r.updated| + |r.skipped| == |t.created| + |t.updated| + |t.skipped| + |rs|
    decreases |rs|
  {
    if rs != [] {
      ApplyAllCounts(t, rs[..|rs| - 1]);
    }
  }

  /** The skipped list gains exactly the requests that hit a non-link entry. */
  lemma {:induction false} SkippedAreRegular(t: Tally, rs: seq<Request>)
    ensures ApplyAll(t, rs).skipped == t.skipped + RegularNames(t.steering, rs)
    decreases |rs|
  {
    if rs != [] {
      var front := rs[..|rs| - 1];
      SkippedAreRegular(t, front);
      ApplyAllEntry(t, front, rs[|rs| - 1].name);
    }
  }

  lemma {:induction false} RegularNamesAgree(a: map<string, Entry>, b: map<string, Entry>, rs: seq<Request>)
    requires forall i :: 0 <= i < |rs| ==> (IsRegular(a, rs[i].name) <==> IsRegular(b, rs[i].name))
    ensures RegularNames(a, rs) == RegularNames(b, rs)
    decreases |rs|
  {
    if rs != [] {
      RegularNamesAgree(a, b, rs[..|rs| - 1]);
    }
  }

  /** When every requested name already has an entry, nothing is created and
      no name is added. */
  lemma {:induction false} NoCreateWhenPresent(t: Tally, rs: seq<Request>)
    requires forall i :: 0 <= i < |rs| ==> rs[i].name in t.steering
    ensures ApplyAll(t, rs).created == t.created
    ensures ApplyAll(t, rs).steering.Keys == t.steering.Keys
    decreases |rs|
  {
    if rs != [] {
      NoCreateWhenPresent(t, rs[..|rs| - 1]);
    }
  }

  /** A second run with the same sources creates nothing, leaves the
      directory as the first run left it, skips the same files, and updates
      as many as the first run created or updated. */
  lemma SecondRunIsIdempotent(steering: map<string, Entry>, sources: map<string, seq<SourceFile>>, parent: string)
    ensures var first := Reconcile(steering, sources, parent);
            var second := Reconcile(first.steering, sources, parent);
            && second.created == []
            && second.steering == first.steering
            && second.skipped == first.skipped
            && |second.updated| == |first.created| + |first.updated|
  {
    var rs := RunRequests(sources, parent);
    FirstPassCovers(steering, rs);
    SecondPassSteering(steering, rs);
    SecondPassSkipped(steering, rs);
    SecondPassCounts(steering, rs);
  }

  /** After one pass every requested name has an entry, and an entry is a
      regular file exactly when it was one before. */
  lemma FirstPassCovers(steering: map<string, Entry>, rs: seq<Request>)
    ensures var s1 := ApplyAll(Tally(steering, [], [], []), rs).steering;
            forall i :: 0 <= i < |rs| ==> rs[i].name in s1 && (IsRegular(s1, rs[i].name) <==> IsRegular(steering, rs[i].name))
  {
    var t0 := Tally(steering, [], [], []);
    var s1 := ApplyAll(t0, rs).steering;
    forall i | 0 <= i < |rs|
      ensures rs[i].name in s1
      ensures IsRegular(s1, rs[i].name) <==> IsRegular(steering, rs[i].name)
    {
      LastTextFound(rs, i);
      ApplyAllEntry(t0, rs, rs[i].name);
    }
  }

  /** The second pass leaves the entries as the first left them and creates
      nothing. */
  lemma SecondPassSteering(steering: map<string, Entry>, rs: seq<Request>)
    requires var s1 := ApplyAll(Tally(steering, [], [], []), rs).steering;
             forall i :: 0 <= i < |rs| ==> rs[i].name in s1
    ensures var s1 := ApplyAll(Tally(steering, [], [], []), rs).steering;
            var second := ApplyAll(Tally(s1, [], [], []), rs);
            second.steering == s1 && second.created == []
  {
    var t0 := Tally(steering, [], [], []);
    var s1 := ApplyAll(t0, rs).steering;
    var t1 := Tally(s1, [], [], []);
    var second := ApplyAll(t1, rs);
    NoCreateWhenPresent(t1, rs);
    forall n ensures Lookup(second.steering, n) == Lookup(s1, n) {
      ApplyAllEntry(t1, rs, n);
      ApplyAllEntry(t0, rs, n);
      ExpectedStable(steering, s1, rs, n);
    }
    LookupExtensional(second.steering, s1);
  }

  /** Replaying the requests over their own outcome changes no entry. */
  lemma ExpectedStable(initial: map<string, Entry>, after: map<string, Entry>, rs: seq<Request>, n: string)
    requires Lookup(after, n) == Expected(initial, rs, n)
    ensures Expected(after, rs, n) == Lookup(after, n)
  {
  }

  lemma LookupExtensional(a: map<string, Entry>, b: map<string, Entry>)
    requires forall n :: Lookup(a, n) == Lookup(b, n)
    ensures a == b
  {
    assert forall n :: n in a <==> Lookup(a, n).Some?;
    assert a.Keys == b.Keys;
    assert forall n | n in a :: a[n] == Lookup(a, n).value;
  }

  /** Both passes skip the same regular files. */
  lemma SecondPassSkipped(steering: map<string, Entry>, rs: seq<Request>)
    requires var s1 := ApplyAll(Tally(steering, [], [], []), rs).steering;
             forall i :: 0 <= i < |rs| ==> (IsRegular(s1, rs[i].name) <==> IsRegular(steering, rs[i].name))
    ensures var first := ApplyAll(Tally(steering, [], [], []), rs);
            ApplyAll(Tally(first.steering, [], [], []), rs).skipped == first.skipped
  {
    var t0 := Tally(steering, [], [], []);
    var t1 := Tally(ApplyAll(t0, rs).steering, [], [], []);
    SkippedAreRegular(t0, rs);
    SkippedAreRegular(t1, rs);
    RegularNamesAgree(t1.steering, steering, rs);
  }

  /** What the first pass created or updated, the second updates. */
  lemma SecondPassCounts(steering: map<string, Entry>, rs: seq<Request>)
    requires var first := ApplyAll(Tally(steering, [], [], []), rs);
             var second := ApplyAll(Tally(first.steering, [], [], []), rs);
             second.created == [] && second.skipped == first.skipped
    ensures var first := ApplyAll(Tally(steering, [], [], []), rs);
            |ApplyAll(Tally(first.steering, [], [], []), rs).updated| == |first.created| + |first.updated|
  {
    var t0 := Tally(steering, [], [], []);
    var t1 := Tally(ApplyAll(t0, rs).steering, [], [], []);
    ApplyAllCounts(t0, rs);
    ApplyAllCounts(t1, rs);
  }

  /** A non-link entry survives a whole run. */
  lemma ReconcileKeepsRegular(steering: map<string, Entry>, sources: map<string, seq<SourceFile>>, parent: string, n: string)
    requires IsRegular(steering, n)
    ensures IsRegular(Reconcile(steering, sources, parent).steering, n)
  {
    RegularNeverReplaced(Tally(steering, [], [], []), RunRequests(sources, parent), n);
  }

  /** The three lists together hold one name per markdown file of the
      existing sources; a missing source contributes nothing. */
  lemma ReconcileCounts(steering: map<string, Entry>, sources: map<string, seq<SourceFile>>, parent: string)
    ensures var r := Reconcile(steering, sources, parent);
            var d := SourceDirs(parent);
            |r.created| + |r.updated| + |r.skipped|
              == MarkdownCount(sources, d[0]) + MarkdownCount(sources, d[1]) + MarkdownCount(sources, d[2])
  {
    ApplyAllCounts(Tally(steering, [], [], []), RunRequests(sources, parent));
  }

  /** A name that an earlier source already linked is counted as updated when
      a later source offers it again, and the later source's link wins. */
  lemma LaterSourceReplaces(t: Tally, a: seq<Request>, b: seq<Request>, j: nat, i: nat)
    requires j < |a| && i < |b| && a[j].name == b[i].name
    requires !IsRegular(t.steering, b[i].name)
    ensures Kind(t.steering, a + b[..i], b[i].name) == Update
    ensures LastText(b, b[i].name).Some?
    ensures Lookup(ApplyAll(t, a + b).steering, b[i].name) == Some(Symlink(LastText(b, b[i].name).value))
  {
    LastTextFound(a, j);
    LastTextAppend(a, b[..i], b[i].name);
    LastTextFound(b, i);
    LastTextAppend(a, b, b[i].name);
    ApplyAllEntry(t, a + b, b[i].name);
  }

  /** For a regular source file the link text is "../../" + source dir + "/" + name. */
  lemma RegularSourceText(dir: string, name: string)
    requires dir != [] && dir[0] != '/' && dir[|dir| - 1] != '/'
    requires name != [] && name[0] != '/'
    ensures LinkText(RelativePath(dir), SourceFile(name, Regular)) == "../../" + dir + "/" + name
  {
    var p := RelativePath(dir);
    assert p == "../../" + dir;
    assert p[|p| - 1] == dir[|dir| - 1];
  }

  /** For a source file that is itself a link, its text is resolved one level:
      it is taken relative to the source's `.kiro` directory as seen from the
      target. */
  lemma SymlinkedSourceText(parent: string, sub: string, name: string, linked: string)
    requires sub != [] && sub[0] != '/'
    ensures LinkText(RelativePath(Join(parent, sub + "/" + Steering)), SourceFile(name, Symlink(linked)))
              == Join(RelativePath(Join(parent, sub)), linked)
  {
    var x := Join(parent, sub);
    JoinChild(parent, sub, Steering);
    RelativeChild(x);
    assert '/' !in Steering;
    DirnameOfChild(RelativePath(x), Steering);
  }

  /** The relative path of a directory's `steering` child is the directory's
      relative path with `/steering` appended. */
  lemma RelativeChild(x: string)
    requires x != []
    ensures RelativePath(x + "/" + Steering) == RelativePath(x) + "/" + Steering
  {
    var y := DropLeadingSlash(x);
    assert DropLeadingSlash(x + "/" + Steering) == y + "/" + Steering by {
      if x[0] == '/' {
        assert (x + "/" + Steering)[1..] == x[1..] + "/" + Steering;
      }
    }
    assert DropTrailingSlash(DefaultParentPath) + "/" == DefaultParentPath;
  }

  lemma JoinChild(parent: string, sub: string, child: string)
    requires sub != [] && sub[0] != '/'
    ensures Join(parent, sub + "/" + child) == Join(parent, sub) + "/" + child
  {
    assert DropLeadingSlash(sub + "/" + child) == sub + "/" + child;
    assert DropLeadingSlash(sub) == sub;
  }

  /** A run is the three sources applied one after the other. */
  lemma ReconcileBySource(steering: map<string, Entry>, sources: map<string, seq<SourceFile>>, parent: string)
    ensures var d := SourceDirs(parent);
            Reconcile(steering, sources, parent)
              == ApplyAll(ApplyAll(ApplyAll(Tally(steering, [], [], []), SourceRequests(sources, d[0])),
                                   SourceRequests(sources, d[1])),
                          SourceRequests(sources, d[2]))
  {
    var d := SourceDirs(parent);
    var t0 := Tally(steering, [], [], []);
    var a, b, c := SourceRequests(sources, d[0]), SourceRequests(sources, d[1]), SourceRequests(sources, d[2]);
    ApplyAllAppend(t0, a, b);
    ApplyAllAppend(t0, a + b, c);
  }

  // ---------------------------------------------------------------------
  // The command object

  class SymlinkBuildCommand {
    var steering: map<string, Entry>
    var parentPath: string
    var created: seq<string>
    var updated: seq<string>
    var skipped: seq<string>
    var broken: seq<string>

    /** `steering` is the target directory as ensure_directory_exists leaves it. */
    constructor (steering0: map<string, Entry>)
      ensures steering == steering0 && parentPath == []
      ensures created == [] && updated == [] && skipped == [] && broken == []
    {
      steering := steering0;
      parentPath := [];
      created, updated, skipped, broken := [], [], [], [];
    }

    function Current(): Tally
      reads this
    {
      Tally(steering, created, updated, skipped)
    }

    method FindParentPath(config: Option<Config>)
      modifies this`parentPath
      ensures parentPath == ParentPath(config)
    {
      if config.Some? {
        match config.value.path {
          case Some(p) => parentPath := p;
          case None => parentPath := DefaultParentPath;
        }
      } else {
        parentPath := DefaultParentPath;
      }
    }

    /** link_files_from: a missing source changes nothing; otherwise every
        markdown file is linked, updated or skipped in listing order. */
    method LinkFilesFrom(sources: map<string, seq<SourceFile>>, sourceDir: string, relativePrefix: string)
      modifies this`steering, this`created, this`updated, this`skipped
      ensures sourceDir !in sources ==> Current() == old(Current())
      ensures sourceDir in sources ==>
                Current() == ApplyAll(old(Current()), Requests(MarkdownFiles(sources[sourceDir]), relativePrefix))
      ensures relativePrefix == RelativePath(sourceDir) ==>
                Current() == ApplyAll(old(Current()), SourceRequests(sources, sourceDir))
    {
      if sourceDir !in sources {
        return;
      }
      LinkEach(MarkdownFiles(sources[sourceDir]), relativePrefix);
    }

    /** The loop of link_files_from over the markdown files of one source. */
    method LinkEach(files: seq<SourceFile>, relativePrefix: string)
      modifies this`steering, this`created, this`updated, this`skipped
      ensures Current() == ApplyAll(old(Current()), Requests(files, relativePrefix))
    {
      ghost var rs := Requests(files, relativePrefix);
      var i := 0;
      while i < |files|
        invariant 0 <= i <= |files|
        invariant Current() == ApplyAll(old(Current()), rs[..i])
      {
        assert rs[..i + 1][..i] == rs[..i];
        var filename := files[i].name;
        var sourceRelative;
        match files[i].kind {
          case Symlink(linked) => sourceRelative := Join(Dirname(relativePrefix), linked);
          case Regular => sourceRelative := Join(relativePrefix, filename);
        }
        assert rs[i] == Request(filename, sourceRelative);
        LinkOne(filename, sourceRelative);
        i := i + 1;
      }
      assert rs[..|files|] == rs;
    }

    /** The decision for one target name: replace a link, leave any other
        entry alone, or make a new link. */
    method LinkOne(filename: string, sourceRelative: string)
      modifies this`steering, this`created, this`updated, this`skipped
      ensures Current() == Apply(old(Current()), Request(filename, sourceRelative))
    {
      if filename in steering && steering[filename].Symlink? {
        updated := updated + [filename];
        steering := steering - {filename};
      } else if filename in steering {
        skipped := skipped + [filename];
        return;
      } else {
        created := created + [filename];
      }
      steering := steering[filename := Symlink(sourceRelative)];
      assert steering == old(steering)[filename := Symlink(sourceRelative)];
    }

    /** create_symlinks_from_vendor_and_parent: the three sources in order. */
    method CreateSymlinksFromVendorAndParent(sources: map<string, seq<SourceFile>>)
      modifies this`steering, this`created, this`updated, this`skipped
      ensures Current() == Reconcile(old(steering), sources, parentPath)
    {
      created, updated, skipped := [], [], [];
      ghost var d := SourceDirs(parentPath);
      ghost var t0 := Current();
      var vendorParentPath := Join(parentPath, VendorParent + "/" + Steering);
      var vendorChildPath := Join(parentPath, VendorChild + "/" + Steering);
      var parentSteeringPath := Join(parentPath, ParentKiro + "/" + Steering);
      LinkFilesFrom(sources, vendorParentPath, RelativePath(vendorParentPath));
      ghost var t1 := Current();
      assert t1 == ApplyAll(t0, SourceRequests(sources, d[0]));
      LinkFilesFrom(sources, vendorChildPath, RelativePath(vendorChildPath));
      ghost var t2 := Current();
      assert t2 == ApplyAll(t1, SourceRequests(sources, d[1]));
      LinkFilesFrom(sources, parentSteeringPath, RelativePath(parentSteeringPath));
      assert Current() == ApplyAll(t2, SourceRequests(sources, d[2]));
      ReconcileBySource(old(steering), sources, parentPath);
    }

    /** validate_symlinks: lists each markdown link that does not resolve,
        once, and repairs nothing. */
    method ValidateSymlinks(resolves: set<string>)
      modifies this`broken
      ensures forall n :: n in broken <==> n in Broken(steering, resolves)
      ensures Distinct(broken)
    {
      broken := [];
      var todo := steering.Keys;
      while todo != {}
        invariant todo <= steering.Keys
        invariant forall n :: n in broken <==> n in Broken(steering, resolves) && n !in todo
        invariant Distinct(broken)
        decreases todo
      {
        var link :| link in todo;
        if IsMarkdown(link) && steering[link].Symlink? && steering[link].text !in resolves {
          broken := broken + [link];
        }
        todo := todo - {link};
      }
    }

    /** run: find the parent path, link the three sources, then validate. */
    method Run(config: Option<Config>, sources: map<string, seq<SourceFile>>, resolves: set<string>)
      modifies this
      ensures parentPath == ParentPath(config)
      ensures Current() == Reconcile(old(steering), sources, parentPath)
      ensures forall n :: n in broken <==> n in Broken(steering, resolves)
      ensures Distinct(broken)
    {
      FindParentPath(config);
      CreateSymlinksFromVendorAndParent(sources);
      ValidateSymlinks(resolves);
    }
  }
}
