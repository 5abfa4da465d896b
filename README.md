# submoduler_child, modelled in Dafny

`submoduler_child` is the command-line tool run inside a child submodule of
a Submoduler project. It has five parts, and this project models each of them:

1. **The front end.** It looks up the first argument in its command table. For
   every command except `init`, it then checks that a `.submoduler.ini` exists
   and is valid. Finally it dispatches to the subcommand.
2. **`init`.** It refuses if the configuration file already exists. Otherwise
   it chooses the child name in this order: `--name`, then the
   `spec.name = "..."` of the first gemspec, then the directory's own name. It
   writes the configuration template and creates whichever of `lib`, `spec` and
   `bin` are missing.
3. **`status`.** It reports the working tree from `git status --short`, sorting
   entries into staged, modified and untracked lists. It then reports the
   branch against its upstream, using the ahead/behind counts from
   `git rev-list --left-right --count`.
4. **`symlink_build`.** It fills `.kiro/steering` with links to the markdown
   files of three source directories, taken in a fixed order. Each target is
   classified as created, updated or skipped. Afterwards it lists the links
   that do not resolve.
5. **`update`.** It runs the tests, commits pending work with the caller's
   message, bumps the patch version, commits the bump, and pushes the branch
   and the tags. On request it also creates a release on GitHub.

Files:

- `common.dfy` (module `Common`) holds the Ruby string and path primitives the
  commands rely on: `String#strip`, `each_line`, `split`, `to_i`,
  `Integer#to_s`, `File.join` and `File.dirname`.
- `cli.dfy`, `init.dfy`, `status.dfy`, `symlink_build.dfy` and `update.dfy`
  hold one command each.

Where the source changes state, the model does too:

- `Cli.CLI`, `Init.InitCommand` and `SymlinkBuild.SymlinkBuildCommand` are
  classes whose methods update fields; `Init.Workspace` is the mutable working
  directory that `Init.InitCommand` changes. The methods are proved equal to a
  pure reference function, except `SymlinkBuildCommand.ValidateSymlinks`: it is
  proved to list each member of the set `Broken` once, in no particular order.
- The loops of the source are `while` loops with invariants.
- The properties are lemmas about the reference functions.

Everything outside the core is a parameter:

- git, the test runner, the version command, the environment, the GitHub
  API, the configuration reader and the file system;
- git and the file system appear as the output text or the directory map they
  present;
- in the front end's context check and dispatch, in `status` and in `update`,
  an exception raised by a call the model cannot see is a parameter naming
  where it is raised and what it is (`Cli.Ini`, `subRaise`, `Status.Call`,
  `Env.raisesAt`); in `display_help`, `init` and `symlink_build` only part of
  them is (see "Left out").

## Model

| member | source | states |
|---|---|---|
| Cli.LookupMatchesTable | lib/submoduler_child/cli.rb:9-17 | a name is accepted exactly when it is a key of COMMANDS, and the branch it selects carries that name, so the `else` of execute_command is unreachable |
| Cli.NameRoundTrip | lib/submoduler_child/cli.rb:69-93 | each command's name selects that command's branch and is a key of the table |
| Cli.CLI.constructor | lib/submoduler_child/cli.rb:23-27 | the arguments are stored and no command is taken yet |
| Cli.CLI.Run | lib/submoduler_child/cli.rb:29-49 | the result is the reference outcome; the command name is shifted off the arguments exactly when there is one |
| Cli.EmptyArgs | lib/submoduler_child/cli.rb:30-33 | with no arguments, help is shown and the exit code is 1; nothing is verified or dispatched |
| Cli.UnknownCommand | lib/submoduler_child/cli.rb:37-41 | an unknown name shows help, exits with 1 and dispatches nothing; the configuration file plays no part |
| Cli.InitSkipsVerification | lib/submoduler_child/cli.rb:53-55 | `init` is dispatched with the remaining arguments whatever the configuration file says; its code is the subcommand's, or 1 if it raises |
| Cli.MissingIniFails | lib/submoduler_child/cli.rb:57-61 | any other command without `.submoduler.ini` (whose opening raised nothing) exits with 1 and logs "Error: Not in a Submoduler directory. Missing .submoduler.ini" |
| Cli.InvalidConfiguration | lib/submoduler_child/cli.rb:46-67 | the first error from loading or validating exits with 1 and dispatches nothing; a ConfigError logs "Error: Invalid configuration: " followed by its message, any other StandardError passes the rescue and logs "Error: " followed by its own message |
| Cli.IniOpenFails | lib/submoduler_child/cli.rb:46-67 | an error from `SubmodulerIni.new` or `exist?` exits with 1, dispatches nothing and is logged the same way (prefixed only if it is a ConfigError), whether or not the file exists |
| Cli.DispatchedExitCodes | lib/submoduler_child/cli.rb:69-94 | `init`, `status`, `test`, `version` and `update` receive the arguments after the command name and exit with their subcommand's code, or 1 if it raises; `build` and `symlink_build` receive no arguments, and exit with 0 (`symlink_build` with 1 if it raises) |
| Cli.DispatchedIff | lib/submoduler_child/cli.rb:29-67 | a run is dispatched exactly when the name is known and the context check passes; every undispatched run exits with 1 |
| Init.Workspace.constructor | lib/submoduler_child/init_command.rb:13-14 | the working directory starts with the given entries and name |
| Init.InitCommand.constructor | lib/submoduler_child/init_command.rb:5-8 | the `--name` option is stored as given, the empty string included |
| Init.InitCommand.CreateDirectoryStructure | lib/submoduler_child/init_command.rb:88-97 | the loop over the directory names leaves the entries, the created names and the raise that the reference MakeDirs describes |
| Init.InitCommand.Execute | lib/submoduler_child/init_command.rb:10-32 | the new entries, the result and the chosen name are those of the reference run InitSpec |
| Init.ExistingConfigRefused | lib/submoduler_child/init_command.rb:13-17 | with `.submoduler.ini` present, init exits with 1 and changes nothing |
| Init.NamePriority | lib/submoduler_child/init_command.rb:19 | the chosen name is the option if given, else the gemspec's name, else the directory's name |
| Init.ConfigLines | lib/submoduler_child/init_command.rb:53-68 | read back line by line, the written file has 11 lines: the `[submoduler]` header, `childname = ` with the name, `type = child`, the `[paths]` section with `lib` and `spec`, and the `[parent]` header |
| Init.LinesOfJoin | lib/submoduler_child/init_command.rb:54-66 | lines without line feeds, each written with one, are read back as themselves, each with its line feed |
| Init.SkipRegexSpace | lib/submoduler_child/init_command.rb:81 | `\s*` takes the longest run of whitespace |
| Init.QuoteRunEnd | lib/submoduler_child/init_command.rb:81 | `[^"']+` takes the longest run of characters that are not quotes |
| Init.MatchAtComplete | lib/submoduler_child/init_command.rb:81 | every way the pattern can match at a position yields the capture the model returns, so the match there is unique |
| Init.MatchAtSound | lib/submoduler_child/init_command.rb:81-83 | every capture comes from a match of the whole pattern at that position (`spec.name`, `\s*`, `=`, `\s*`, a quote, the capture, a quote), so with MatchAtComplete the two are equivalent; the capture is non-empty and contains no quote |
| Init.SearchFromLeftmost | lib/submoduler_child/init_command.rb:81 | a search result is the match at some position at or after the start |
| Init.SearchFromFinds | lib/submoduler_child/init_command.rb:81 | if the pattern matches anywhere at or after the start, the search finds a match |
| Init.GemNameOfDeclaration | lib/submoduler_child/init_command.rb:72-86 | a gemspec that starts with `spec.name = "name"`, in either quote, yields that name |
| Init.MakeDirsRaises | lib/submoduler_child/init_command.rb:91-96 | mkdir raises exactly when one of the names is taken by a file |
| Init.MakeDirsPreserves | lib/submoduler_child/init_command.rb:91-96 | no existing entry is changed or removed; every added entry is a directory from the list |
| Init.MakeDirsCreatesMissing | lib/submoduler_child/init_command.rb:92-95 | without a raise, every listed name ends up a directory, and the created ones are exactly those that were missing |
| Init.MakeDirsIdempotent | lib/submoduler_child/init_command.rb:92 | a second pass creates nothing and changes nothing |
| Init.SuccessfulInit | lib/submoduler_child/init_command.rb:10-32 | a run that exits with 0 wrote the template with the chosen name, left lib, spec and bin as directories, kept every earlier entry, added nothing else, and created exactly the missing directories |
| Init.InitResults | lib/submoduler_child/init_command.rb:19-22 | init raises exactly when the first gemspec cannot be read, or when lib, spec or bin names a file |
| Init.InitAgainRefused | lib/submoduler_child/init_command.rb:13-17 | running init again after a successful run is refused and changes nothing |
| Status.KindsAppend | lib/submoduler_child/status_command.rb:70-79 | each output line is classified on its own: the classification of two blocks of lines is that of each block, in order |
| Status.CheckRepositoryStatus | lib/submoduler_child/status_command.rb:55-101 | the report is an error when the query fails, clean when its output strips to nothing, and the three lists otherwise |
| Status.CollectLines | lib/submoduler_child/status_command.rb:66-79 | the each_line loop leaves the three lists that the classified lines describe |
| Status.AppendByPrefix | lib/submoduler_child/status_command.rb:71-78 | one pass of the loop body appends the line's name to the list its prefix selects and leaves the other two lists alone |
| Status.StatusShortcuts | lib/submoduler_child/status_command.rb:60-62 | a failed query reports an error; a successful one reports clean exactly when its output strips to nothing |
| Status.DirtyOutput | lib/submoduler_child/status_command.rb:63-79 | any other output is classified line by line |
| Status.UnstagedModificationLine | lib/submoduler_child/status_command.rb:71-73 | an unstaged modification ` M path` lists the path as modified |
| Status.StagedModificationLine | lib/submoduler_child/status_command.rb:71-73 | a staged modification `M  path` is listed as modified, with the work-tree column's space in front of the path |
| Status.UntrackedLine | lib/submoduler_child/status_command.rb:74-75 | an untracked `?? path` lists the path under its own name |
| Status.AddedLine | lib/submoduler_child/status_command.rb:76-77 | a staged addition `A  path` is listed as staged, with the column's space in front |
| Status.OtherIndexStatusLine | lib/submoduler_child/status_command.rb:71-78 | any other index status lands in no list |
| Status.OtherWorkTreeStatusLine | lib/submoduler_child/status_command.rb:71-78 | any other work-tree status behind an unchanged index column lands in no list |
| Status.CollectCounts | lib/submoduler_child/status_command.rb:70-79 | every line lands in at most one list: the list lengths add up to the number of lines not ignored |
| Status.CollectMembership | lib/submoduler_child/status_command.rb:70-79 | a path is in a list exactly when some line is classified into that list under that name |
| Status.CollectExtends | lib/submoduler_child/status_command.rb:70-79 | further lines only extend each list, so input order is kept |
| Status.AddExtends | lib/submoduler_child/status_command.rb:72-78 | one line extends only its own list, by its own name |
| Status.IgnoredLine | lib/submoduler_child/status_command.rb:70-79 | a line in no group changes no list |
| Status.TwoUntrackedLines | lib/submoduler_child/status_command.rb:55-79 | output of two untracked lines reports exactly those two names, in order |
| Status.CompareCountsCases | lib/submoduler_child/status_command.rb:117-125 | exactly one of ahead-and-behind, ahead, behind and up-to-date holds, with the strict comparisons of the source |
| Status.CountFields | lib/submoduler_child/status_command.rb:112-115 | the printed pair "A\tB\n" strips and splits back into the two counts |
| Status.BranchInfoFromCounts | lib/submoduler_child/status_command.rb:103-125 | on a named branch, the rev-list output for counts A and B gives the comparison of A and B |
| Status.BranchShortcuts | lib/submoduler_child/status_command.rb:106-130 | an empty or failed branch query reports a detached HEAD; a failed rev-list reports no upstream; a rev-list with fewer than two fields raises |
| Status.Execute | lib/submoduler_child/status_command.rb:13-23 | the exit code and the reports are those of the reference run StatusOutcome, for any call of the header, the status query, the branch query or the rev-list that raises |
| Status.StatusExitCode | lib/submoduler_child/status_command.rb:13-23 | the exit code is 0 or 1, and it is 1 exactly when a StandardError escapes: a raise in the header, the status query or the branch query, a raise in the rev-list call when that call is made, or the comparison of a missing count |
| Status.StatusReports | lib/submoduler_child/status_command.rb:14-17 | the tree is reported exactly when neither the header nor the status query raised, and then as the query says; a branch report is the reference one and comes with exit code 0 |
| SymlinkBuild.MarkdownFiles | lib/submoduler_child/symlink_build_command.rb:83 | the glob keeps exactly the listing's `*.md` files and no more |
| SymlinkBuild.MarkdownFilesAppend | lib/submoduler_child/symlink_build_command.rb:83 | filtering keeps listing order: the files kept from two parts are those of the first part followed by those of the second |
| SymlinkBuild.MarkdownFilesSingle | lib/submoduler_child/symlink_build_command.rb:83 | a single file is kept exactly when its name matches `*.md` |
| SymlinkBuild.RequestsAppend | lib/submoduler_child/symlink_build_command.rb:83-94 | the link requests follow the files one for one: those of two listings are those of each, in order |
| SymlinkBuild.SymlinkBuildCommand.constructor | lib/submoduler_child/symlink_build_command.rb:24-27 | the target directory is as ensure_directory_exists leaves it, and all lists are empty |
| SymlinkBuild.SymlinkBuildCommand.FindParentPath | lib/submoduler_child/symlink_build_command.rb:29-41 | the parent path is the configured `submoduler.path`, or "../../" when it or the file is missing |
| SymlinkBuild.SymlinkBuildCommand.LinkOne | lib/submoduler_child/symlink_build_command.rb:96-106 | a link is replaced and counted as updated; any other entry is skipped and left alone; a missing name is linked and counted as created |
| SymlinkBuild.SymlinkBuildCommand.LinkEach | lib/submoduler_child/symlink_build_command.rb:83-107 | the loop applies the requests of the files in order |
| SymlinkBuild.SymlinkBuildCommand.LinkFilesFrom | lib/submoduler_child/symlink_build_command.rb:77-108 | a missing source changes nothing; otherwise its markdown files are applied in listing order |
| SymlinkBuild.SymlinkBuildCommand.CreateSymlinksFromVendorAndParent | lib/submoduler_child/symlink_build_command.rb:43-66 | the lists are reset and the three sources are applied in the fixed order, giving the reference state Reconcile |
| SymlinkBuild.SymlinkBuildCommand.ValidateSymlinks | lib/submoduler_child/symlink_build_command.rb:110-119 | exactly the markdown links that do not resolve are listed, each once |
| SymlinkBuild.SymlinkBuildCommand.Run | lib/submoduler_child/symlink_build_command.rb:13-20 | the parent path, the reconciled directory with its lists, and the broken links are as above |
| SymlinkBuild.ApplyAllAppend | lib/submoduler_child/symlink_build_command.rb:58-65 | applying two request sequences one after the other is applying their concatenation |
| SymlinkBuild.ApplyAllEntry | lib/submoduler_child/symlink_build_command.rb:96-106 | after any requests, an entry that was not a link stays as it was, and otherwise it is a link to the text of the last request for its name |
| SymlinkBuild.RegularNeverReplaced | lib/submoduler_child/symlink_build_command.rb:99-101 | an entry that is not a link is never deleted or replaced |
| SymlinkBuild.ClassifiedByHistory | lib/submoduler_child/symlink_build_command.rb:96-106 | each request lands in exactly one list, the one chosen by the initial entry and the earlier requests, and changes the entry accordingly |
| SymlinkBuild.ApplyAllCounts | lib/submoduler_child/symlink_build_command.rb:96-106 | every request is counted exactly once across the three lists |
| SymlinkBuild.SkippedAreRegular | lib/submoduler_child/symlink_build_command.rb:99-101 | the skipped list gains exactly the requests that hit an entry that is not a link, in order |
| SymlinkBuild.NoCreateWhenPresent | lib/submoduler_child/symlink_build_command.rb:102-104 | when every requested name already has an entry, nothing is created and no name is added |
| SymlinkBuild.LastTextFound | lib/submoduler_child/symlink_build_command.rb:106 | every requested name has a last request |
| SymlinkBuild.LastTextAppend | lib/submoduler_child/symlink_build_command.rb:106 | the last request of a concatenation is taken from the later part when it holds one |
| SymlinkBuild.SecondRunIsIdempotent | lib/submoduler_child/symlink_build_command.rb:43-108 | a second run over its own result creates nothing, leaves the directory unchanged, skips the same files, and updates what the first run created or updated |
| SymlinkBuild.FirstPassCovers | lib/submoduler_child/symlink_build_command.rb:96-106 | after one pass every requested name has an entry, and it is a non-link exactly when it was one before |
| SymlinkBuild.SecondPassSteering | lib/submoduler_child/symlink_build_command.rb:96-106 | replaying the requests creates nothing and leaves the entries as they were |
| SymlinkBuild.SecondPassSkipped | lib/submoduler_child/symlink_build_command.rb:99-101 | both passes skip the same files |
| SymlinkBuild.SecondPassCounts | lib/submoduler_child/symlink_build_command.rb:96-104 | what the first pass created or updated, the second pass updates |
| SymlinkBuild.ExpectedStable | lib/submoduler_child/symlink_build_command.rb:96-106 | replaying the requests over their own outcome keeps each entry |
| SymlinkBuild.ReconcileKeepsRegular | lib/submoduler_child/symlink_build_command.rb:99-101 | an entry that is not a link survives a whole run |
| SymlinkBuild.ReconcileCounts | lib/submoduler_child/symlink_build_command.rb:43-108 | the three lists together hold one name per markdown file of the sources that exist |
| SymlinkBuild.LaterSourceReplaces | lib/submoduler_child/symlink_build_command.rb:58-65 | a name some earlier source already linked is counted as updated, and the last source that names it decides the link |
| SymlinkBuild.RegularSourceText | lib/submoduler_child/symlink_build_command.rb:68-75 | a plain source file is linked as "../../" + its directory + "/" + its name |
| SymlinkBuild.SymlinkedSourceText | lib/submoduler_child/symlink_build_command.rb:88-91 | a source file that is itself a link is linked through its own text, resolved from the source's `.kiro` directory |
| SymlinkBuild.RelativeChild | lib/submoduler_child/symlink_build_command.rb:74 | the relative path of a `steering` child is the relative path of its directory with "/steering" appended |
| SymlinkBuild.JoinChild | lib/submoduler_child/symlink_build_command.rb:49-51 | joining the parent with "sub/child" is joining it with "sub" and then appending "/child" |
| SymlinkBuild.ReconcileBySource | lib/submoduler_child/symlink_build_command.rb:49-65 | a run applies the vendor parent, the vendor child and the parent steering directories one after the other |
| Update.ParseOptions | lib/submoduler_child/update_command.rb:48-72 | `-h` ends the process with 0 and a missing message ends it with 1; otherwise the message is the one given, and release holds only when `--release` was given |
| Update.MatchOwnerRepoPlain | lib/submoduler_child/update_command.rb:148-149 | after the host, "owner/repo.git" yields "owner/repo" |
| Update.DetectsSshRemote | lib/submoduler_child/update_command.rb:145-153 | the URL `git@github.com:owner/repo.git` yields "owner/repo" |
| Update.DetectsHttpsRemote | lib/submoduler_child/update_command.rb:145-153 | the URL `https://github.com/owner/repo.git` yields "owner/repo" |
| Update.NoHostNoRepository | lib/submoduler_child/update_command.rb:148-152 | a URL without "github.com" followed by ':' or '/' is rejected |
| Update.SearchSkips | lib/submoduler_child/update_command.rb:148 | the regex search passes over positions where the host does not occur |
| Update.LastGit | lib/submoduler_child/update_command.rb:148 | the greedy second group ends at the last ".git" |
| Update.LastSlashFrom1 | lib/submoduler_child/update_command.rb:148 | the greedy first group ends at the last '/' that leaves the first group non-empty |
| Update.TestFailureAborts | lib/submoduler_child/update_command.rb:18-21 | failing tests end the workflow with 1 before anything is staged, committed, bumped, pushed or released |
| Update.CompleteRunTrace | lib/submoduler_child/update_command.rb:15-40 | a run that passes its tests and raises nothing performs: tests, first commit, bump, second commit, both pushes, then the release if requested |
| Update.CommitsOfCompleteRun | lib/submoduler_child/update_command.rb:23-34 | the commits are the caller's message if the tree was dirty after the tests, then "Bump version to " + the version if it was dirty after the bump |
| Update.OneBumpPerRun | lib/submoduler_child/update_command.rb:28 | a complete run bumps the patch version exactly once |
| Update.StepsInFixedOrder | lib/submoduler_child/update_command.rb:15-44 | every run, aborted or not, takes its steps in the fixed order: tests, first commit, bump, second commit, branch push, tag push, release |
| Update.CommitsAreStaged | lib/submoduler_child/update_command.rb:23-34 | every commit directly follows `git add .`, in every run |
| Update.ReleaseOnlyWhenRequested | lib/submoduler_child/update_command.rb:37 | without `--release` no release is attempted |
| Update.ExitCodeCases | lib/submoduler_child/update_command.rb:15-44 | the code is 1 exactly when the tests fail, an external call raises, or a release with a token meets a remote that names no repository; it is 0 otherwise |
| Update.RejectedReleaseStillSucceeds | lib/submoduler_child/update_command.rb:133-139 | a release the API rejects is reported, and the run still exits with 0 |
| Update.IgnoredResults | lib/submoduler_child/update_command.rb:90-118 | the results of committing, bumping and pushing never change the outcome |
| Update.MissingMessageExits | lib/submoduler_child/update_command.rb:66-71 | without `--message` the process ends with 1 before any step |
| Update.PlanShape | lib/submoduler_child/update_command.rb:18-37 | the plan's prefixes are the tests, the first commit, the bump, the second commit and the pushes, followed by the release steps |
| Update.AbortedRun | lib/submoduler_child/update_command.rb:41-43 | a step whose call raises ends the run right there, with 1 |
| Update.Perform | lib/submoduler_child/update_command.rb:74-119 | one external step is recorded; when its call raises, the run is aborted at that step |
| Update.PerformTwo | lib/submoduler_child/update_command.rb:115-119 | two calls in a row; the second is skipped when the first raises |
| Update.CommitIfDirty | lib/submoduler_child/update_command.rb:23-26 | on a dirty tree, stage and commit with the message; on a clean tree, nothing |
| Update.CreateGithubRelease | lib/submoduler_child/update_command.rb:121-143 | no token skips the release; an unrecognised remote raises; no tag skips; otherwise the release is created, and a rejection is reported without failing |
| Update.CommitBumpAndPush | lib/submoduler_child/update_command.rb:23-36 | once the tests pass: the first commit, the bump, the second commit and both pushes, or an abort at the step that raised |
| Update.ReleaseIfRequested | lib/submoduler_child/update_command.rb:37-40 | after the pushes: the optional release and the exit code of the reference run |
| Update.Execute | lib/submoduler_child/update_command.rb:15-44 | the trace, the exit code and the release report are those of the reference run Workflow |
| Common.Strip | lib/submoduler_child/status_command.rb:61 | String#strip leaves a string with no whitespace at either end; StripLeft and StripRight show that only whitespace is cut |
| Common.Lines | lib/submoduler_child/status_command.rb:70 | each_line splits the text into non-empty pieces that concatenate back to it |
| Common.LinesTerminated | lib/submoduler_child/status_command.rb:70 | a piece holds a line feed only as its last character, and every piece but the last ends with one |
| Common.LinesCons | lib/submoduler_child/status_command.rb:70 | a line ending in a line feed is the first piece |
| Common.SplitPair | lib/submoduler_child/status_command.rb:115 | two non-empty pieces without the separator, joined by it, split back into the two pieces |
| Common.ToINatToString | lib/submoduler_child/status_command.rb:115 | to_i reads a printed count back as the same count |
| Common.Join | lib/submoduler_child/symlink_build_command.rb:74 | File.join puts exactly one '/' between the two parts |
| Common.DirnameOfChild | lib/submoduler_child/symlink_build_command.rb:91 | File.dirname of "dir/name" is "dir" |

## Left out

- Console output is not modelled: `puts`, the logger, Rainbow colours, the "Next steps" lines of `init`, `report_results` of `symlink_build`, and `display_help`. The model keeps only the error texts and whether help was shown.
- `show_child_header` of `status` is modelled only as a call that may raise (`Status.Header`). Its output and the ConfigError it rescues itself are not modelled.
- `-h`/`--help` is modelled only in `Update.ParseOptions`, where help ends the process with 0. `init`'s `-h` is left out, and so is `status`'s `parse_options`, which handles nothing but `-h`. OptionParser's error on an unknown option is left out everywhere.
- Cli: a StandardError other than ConfigError raised by `SubmodulerIni` inside `display_help` is not modelled. `RunResult` keeps at most one error line, and this raise would log "Error: " and its message after any unknown-command line. Both paths through `display_help` exit with 1 anyway.
- Cli: a subcommand's own exit (SystemExit from its option parsing) is not modelled. The subcommand's exit code and what it raises are parameters.
- `SubmodulerCommon::SubmodulerIni`, `GitHelper`, `TestCommand` and `VersionCommand` are not part of this model. Their answers are oracles:
  - the `Cli.Ini` record;
  - `Status.GitOutput`;
  - the fields of `Update.Env`;
  - `SymlinkBuild.Config`.
- File-system primitives are inputs: `Dir.glob` listings in glob order, `Dir.exist?`, `File.symlink?`, `File.readlink`, and whether a link resolves. Link resolution is a given set of link texts, not computed from paths. `ensure_directory_exists` (mkdir_p) is assumed to succeed.
- Init and SymlinkBuild: raises the directory map does not decide are not modelled. These are a failing `File.write`, `File.symlink`, `File.delete` or `FileUtils.mkdir_p`, and a raise from `SubmodulerIni` in `init` or in `find_parent_path`.
- Aliasing is not modelled: a source file that is itself the target is not considered. Concurrent changes to the directories by other processes are not modelled either.
- Common.Join: File.join is modelled for the paths the commands build. It removes one separator at each side of the seam, not runs of separators. Common.Dirname is modelled only for paths without trailing or doubled '/'.
- Update: the pattern in `detect_repository` is matched with '.' also matching a line feed. A remote URL is normally a single line, so this rarely matters.
- Update: shell quoting of the commit message, the Octokit client, and the GITHUB_TOKEN look-up are left out. They are modelled only as `Env.token`, `Env.releaseAccepted` and the exception position `Env.raisesAt`.
- Status: an untracked line too short for `line[3..-1]` makes Ruby produce nil, which prints as empty. The model records the empty name.
- Common.ToI: underscores between digits, which String#to_i accepts, are not modelled. The counts git prints never contain them.
- Init: the configuration template's blank lines carry no indentation, matching what the squiggly heredoc produces. `Dir.pwd`'s basename is the parameter `cwdName`.

Two behaviours of `update` that the model follows:

- A failed `git commit` does not abort the workflow, because the return value of `system` is never read.
- The bump is committed only when `git status --porcelain` reports changes after the bump.
