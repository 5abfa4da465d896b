/** The command-line front end: look the first argument up in the command
    table, verify that the current directory is a child submodule (except
    for `init`), and dispatch the remaining arguments to the subcommand.

    The configuration file and the subcommands are oracles: `Ini` says
    whether `.submoduler.ini` exists and what, if anything, opening, loading
    and validating it raise; the subcommand's exit code and the message of what
    it raises, if it raises, are parameters. */
module Cli {
  import opened Common

  datatype Command = Init | Status | Test | Version | Build | SymlinkBuild | Update

  /** The keys of COMMANDS, in table order. */
  const CommandNames: seq<string> := ["init", "status", "test", "version", "build", "symlink_build", "update"]

  function Name(c: Command): string
  {
    match c
    case Init => "init"
    case Status => "status"
    case Test => "test"
    case Version => "version"
    case Build => "build"
    case SymlinkBuild => "symlink_build"
    case Update => "update"
  }

  /** COMMANDS.key? together with the `case` of execute_command. */
  function Lookup(s: string): Option<Command>
  {
    if s == "init" then Some(Init)
    else if s == "status" then Some(Status)
    else if s == "test" then Some(Test)
    else if s == "version" then Some(Version)
    else if s == "build" then Some(Build)
    else if s == "symlink_build" then Some(SymlinkBuild)
    else if s == "update" then Some(Update)
    else None
  }

  /** Every key of the table has its own branch, and every branch is a key:
      the `else` of execute_command cannot be reached. */
  lemma LookupMatchesTable(s: string)
    ensures Lookup(s).Some? <==> s in CommandNames
    ensures Lookup(s).Some? ==> Name(Lookup(s).value) == s
  {
  }

  /** Names and branches are in one-to-one correspondence. */
  lemma NameRoundTrip(c: Command)
    ensures Lookup(Name(c)) == Some(c)
    ensures Name(c) in CommandNames
  {
  }

  /** An exception raised by SubmodulerIni: its ConfigError, or any other
      StandardError (a failed read, say). */
  datatype IniRaise = ConfigError(message: string) | OtherError(message: string)

  /** What the configuration file does when verify_child_context looks at it:
      what `SubmodulerIni.new` or `exist?` raise, whether the file exists,
      and what `load_config` and `validate_child!` raise. */
  datatype Ini = Ini(openError: Option<IniRaise>, present: bool, loadError: Option<IniRaise>, validationError: Option<IniRaise>)

  /** The message that leaves verify_child_context's rescue: a ConfigError is
      re-raised with a prefix, any other error passes through unchanged. */
  function Reraised(e: IniRaise): string
  {
    match e
    case ConfigError(m) => "Invalid configuration: " + m
    case OtherError(m) => m
  }

  /** verify_child_context: the message of the error it raises, if any (the
      caller logs it after "Error: "). */
  function VerifyChildContext(c: Command, ini: Ini): Option<string>
  {
    if c == Init then None
    else if ini.openError.Some? then Some(Reraised(ini.openError.value))
    else if !ini.present then Some("Not in a Submoduler directory. Missing .submoduler.ini")
    else if ini.loadError.Some? then Some(Reraised(ini.loadError.value))
    else if ini.validationError.Some? then Some(Reraised(ini.validationError.value))
    else None
  }

  /** execute_command's exit code: build and symlink_build report 0, the
      others their subcommand's code. `build` runs nothing, so nothing can
      raise there. */
  function ExecuteCommand(c: Command, subExit: int): int
  {
    match c
    case Build => 0
    case SymlinkBuild => 0
    case _ => subExit
  }

  /** Whether the dispatched command runs code that may raise. */
  predicate RunsSubcommand(c: Command)
  {
    c != Build
  }

  /** Which subcommand ran and with which arguments. */
  datatype Dispatch = Dispatch(command: Command, args: seq<string>)

  /** The arguments execute_command hands on: the remaining ones to the
      subcommands constructed with `@args`, none to SymlinkBuildCommand.run
      and to the `build` placeholder. */
  function HandedOn(c: Command, rest: seq<string>): seq<string>
  {
    if c == Build || c == SymlinkBuild then [] else rest
  }

  /** The exit code, whether help was displayed, the error line printed or
      logged, and the dispatch made. */
  datatype RunResult = RunResult(code: int, help: bool, error: Option<string>, dispatched: Option<Dispatch>)

  /** The reference outcome of CLI#run on the given arguments. */
  function Outcome(args: seq<string>, ini: Ini, subExit: int, subRaise: Option<string>): RunResult
  {
    if args == [] then RunResult(1, true, None, None)
    else match Lookup(args[0])
      case None => RunResult(1, true, Some("Error: Unknown command '" + args[0] + "'"), None)
      case Some(c) =>
        match VerifyChildContext(c, ini)
        case Some(m) => RunResult(1, false, Some("Error: " + m), None)
        case None =>
          var d := Some(Dispatch(c, HandedOn(c, args[1..])));
          if RunsSubcommand(c) && subRaise.Some? then RunResult(1, false, Some("Error: " + subRaise.value), d)
          else RunResult(ExecuteCommand(c, subExit), false, None, d)
  }

  class CLI {
    var args: seq<string>
    var command: Option<string>

    constructor(args0: seq<string>)
      ensures args == args0 && command == None
    {
      args := args0;
      command := None;
    }

    /** CLI#run: shift the command name off the arguments, check it, verify the
        context, dispatch. */
    method Run(ini: Ini, subExit: int, subRaise: Option<string>) returns (r: RunResult)
      modifies this
      ensures r == Outcome(old(args), ini, subExit, subRaise)
      ensures old(args) == [] ==> args == [] && command == old(command)
      ensures old(args) != [] ==> args == old(args)[1..] && command == Some(old(args)[0])
    {
      if args == [] {
        return RunResult(1, true, None, None);
      }
      command := Some(args[0]);
      args := args[1..];
      var c := Lookup(command.value);
      if c.None? {
        return RunResult(1, true, Some("Error: Unknown command '" + command.value + "'"), None);
      }
      var failure := VerifyChildContext(c.value, ini);
      if failure.Some? {
        return RunResult(1, false, Some("Error: " + failure.value), None);
      }
      var d := Some(Dispatch(c.value, HandedOn(c.value, args)));
      if RunsSubcommand(c.value) && subRaise.Some? {
        return RunResult(1, false, Some("Error: " + subRaise.value), d);
      }
      r := RunResult(ExecuteCommand(c.value, subExit), false, None, d);
    }
  }

  // ---------------------------------------------------------------------
  // Properties of the front end

  /** No arguments: help and 1, nothing verified or dispatched. */
  lemma EmptyArgs(ini: Ini, subExit: int, subRaise: Option<string>)
    ensures Outcome([], ini, subExit, subRaise) == RunResult(1, true, None, None)
  {
  }

  /** An unknown command: an error, help and 1; the configuration is not
      consulted and nothing is dispatched. */
  lemma UnknownCommand(args: seq<string>, ini: Ini, other: Ini, subExit: int, subRaise: Option<string>)
    requires args != [] && args[0] !in CommandNames
    ensures Outcome(args, ini, subExit, subRaise).code == 1
    ensures Outcome(args, ini, subExit, subRaise).help
    ensures Outcome(args, ini, subExit, subRaise).dispatched == None
    ensures Outcome(args, ini, subExit, subRaise) == Outcome(args, other, subExit, subRaise)
  {
    LookupMatchesTable(args[0]);
  }

  /** `init` runs whatever the configuration file says. */
  lemma InitSkipsVerification(rest: seq<string>, ini: Ini, other: Ini, subExit: int, subRaise: Option<string>)
    ensures Outcome(["init"] + rest, ini, subExit, subRaise) == Outcome(["init"] + rest, other, subExit, subRaise)
    ensures Outcome(["init"] + rest, ini, subExit, subRaise).dispatched == Some(Dispatch(Init, rest))
    ensures Outcome(["init"] + rest, ini, subExit, subRaise).code == (if subRaise.Some? then 1 else subExit)
  {
    assert (["init"] + rest)[0] == "init";
    assert (["init"] + rest)[1..] == rest;
  }

  /** Every other command needs the configuration file: without it the run
      ends with 1 and the "Missing .submoduler.ini" error. */
  lemma MissingIniFails(args: seq<string>, ini: Ini, subExit: int, subRaise: Option<string>)
    requires args != [] && args[0] in CommandNames && args[0] != "init"
    requires ini.openError.None? && !ini.present
    ensures Outcome(args, ini, subExit, subRaise)
            == RunResult(1, false, Some("Error: " + "Not in a Submoduler directory. Missing .submoduler.ini"), None)
  {
    LookupMatchesTable(args[0]);
  }

  /** An error from loading or validating ends the run with 1 and nothing
      dispatched: a ConfigError is reported as an invalid configuration with
      its own message, any other error with its message alone. The first of
      the two to raise is the one reported. */
  lemma InvalidConfiguration(args: seq<string>, ini: Ini, subExit: int, subRaise: Option<string>)
    requires args != [] && args[0] in CommandNames && args[0] != "init"
    requires ini.openError.None? && ini.present
    requires ini.loadError.Some? || ini.validationError.Some?
    ensures Outcome(args, ini, subExit, subRaise).code == 1
    ensures Outcome(args, ini, subExit, subRaise).dispatched == None
    ensures var e := if ini.loadError.Some? then ini.loadError.value else ini.validationError.value;
            Outcome(args, ini, subExit, subRaise).error
            == Some("Error: " + (if e.ConfigError? then "Invalid configuration: " + e.message else e.message))
  {
    LookupMatchesTable(args[0]);
  }

  /** An error raised while the configuration file is opened comes before the
      existence check: it ends the run with 1, nothing dispatched, whether the
      file exists or not, and only a ConfigError gets the prefix. */
  lemma IniOpenFails(args: seq<string>, ini: Ini, subExit: int, subRaise: Option<string>)
    requires args != [] && args[0] in CommandNames && args[0] != "init"
    requires ini.openError.Some?
    ensures Outcome(args, ini, subExit, subRaise).code == 1
    ensures Outcome(args, ini, subExit, subRaise).dispatched == None
    ensures var e := ini.openError.value;
            Outcome(args, ini, subExit, subRaise).error
            == Some("Error: " + (if e.ConfigError? then "Invalid configuration: " + e.message else e.message))
    ensures Outcome(args, ini, subExit, subRaise) == Outcome(args, ini.(present := !ini.present), subExit, subRaise)
  {
    LookupMatchesTable(args[0]);
  }

  /** Once dispatched: build and symlink_build end with 0 (unless the
      symlink build raises) and receive no arguments; the others end with
      their subcommand's code and receive the arguments after the command
      name. */
  lemma DispatchedExitCodes(args: seq<string>, ini: Ini, subExit: int, subRaise: Option<string>)
    requires Outcome(args, ini, subExit, subRaise).dispatched.Some?
    ensures var r := Outcome(args, ini, subExit, subRaise);
            var d := r.dispatched.value;
            args != [] && Name(d.command) == args[0]
            && (d.command in {Build, SymlinkBuild} ==> d.args == [])
            && (d.command !in {Build, SymlinkBuild} ==> d.args == args[1..])
            && (d.command == Build ==> r.code == 0)
            && (d.command == SymlinkBuild ==> r.code == (if subRaise.Some? then 1 else 0))
            && (d.command !in {Build, SymlinkBuild} ==> r.code == (if subRaise.Some? then 1 else subExit))
  {
    LookupMatchesTable(args[0]);
  }

  /** A run is dispatched exactly when the name is known and the context
      check passes; otherwise it ends with 1. */
  lemma DispatchedIff(args: seq<string>, ini: Ini, subExit: int, subRaise: Option<string>)
    ensures Outcome(args, ini, subExit, subRaise).dispatched.Some?
            <==> args != [] && args[0] in CommandNames && VerifyChildContext(Lookup(args[0]).value, ini).None?
    ensures Outcome(args, ini, subExit, subRaise).dispatched.None? ==> Outcome(args, ini, subExit, subRaise).code == 1
  {
    if args != [] {
      LookupMatchesTable(args[0]);
    }
  }
}
