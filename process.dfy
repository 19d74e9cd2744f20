/**
 * The process helpers of `BaseCommand` (and of the older standalone copy):
 * the flags passed on to every shell command, the command line handed to
 * the process, the composer invocation, the destination check and the
 * template version.
 */
module Process {
  import opened Wrappers
  import opened PhpStrings
  import opened Environment

  /** The console's `--no-ansi` and `--quiet` options. */
  datatype ConsoleFlags = ConsoleFlags(noAnsi: bool, quiet: bool)

  /** The suffix each command gains: ` --no-ansi` first, then ` --quiet`. */
  function FlagSuffix(flags: ConsoleFlags): string {
    (if flags.noAnsi then " --no-ansi" else "") + (if flags.quiet then " --quiet" else "")
  }

  /** `array_map` appending `suffix` to every command. */
  function AppendToEach(commands: seq<string>, suffix: string): (r: seq<string>)
    ensures |r| == |commands|
    ensures forall i :: 0 <= i < |r| ==> r[i] == commands[i] + suffix
  {
    seq(|commands|, i requires 0 <= i < |commands| => commands[i] + suffix)
  }

  /**
   * `passOptionsToCommand`: with `--no-ansi` every command is extended by
   * ` --no-ansi`, then with `--quiet` by ` --quiet`. The list keeps its
   * length and order, each command keeps its text in front, and without
   * either option nothing changes.
   */
  function PassOptionsToCommand(flags: ConsoleFlags, commands: seq<string>): (r: seq<string>)
    ensures |r| == |commands|
    ensures forall i :: 0 <= i < |r| ==> r[i] == commands[i] + FlagSuffix(flags)
    ensures !flags.noAnsi && !flags.quiet ==> r == commands
  {
    var withAnsi := if flags.noAnsi then AppendToEach(commands, " --no-ansi") else commands;
    var withQuiet := if flags.quiet then AppendToEach(withAnsi, " --quiet") else withAnsi;
    assert forall i :: 0 <= i < |withQuiet| ==> withQuiet[i] == commands[i] + FlagSuffix(flags) by {
      forall i | 0 <= i < |withQuiet| ensures withQuiet[i] == commands[i] + FlagSuffix(flags) {
        if flags.noAnsi && flags.quiet {
          assert withQuiet[i] == commands[i] + " --no-ansi" + " --quiet";
        }
      }
    }
    if !flags.noAnsi && !flags.quiet then
      assert FlagSuffix(flags) == "";
      assert forall i :: 0 <= i < |commands| ==> commands[i] + "" == commands[i];
      withQuiet
    else withQuiet
  }

  /** What `executeProcess` is given: one command, or a list of them. */
  datatype Commands<T> = Single(command: T) | Many(commands: seq<T>)

  /** `is_array($commands) ? $commands : [$commands]`. */
  function AsList<T>(commands: Commands<T>): (r: seq<T>)
    ensures commands.Single? ==> r == [commands.command]
    ensures commands.Many? ==> r == commands.commands
  {
    match commands
    case Single(c) => [c]
    case Many(cs) => cs
  }

  /** The command line `executeProcess` runs: the decorated commands joined with ` && `. */
  function CommandLine(flags: ConsoleFlags, commands: Commands<string>): string {
    Implode(" && ", PassOptionsToCommand(flags, AsList(commands)))
  }

  /**
   * A single command, given as a string or as a one-element list, runs as
   * itself with the flag suffix.
   */
  lemma CommandLineOfOne(flags: ConsoleFlags, command: string)
    ensures CommandLine(flags, Single(command)) == command + FlagSuffix(flags)
    ensures CommandLine(flags, Many([command])) == CommandLine(flags, Single(command))
  {
    var decorated := PassOptionsToCommand(flags, [command]);
    assert decorated == [command + FlagSuffix(flags)];
  }

  /**
   * Several commands run one after another: the command line is the first
   * decorated command, ` && `, and the command line of the rest.
   */
  lemma {:induction false} CommandLineOfMany(flags: ConsoleFlags, first: string, rest: seq<string>)
    requires rest != []
    ensures CommandLine(flags, Many([first] + rest))
            == first + FlagSuffix(flags) + " && " + CommandLine(flags, Many(rest))
  {
    var all := PassOptionsToCommand(flags, [first] + rest);
    assert all[1..] == PassOptionsToCommand(flags, rest);
  }

  /**
   * `findComposer`: plain `composer`, unless `composer.phar` lies in the
   * working directory; then that file run by the current PHP binary.
   */
  function FindComposer(pharInWorkingDirectory: bool, phpBinary: string): (r: string)
    ensures r == "composer" <==> !pharInWorkingDirectory
    ensures pharInWorkingDirectory ==> r == "\"" + phpBinary + "\" composer.phar"
  {
    if pharInWorkingDirectory then
      var r := "\"" + phpBinary + "\" composer.phar";
      assert r[0] != "composer"[0];
      r
    else "composer"
  }

  /** The paths that exist as files or directories, and the working directory. */
  datatype FileSystem = FileSystem(existing: set<string>, cwd: string)

  /** The exception text of the destination check in each copy. */
  function DestinationExistsMessage(edition: Edition): string {
    match edition
    case Current => "Directory already exists"
    case Legacy => "Plugin already exists"
  }

  /**
   * `verifyProjectFolderDoesNotExist` (and the older
   * `verifyPluginDoesntExist`): fails exactly when the destination exists
   * and is not the working directory itself.
   */
  function VerifyDestination(edition: Edition, fs: FileSystem, directory: string): (r: Result<(), string>)
    ensures r.Err? <==> directory in fs.existing && directory != fs.cwd
    ensures r.Err? ==> r.error == DestinationExistsMessage(edition)
  {
    if directory in fs.existing && directory != fs.cwd then Err(DestinationExistsMessage(edition))
    else Ok(())
  }

  /** The two checks the unit tests make, in a file system that holds `vfs://root/foo`. */
  lemma DestinationExamples(fs: FileSystem)
    requires fs.existing == {"vfs://root", "vfs://root/foo"}
    ensures VerifyDestination(Current, fs, "root/foo") == Ok(())
    ensures fs.cwd != "vfs://root/foo" ==> VerifyDestination(Current, fs, "vfs://root/foo") == Err("Directory already exists")
  {
    assert "root/foo" != "vfs://root" && "root/foo" != "vfs://root/foo";
  }

  /** `getVersion` of the older copy: `develop` under `--dev`, `master` otherwise. */
  function GetVersion(dev: bool): (r: string)
    ensures r == "develop" <==> dev
    ensures r == "master" <==> !dev
  {
    if dev then "develop" else "master"
  }
}
