/**
 * Start-up configuration: the settings read from the config file are
 * "stashed", then merged with the command line.  Reading the file, toml
 * parsing and clap are outside the model; the file arrives as the outcome
 * of opening and reading it, and the toml decoder as a function.
 */
module Settings {
  import opened Wrappers

  const DEFAULT_CONFIG_PATH: string := "/etc/greetd/cliffcrown.toml"
  const DEFAULT_COMMAND: seq<string> := ["bash"]

  /** The settings a config file may hold; each may be missing. */
  datatype StashedConfig = StashedConfig(
    restrictedUser: Option<string>,
    command: Option<seq<string>>,
    bgImage: Option<string>)

  /** The settings the greeter runs with. */
  datatype Config = Config(
    restrictedUser: Option<string>,
    command: seq<string>,
    bgImage: Option<string>)

  /** The command line (`-u`, `-b`, `-C` and the trailing command); each may be missing. */
  datatype CliArgs = CliArgs(
    restrictedUser: Option<string>,
    bgImage: Option<string>,
    configPath: Option<string>,
    command: Option<seq<string>>)

  /** What opening and reading a config file gave. */
  datatype ConfigFile = CannotOpen | CannotRead | Contents(text: string)

  /** `StashedConfig::default()`: every setting missing. */
  function DefaultStashed(): StashedConfig {
    StashedConfig(None, None, None)
  }

  /**
   * The stashed config: what `parse` makes of the file's contents, or the
   * all-missing default when the file cannot be opened, read or parsed.
   */
  function Stash(file: ConfigFile, parse: string -> Option<StashedConfig>): (c: StashedConfig)
    ensures file.Contents? && parse(file.text).Some? ==> c == parse(file.text).value
    ensures file.CannotOpen? || file.CannotRead? ==> c == DefaultStashed()
    ensures file.Contents? && parse(file.text).None? ==> c == DefaultStashed()
  {
    match file
    case Contents(text) => parse(text).UnwrapOr(DefaultStashed())
    case _ => DefaultStashed()
  }

  /**
   * The merged config: each setting comes from the command line when given
   * there, else from the file; the command falls back to `["bash"]`.
   */
  function Merge(args: CliArgs, stashed: StashedConfig): (c: Config)
    ensures args.restrictedUser.Some? ==> c.restrictedUser == args.restrictedUser
    ensures args.restrictedUser.None? ==> c.restrictedUser == stashed.restrictedUser
    ensures args.bgImage.Some? ==> c.bgImage == args.bgImage
    ensures args.bgImage.None? ==> c.bgImage == stashed.bgImage
    ensures args.command.Some? ==> c.command == args.command.value
    ensures args.command.None? && stashed.command.Some? ==> c.command == stashed.command.value
    ensures args.command.None? && stashed.command.None? ==> c.command == DEFAULT_COMMAND
  {
    Config(
      args.restrictedUser.Or(stashed.restrictedUser),
      args.command.Or(stashed.command).UnwrapOr(DEFAULT_COMMAND),
      args.bgImage.Or(stashed.bgImage))
  }

  /**
   * The config the greeter runs with, read from the file at the `-C` path,
   * or at the default path without one; `open` stands for the file system.
   * A setting given on the command line wins.  Without a usable file the
   * command line alone decides; otherwise each setting missing there comes
   * from the parsed file, and the command falls back to `["bash"]`.
   */
  function Load(args: CliArgs, open: string -> ConfigFile, parse: string -> Option<StashedConfig>): (c: Config)
    ensures args.restrictedUser.Some? ==> c.restrictedUser == args.restrictedUser
    ensures args.bgImage.Some? ==> c.bgImage == args.bgImage
    ensures args.command.Some? ==> c.command == args.command.value
    ensures var file := open(args.configPath.UnwrapOr(DEFAULT_CONFIG_PATH));
      file.CannotOpen? || file.CannotRead? || (file.Contents? && parse(file.text).None?) ==>
        c == Config(args.restrictedUser, args.command.UnwrapOr(DEFAULT_COMMAND), args.bgImage)
    ensures var file := open(args.configPath.UnwrapOr(DEFAULT_CONFIG_PATH));
      file.Contents? && parse(file.text).Some? ==>
        var stashed := parse(file.text).value;
        && (args.restrictedUser.None? ==> c.restrictedUser == stashed.restrictedUser)
        && (args.bgImage.None? ==> c.bgImage == stashed.bgImage)
        && (args.command.None? ==> c.command == stashed.command.UnwrapOr(DEFAULT_COMMAND))
  {
    Merge(args, Stash(open(args.configPath.UnwrapOr(DEFAULT_CONFIG_PATH)), parse))
  }

  /**
   * Without a usable file the command line alone decides, and an empty
   * command line yields no fixed user, no background and `bash`.
   */
  lemma MergeWithoutFile(args: CliArgs, file: ConfigFile, parse: string -> Option<StashedConfig>)
    requires file.CannotOpen? || file.CannotRead? || (file.Contents? && parse(file.text).None?)
    ensures Merge(args, Stash(file, parse))
         == Config(args.restrictedUser, args.command.UnwrapOr(DEFAULT_COMMAND), args.bgImage)
    ensures args.restrictedUser.None? && args.bgImage.None? && args.command.None? ==>
              Merge(args, Stash(file, parse)) == Config(None, ["bash"], None)
  {
  }
}
