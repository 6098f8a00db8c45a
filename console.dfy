/**
 * The parts of the console library that the listener touches, reduced to what
 * the listener needs: a command with a name and a list of declared options,
 * how a value-optional option is read back from the command line, an output
 * that records lines with their verbosity, and the event that carries a child
 * process's environment.
 */
module Console {
  import opened PhpValues

  /** Value modes an option can be declared with. */
  datatype OptionMode = ValueNone | ValueRequired | ValueOptional | ValueIsArray

  /** A declared command-line option: name, shortcut, mode, help text, default. */
  datatype InputOption = InputOption(
    name: string,
    shortcut: Nullable,
    mode: OptionMode,
    description: string,
    default: Nullable)

  /** How an option appears on the command line. */
  datatype CommandLineUse =
    | Omitted            // the option is not on the command line
    | Bare               // `--name` with no value
    | Given(arg: string) // `--name=arg` or `--name arg`

  /**
   * The value the console input reports for a value-optional option: its
   * declared default when omitted, null when given without a value, the
   * argument otherwise.
   */
  function OptionValue(option: InputOption, use: CommandLineUse): Nullable {
    match use
    case Omitted => option.default
    case Bare => Null
    case Given(arg) => Str(arg)
  }

  /** Verbosity levels of an output line. */
  datatype Verbosity = Quiet | Normal | Verbose | VeryVerbose | Debug

  datatype OutputLine = OutputLine(text: string, verbosity: Verbosity)

  /** A console command being configured: its name and its declared options. */
  class Command {
    const name: string
    var options: seq<InputOption>

    constructor (name: string)
      ensures this.name == name && options == []
    {
      this.name := name;
      options := [];
    }

    method AddOption(option: InputOption)
      modifies this
      ensures options == old(options) + [option]
    {
      options := options + [option];
    }
  }

  /** The command's output: every line written so far, in order. */
  class Output {
    var lines: seq<OutputLine>

    constructor ()
      ensures lines == []
    {
      lines := [];
    }

    method WriteLine(text: string, verbosity: Verbosity)
      modifies this
      ensures lines == old(lines) + [OutputLine(text, verbosity)]
    {
      lines := lines + [OutputLine(text, verbosity)];
    }
  }

  /** The event fired before one child process is started. */
  class ProcessEvent {
    var environmentVars: map<string, string>

    constructor (environmentVars: map<string, string>)
      ensures this.environmentVars == environmentVars
    {
      this.environmentVars := environmentVars;
    }
  }

  /** The lifecycle events of the `run` command, and any other event by name. */
  datatype CommandEvent = Configure | RunTestsInit | RunTestsProcess | Other(name: string)
}
