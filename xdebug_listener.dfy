/**
 * The Xdebug listener: it declares the `xdebug` option on the `run` command,
 * resolves the option into an IDE key when the test run initializes (checking
 * that the Xdebug extension is usable), and passes the key to every child
 * process through the `XDEBUG_CONFIG` environment variable.
 *
 * The runtime queries `extension_loaded('xdebug')` and
 * `ini_get('xdebug.remote_enable')` are parameters of the init handler.
 */
module Xdebug {
  import opened PhpValues
  import opened Console

  const OPTION_XDEBUG := "xdebug"
  const DEFAULT_VALUE := "phpstorm"
  const DOCS_URL := "https://github.com/lmc-eu/steward/wiki/Debugging-Selenium-tests-with-Steward"
  const ENV_XDEBUG_CONFIG := "XDEBUG_CONFIG"

  /** The option declared on the `run` command: value optional, default ''. */
  const XDEBUG_OPTION := InputOption(
    OPTION_XDEBUG,
    Null,
    ValueOptional,
    "Start Xdebug debugger on tests. Pass custom IDE key if needed for your IDE settings.",
    Str(""))

  const HELP_SUFFIX := " for help and more information."
  const EXTENSION_MISSING_PREFIX := "Extension Xdebug is not loaded or installed. See "
  const EXTENSION_MISSING_MESSAGE := EXTENSION_MISSING_PREFIX + DOCS_URL + HELP_SUFFIX
  const REMOTE_DISABLED_PREFIX :=
    "The xdebug.remote_enable directive must be set to true to enable remote debugging. See "
  const REMOTE_DISABLED_MESSAGE := REMOTE_DISABLED_PREFIX + DOCS_URL + HELP_SUFFIX
  const INITIALIZED_PREFIX := "Xdebug remote debugging initialized with IDE key: "

  /** The handlers the listener offers. */
  datatype Handler = OnCommandConfigure | OnCommandRunTestsInit | OnCommandRunTestsProcess

  /** Which handler answers which event. */
  function GetSubscribedEvents(): (subscriptions: map<CommandEvent, Handler>)
    ensures subscriptions.Keys == {Configure, RunTestsInit, RunTestsProcess}
    ensures subscriptions.Values == {OnCommandConfigure, OnCommandRunTestsInit, OnCommandRunTestsProcess}
    ensures forall e, f :: e in subscriptions && f in subscriptions && e != f ==> subscriptions[e] != subscriptions[f]
    ensures subscriptions[Configure] == OnCommandConfigure
    ensures subscriptions[RunTestsInit] == OnCommandRunTestsInit
    ensures subscriptions[RunTestsProcess] == OnCommandRunTestsProcess
  {
    map[Configure := OnCommandConfigure,
        RunTestsInit := OnCommandRunTestsInit,
        RunTestsProcess := OnCommandRunTestsProcess]
  }

  /**
   * The IDE key chosen by the option value: null (option given without a
   * value) selects the default key, '' disables the feature (null key), and
   * any other value is the key itself.
   */
  function IdeKeyFromInputOption(optionValue: Nullable): (ideKey: Nullable)
    ensures optionValue == Null ==> ideKey == Str(DEFAULT_VALUE)
    ensures ideKey == Null <==> optionValue == Str("")
    ensures optionValue.Str? && optionValue.value != "" ==> ideKey == optionValue
    ensures ideKey != Str("")
  {
    if optionValue == Null then Str(DEFAULT_VALUE)
    else if optionValue.value == "" then Null
    else optionValue
  }

  /** What `ini_get` returns: false for an unknown directive, else a string. */
  datatype IniValue = IniFalse | IniString(text: string)

  predicate IniTruthy(v: IniValue) {
    v.IniString? && Truthy(v.text)
  }

  /** What initialization does after the key is stored. */
  datatype InitStep =
    | Disabled                 // no key: return at once
    | Fail(message: string)    // a RuntimeException with this message
    | Ready(line: OutputLine)  // write this line and return

  /**
   * The init decision for a stored key: nothing when the key is null;
   * otherwise the extension check, then the remote_enable check, then one
   * debug-verbosity line naming the key.
   */
  function InitStepFor(ideKey: Nullable, extensionLoaded: bool, remoteEnable: IniValue): (step: InitStep)
    ensures step.Disabled? <==> ideKey == Null
    ensures step.Fail? <==> ideKey != Null && !(extensionLoaded && IniTruthy(remoteEnable))
    ensures ideKey != Null && !extensionLoaded ==> step == Fail(EXTENSION_MISSING_MESSAGE)
    ensures ideKey != Null && extensionLoaded && !IniTruthy(remoteEnable) ==> step == Fail(REMOTE_DISABLED_MESSAGE)
    ensures step.Fail? ==> Contains(step.message, DOCS_URL)
    ensures step.Ready? ==> step.line.verbosity == Debug && Contains(step.line.text, ideKey.value)
  {
    ContainsMiddle(EXTENSION_MISSING_PREFIX, DOCS_URL, HELP_SUFFIX);
    ContainsMiddle(REMOTE_DISABLED_PREFIX, DOCS_URL, HELP_SUFFIX);
    if ideKey == Null then
      Disabled
    else if !extensionLoaded then
      Fail(EXTENSION_MISSING_MESSAGE)
    else if !IniTruthy(remoteEnable) then
      Fail(REMOTE_DISABLED_MESSAGE)
    else
      ContainsMiddle(INITIALIZED_PREFIX, ideKey.value, "");
      assert INITIALIZED_PREFIX + ideKey.value + "" == INITIALIZED_PREFIX + ideKey.value;
      Ready(OutputLine(INITIALIZED_PREFIX + ideKey.value, Debug))
  }

  /**
   * The environment handed to a child process: with a truthy key,
   * XDEBUG_CONFIG is set (or overwritten) to "idekey=" + key and every other
   * entry is kept; with a falsy key (null, '' or '0') nothing changes.
   */
  function ProcessEnvironment(ideKey: Nullable, env: map<string, string>): (newEnv: map<string, string>)
    ensures NullableTruthy(ideKey) ==>
      newEnv.Keys == env.Keys + {ENV_XDEBUG_CONFIG} && newEnv[ENV_XDEBUG_CONFIG] == "idekey=" + ideKey.value
    ensures !NullableTruthy(ideKey) ==> newEnv == env
    ensures forall k :: k in env && k != ENV_XDEBUG_CONFIG ==> k in newEnv && newEnv[k] == env[k]
  {
    if NullableTruthy(ideKey) then env[ENV_XDEBUG_CONFIG := "idekey=" + ideKey.value] else env
  }

  /** How a caller of a handler sees it end. */
  datatype Outcome = Returned | RuntimeException(message: string)

  class XdebugListener {
    /** The key captured at init and used for every child process; null until then. */
    var xdebugIdeKey: Nullable

    constructor ()
      ensures xdebugIdeKey == Null
    {
      xdebugIdeKey := Null;
    }

    /** Adds the `xdebug` option, but only to the command named `run`. */
    method OnCommandConfigure(command: Command)
      modifies command
      ensures command.name == "run" ==> command.options == old(command.options) + [XDEBUG_OPTION]
      ensures command.name != "run" ==> command.options == old(command.options)
    {
      if command.name != "run" {
        return;
      }
      command.AddOption(XDEBUG_OPTION);
    }

    /**
     * Stores the resolved key first, whatever follows; then returns, throws,
     * or writes the one debug line, as InitStepFor decides.
     */
    method OnCommandRunTestsInit(optionValue: Nullable, extensionLoaded: bool, remoteEnable: IniValue, output: Output)
      returns (outcome: Outcome)
      modifies this, output
      ensures xdebugIdeKey == IdeKeyFromInputOption(optionValue)
      ensures var step := InitStepFor(xdebugIdeKey, extensionLoaded, remoteEnable);
        && outcome == (if step.Fail? then RuntimeException(step.message) else Returned)
        && output.lines == old(output.lines) + (if step.Ready? then [step.line] else [])
    {
      xdebugIdeKey := IdeKeyFromInputOption(optionValue);

      if xdebugIdeKey == Null {
        return Returned;
      }

      if !extensionLoaded {
        return RuntimeException(EXTENSION_MISSING_MESSAGE);
      }

      if !IniTruthy(remoteEnable) {
        return RuntimeException(REMOTE_DISABLED_MESSAGE);
      }

      output.WriteLine(INITIALIZED_PREFIX + xdebugIdeKey.value, Debug);
      outcome := Returned;
    }

    /** Passes a truthy stored key to the child process's environment. */
    method OnCommandRunTestsProcess(event: ProcessEvent)
      modifies event
      ensures event.environmentVars == ProcessEnvironment(xdebugIdeKey, old(event.environmentVars))
    {
      if NullableTruthy(xdebugIdeKey) {
        var env := event.environmentVars;
        env := env[ENV_XDEBUG_CONFIG := "idekey=" + xdebugIdeKey.value];
        event.environmentVars := env;
      }
    }
  }

  /** The key the listener ends up with for each way of writing the option. */
  function ResolvedKey(use: CommandLineUse): Nullable {
    IdeKeyFromInputOption(OptionValue(XDEBUG_OPTION, use))
  }

  /**
   * With the option as declared: omitting it disables the feature, a bare
   * `--xdebug` selects the default key, and `--xdebug=k` selects k unless k
   * is empty.
   */
  lemma CommandLineResolution(use: CommandLineUse)
    ensures use == Omitted ==> ResolvedKey(use) == Null
    ensures use == Bare ==> ResolvedKey(use) == Str(DEFAULT_VALUE)
    ensures use.Given? ==> ResolvedKey(use) == (if use.arg == "" then Null else Str(use.arg))
  {
  }

  /**
   * Across phases: when init succeeds, every child process gets
   * XDEBUG_CONFIG = "idekey=" + key, except for the key "0", which init
   * accepts but the process handler treats as false.
   */
  lemma InitThenProcess(use: CommandLineUse, extensionLoaded: bool, remoteEnable: IniValue, env: map<string, string>)
    requires InitStepFor(ResolvedKey(use), extensionLoaded, remoteEnable).Ready?
    ensures ResolvedKey(use).Str?
    ensures var key := ResolvedKey(use).value;
      var newEnv := ProcessEnvironment(ResolvedKey(use), env);
      && (key != "0" ==> ENV_XDEBUG_CONFIG in newEnv && newEnv[ENV_XDEBUG_CONFIG] == "idekey=" + key)
      && (key == "0" ==> newEnv == env)
  {
  }

  /** When the option is omitted, no child process environment is touched. */
  lemma OmittedOptionLeavesEnvironment(extensionLoaded: bool, remoteEnable: IniValue, env: map<string, string>)
    ensures InitStepFor(ResolvedKey(Omitted), extensionLoaded, remoteEnable) == Disabled
    ensures ProcessEnvironment(ResolvedKey(Omitted), env) == env
  {
  }
}
