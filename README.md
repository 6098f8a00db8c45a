# Steward lifecycle listener and test log, in Dafny

This project models two small pieces of Steward, a PHP command-line tool that
runs Selenium test suites in parallel child processes:

- **The Xdebug listener** (`src/Console/EventListener/XdebugListener.php`).
  It subscribes to three events of the `run` command.
  - On *configure*, it declares the `xdebug` option. The option takes an
    optional value and has the default `''`.
  - On *run-tests init*, it turns the option value into an IDE key and keeps
    the key in its `xdebugIdeKey` field. Then it checks that the Xdebug
    extension is loaded and that `xdebug.remote_enable` is set. Finally it
    writes one debug-verbosity line.
  - On *run-tests process*, it sets `XDEBUG_CONFIG=idekey=<key>` in each child
    process's environment.
  The listener is the class `Xdebug.XdebugListener`. The init handler is
  proved against the pure functions `IdeKeyFromInputOption` and
  `InitStepFor`, and the process handler against `ProcessEnvironment`. The
  configure handler's contract gives the command's new option list. The
  lemmas about those functions state what the listener promises across the
  phases.
- **The test case's log** (`src/Test/AbstractTestCase.php`).
  - `formatOutput` builds the line `[timestamp] [TYPE] message\n`. The tag is
    present only when the type is truthy.
  - `log`, `warn` and `debug` echo such lines.
  - `appendTestLog` and `appendFormattedTestLog` add to the append-only
    buffer `appendedTestLog`.
  - `getActualOutput` returns the test's captured output followed by that
    buffer.
  The buffer class carries a ghost list of the appended pieces. Its invariant
  says that the buffer is the concatenation of those pieces in call order.

Behaviour of the code worth stating on its own:

- Omitting `--xdebug` yields the declared default `''`, which disables the
  feature. A bare `--xdebug` yields null, which selects the default key
  `phpstorm`. The doc-comment at `XdebugListener.php:112-115` says the same.
- In `formatOutput`, an array in first position replaces all the arguments,
  and any arguments after it are dropped.
- Each failing init check names its own precondition and the documentation
  URL.
- The docblock of `warn` (`AbstractTestCase.php:86`) speaks of a `"WARN: "`
  prefix and colour. The code emits the tag ` [WARN]` through
  `formatOutput` and no colour; the model follows the code.

One consequence of the code is proved rather than corrected. Take the key
`"0"` (`--xdebug=0`). Init accepts it and reports debugging as initialized.
PHP, however, treats `"0"` as false, so the process handler never sets
`XDEBUG_CONFIG` (`InitThenProcess`).

Modules: `PhpValues` (nullable strings, PHP string truthiness, substring
containment), `Console` (the console-library shapes the listener touches),
`Xdebug`, `TestLog`.

## Model

| member | source | states |
|---|---|---|
| `Xdebug.GetSubscribedEvents` | src/Console/EventListener/XdebugListener.php:28-35 | exactly the three events configure, run-tests init and run-tests process are subscribed (no other event is), each to its own handler, and no handler answers two events |
| `Xdebug.IdeKeyFromInputOption` | src/Console/EventListener/XdebugListener.php:120-133 | null gives `phpstorm`; the result is null exactly when the value is `''`; any other value is returned unchanged; the resolved key is never `''` |
| `Xdebug.CommandLineResolution` | src/Console/EventListener/XdebugListener.php:112-133 | with the option as declared (default `''`), omitting it disables the feature, a bare `--xdebug` selects `phpstorm`, and `--xdebug=k` selects `k` unless `k` is empty |
| `Xdebug.XdebugListener.constructor` | src/Console/EventListener/XdebugListener.php:25-26 | the stored key starts as null |
| `Xdebug.XdebugListener.OnCommandConfigure` | src/Console/EventListener/XdebugListener.php:42-55 | a command not named `run` is left as it was; `run` gains exactly one option, `xdebug`, value-optional, default `''`, appended after its existing options |
| `Xdebug.InitStepFor` | src/Console/EventListener/XdebugListener.php:69-95 | a null key means no check and no output; otherwise a missing extension fails first (whatever remote_enable is), then a falsy remote_enable fails; every failure message contains the documentation URL; success is exactly one debug-verbosity line that contains the key |
| `Xdebug.XdebugListener.OnCommandRunTestsInit` | src/Console/EventListener/XdebugListener.php:62-96 | the resolved key is stored on every path, including the failing ones; the outcome is a RuntimeException with the failure message or a normal return; the output gains the one line on success and nothing otherwise |
| `Xdebug.ProcessEnvironment` | src/Console/EventListener/XdebugListener.php:103-110 | a truthy key adds or overwrites `XDEBUG_CONFIG` with `idekey=` + key and keeps every other entry; a falsy key (null, `''`, `"0"`) leaves the environment equal to the old one |
| `Xdebug.XdebugListener.OnCommandRunTestsProcess` | src/Console/EventListener/XdebugListener.php:103-110 | the event's environment becomes `ProcessEnvironment` of the stored key and the old environment; the stored key does not change |
| `Xdebug.InitThenProcess` | src/Console/EventListener/XdebugListener.php:62-110 | when init succeeds, every child process gets `XDEBUG_CONFIG=idekey=<key>`, except for the key `"0"`, which init accepts but which leaves the environment unchanged |
| `Xdebug.OmittedOptionLeavesEnvironment` | src/Console/EventListener/XdebugListener.php:48-71 | without `--xdebug`, init neither checks nor writes, and no child environment changes |
| `TestLog.FormatOutput` | src/Test/AbstractTestCase.php:128-139 | the line is `[` timestamp `]`, then ` [` type `]` exactly when the type is truthy, then a space, the formatted message and a newline, with the length of those parts; it starts with `[` and ends with a newline |
| `TestLog.ArrayArgumentActsAsVarargs` | src/Test/AbstractTestCase.php:130-133 | one array argument formats exactly like its elements passed one by one, provided its own first element is not an array |
| `TestLog.TrailingArgumentsIgnored` | src/Test/AbstractTestCase.php:130-133 | when the first argument is an array, any further arguments have no effect on the line |
| `TestLog.PlainArgumentsKept` | src/Test/AbstractTestCase.php:130-133 | arguments that are empty or not led by an array are formatted as given |
| `TestLog.ConcatenationAppend` | src/Test/AbstractTestCase.php:58-73 | appending one piece to the buffer extends its text by exactly that piece, so earlier content is unchanged |
| `TestLog.ConcatenationSplit` | src/Test/AbstractTestCase.php:58-73 | in the buffer, every appended piece sits unchanged between the pieces appended before it and those appended after it, with no reordering and no deduplication |
| `TestLog.ActualOutputLayout` | src/Test/AbstractTestCase.php:43-49 | in the test's output, every piece i, the newest included, appears unchanged starting after the captured output and after all earlier pieces, and it ends before any later piece starts |
| `TestLog.AbstractTestCase.constructor` | src/Test/AbstractTestCase.php:26-27 | the buffer starts empty, with no pieces appended |
| `TestLog.AbstractTestCase.GetActualOutput` | src/Test/AbstractTestCase.php:43-49 | the captured output comes first, then the appended log, with nothing in between; under the buffer invariant that is the captured output followed by every appended piece in call order |
| `TestLog.AbstractTestCase.AppendTestLog` | src/Test/AbstractTestCase.php:58-62 | the buffer becomes the old buffer followed by the untagged formatted line, and that line is recorded as the newest piece |
| `TestLog.AbstractTestCase.AppendFormattedTestLog` | src/Test/AbstractTestCase.php:70-73 | the buffer becomes the old buffer followed by the given text, verbatim, and that text is recorded as the newest piece |
| `TestLog.AbstractTestCase.Log` | src/Test/AbstractTestCase.php:80-83 | echoes exactly one untagged line; the buffer does not change |
| `TestLog.AbstractTestCase.Warn` | src/Test/AbstractTestCase.php:90-93 | echoes exactly one line tagged `WARN`; the buffer does not change |
| `TestLog.AbstractTestCase.Debug` | src/Test/AbstractTestCase.php:100-105 | echoes one line tagged `DEBUG` when debug mode is on and nothing when it is off; the buffer does not change |

## Left out

- `AbstractTestCase::setUp` is left out. It sets the size of the WebDriver browser window through a foreign browser-automation call. The `BROWSER_WIDTH` and `BROWSER_HEIGHT` constants and the `$wd` field that it uses are left out with it.
- `AbstractTestCase::sleep` is left out. It is float arithmetic followed by a `time_nanosleep` system call.
- The `SyntaxSugarTrait` used by the test case is not part of this model.
- `date('Y-m-d H:i:s')` is the `timestamp` parameter, and `vsprintf` is the uninterpreted `vsprintf` function parameter. Neither the clock nor printf formatting is modelled. Log arguments are modelled as scalars, already rendered as text, or as arrays.
- The debug flag of the `ConfigProvider` singleton is the `debugMode` parameter of `Debug`.
- `echo` is modelled as appending to an `OutputStream`, not as writing to real standard output. The model does not capture that the test framework may later show that text as part of the test's captured output.
- `appendedTestLog` starts as PHP null. The model starts it as `''`, which behaves the same under `.=` and under concatenation.
- `extension_loaded('xdebug')` is the `extensionLoaded` parameter, and `ini_get('xdebug.remote_enable')` is the `remoteEnable` parameter. Both are runtime queries.
- The console and event-dispatcher libraries are reduced to what the listener uses:
  - a command is a name plus a list of options;
  - the input is the value that `getOption('xdebug')` reports;
  - the output is a list of (line, verbosity) pairs;
  - the process event is its environment map.
  The following are not modelled: the exception `addOption` throws for a duplicate option name, the exception `getOption` throws for an undeclared option, and PHP's parsing of the command line beyond the three uses in `Console.OptionValue`.
- The event dispatcher and the event classes are not part of this model. The model covers the subscription map, not the order or the isolation of the calls to listeners.
- The child-process environment is a `map<string, string>`. The key order of the PHP array is not modelled, and neither are non-string values.
- `Xdebug.XdebugListener.OnCommandRunTestsInit` is not given the input object itself. It takes the option value that the object would report.
