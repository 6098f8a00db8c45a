/**
 * The logging of a running test: the line format shared by every log call,
 * the three entry points that echo lines, and the appended-log buffer whose
 * content follows the test's captured output.
 *
 * The clock (`date('Y-m-d H:i:s')`) is a timestamp parameter, the printf
 * engine (`vsprintf`) is a function parameter, the process-wide debug flag
 * is a boolean parameter and `echo` appends to an OutputStream.
 */
module TestLog {
  import opened PhpValues

  /** A PHP value passed to a log call: a scalar, or an array of values. */
  datatype Arg = Scalar(text: string) | Array(items: seq<Arg>)

  /** The printf engine: format string and positional arguments to text. */
  type Formatter = (string, seq<Arg>) -> string

  /** The arguments actually formatted: an array in first position replaces them all. */
  function UnwrapArguments(args: seq<Arg>): seq<Arg> {
    if |args| > 0 && args[0].Array? then args[0].items else args
  }

  /**
   * One log line: "[" timestamp "]", then " [" severity "]" when the
   * severity is truthy, then " ", the formatted message and a newline.
   */
  function FormatOutput(format: string, args: seq<Arg>, severity: string, timestamp: string, vsprintf: Formatter)
    : (line: string)
    ensures var message := vsprintf(format, UnwrapArguments(args));
      var tag := if Truthy(severity) then |severity| + 3 else 0;
      && |line| == |timestamp| + tag + |message| + 4
      && line[..|timestamp| + 2] == "[" + timestamp + "]"
      && (Truthy(severity) ==> line[|timestamp| + 2..|timestamp| + 2 + tag] == " [" + severity + "]")
      && line[|timestamp| + 2 + tag..] == " " + message + "\n"
    ensures line[0] == '[' && line[|line| - 1] == '\n'
  {
    "[" + timestamp + "]"
    + (if Truthy(severity) then " [" + severity + "]" else "")
    + " " + vsprintf(format, UnwrapArguments(args)) + "\n"
  }

  /** An array passed as the only argument formats like its elements passed one by one. */
  lemma ArrayArgumentActsAsVarargs(format: string, items: seq<Arg>, severity: string, timestamp: string, vsprintf: Formatter)
    requires items == [] || !items[0].Array?
    ensures FormatOutput(format, [Array(items)], severity, timestamp, vsprintf)
         == FormatOutput(format, items, severity, timestamp, vsprintf)
  {
  }

  /** After an array in first position, further arguments are ignored. */
  lemma TrailingArgumentsIgnored(format: string, items: seq<Arg>, rest: seq<Arg>, severity: string, timestamp: string,
                                 vsprintf: Formatter)
    ensures FormatOutput(format, [Array(items)] + rest, severity, timestamp, vsprintf)
         == FormatOutput(format, [Array(items)], severity, timestamp, vsprintf)
  {
  }

  /** Arguments not led by an array are formatted as given. */
  lemma PlainArgumentsKept(args: seq<Arg>)
    requires args == [] || !args[0].Array?
    ensures UnwrapArguments(args) == args
  {
  }

  /** The pieces appended to a buffer, joined in order. */
  function Concatenation(pieces: seq<string>): string {
    if pieces == [] then "" else pieces[0] + Concatenation(pieces[1..])
  }

  /** Appending one more piece extends the joined text by exactly that piece. */
  lemma {:induction false} ConcatenationAppend(pieces: seq<string>, piece: string)
    ensures Concatenation(pieces + [piece]) == Concatenation(pieces) + piece
  {
    if pieces == [] {
      assert pieces + [piece] == [piece];
    } else {
      assert (pieces + [piece])[1..] == pieces[1..] + [piece];
      ConcatenationAppend(pieces[1..], piece);
    }
  }

  /** Piece i sits, unchanged, between the pieces before it and the pieces after it. */
  lemma {:induction false} ConcatenationSplit(pieces: seq<string>, i: nat)
    requires i < |pieces|
    ensures Concatenation(pieces) == Concatenation(pieces[..i]) + pieces[i] + Concatenation(pieces[i + 1..])
  {
    if i > 0 {
      ConcatenationSplit(pieces[1..], i - 1);
      assert pieces[1..][..i - 1] == pieces[1..i];
      assert pieces[1..][i - 1] == pieces[i];
      assert pieces[1..][i..] == pieces[i + 1..];
      assert pieces[..i][1..] == pieces[1..i];
    } else {
      assert pieces[..0] == [];
    }
  }

  /**
   * In the test's output (captured output, then the buffer), piece i starts
   * after the captured output and the pieces before it, and ends no later
   * than the start of piece j for any later j (j == |pieces| is the end).
   */
  lemma ActualOutputLayout(captured: string, pieces: seq<string>, i: nat, j: nat)
    requires i < j <= |pieces|
    ensures var output := captured + Concatenation(pieces);
      var start := |captured| + |Concatenation(pieces[..i])|;
      && start + |pieces[i]| <= |output|
      && output[start..start + |pieces[i]|] == pieces[i]
      && start + |pieces[i]| <= |captured| + |Concatenation(pieces[..j])|
  {
    ConcatenationSplit(pieces, i);
    ConcatenationSplit(pieces[..j], i);
    assert pieces[..j][..i] == pieces[..i];
    assert pieces[..j][i] == pieces[i];
    var output := captured + Concatenation(pieces);
    var start := |captured| + |Concatenation(pieces[..i])|;
    assert output == (captured + Concatenation(pieces[..i])) + pieces[i] + Concatenation(pieces[i + 1..]);
    assert output[start..start + |pieces[i]|] == pieces[i];
  }

  /** Where echoed text goes. */
  class OutputStream {
    var text: string

    constructor ()
      ensures text == ""
    {
      text := "";
    }

    method Echo(s: string)
      modifies this
      ensures text == old(text) + s
    {
      text := text + s;
    }
  }

  /** The logging part of a test case. */
  class AbstractTestCase {
    /** Log appended to the output of this test. */
    var appendedTestLog: string
    /** Every piece appended so far, in call order. */
    ghost var appended: seq<string>

    ghost predicate Valid()
      reads this
    {
      appendedTestLog == Concatenation(appended)
    }

    constructor ()
      ensures Valid() && appended == [] && appendedTestLog == ""
    {
      appendedTestLog := "";
      appended := [];
    }

    /** The captured output, then the appended log, with nothing in between. */
    function GetActualOutput(captured: string): (output: string)
      reads this
      ensures |output| == |captured| + |appendedTestLog|
      ensures output[..|captured|] == captured
      ensures output[|captured|..] == appendedTestLog
      ensures Valid() ==> output == captured + Concatenation(appended)
    {
      captured + appendedTestLog
    }

    /** Appends one untagged formatted line to the buffer. */
    method AppendTestLog(format: string, args: seq<Arg>, timestamp: string, vsprintf: Formatter)
      requires Valid()
      modifies this
      ensures Valid()
      ensures appendedTestLog == old(appendedTestLog) + FormatOutput(format, args, "", timestamp, vsprintf)
      ensures appended == old(appended) + [FormatOutput(format, args, "", timestamp, vsprintf)]
    {
      var output := FormatOutput(format, args, "", timestamp, vsprintf);
      ConcatenationAppend(appended, output);
      appendedTestLog := appendedTestLog + output;
      appended := appended + [output];
    }

    /** Appends an already formatted text to the buffer, verbatim. */
    method AppendFormattedTestLog(formattedLog: string)
      requires Valid()
      modifies this
      ensures Valid()
      ensures appendedTestLog == old(appendedTestLog) + formattedLog
      ensures appended == old(appended) + [formattedLog]
    {
      ConcatenationAppend(appended, formattedLog);
      appendedTestLog := appendedTestLog + formattedLog;
      appended := appended + [formattedLog];
    }

    /** Echoes one untagged line; the buffer is untouched. */
    method Log(format: string, args: seq<Arg>, timestamp: string, vsprintf: Formatter, out: OutputStream)
      modifies out
      ensures out.text == old(out.text) + FormatOutput(format, args, "", timestamp, vsprintf)
      ensures appendedTestLog == old(appendedTestLog)
    {
      out.Echo(FormatOutput(format, args, "", timestamp, vsprintf));
    }

    /** Echoes one line tagged WARN; the buffer is untouched. */
    method Warn(format: string, args: seq<Arg>, timestamp: string, vsprintf: Formatter, out: OutputStream)
      modifies out
      ensures out.text == old(out.text) + FormatOutput(format, args, "WARN", timestamp, vsprintf)
      ensures appendedTestLog == old(appendedTestLog)
    {
      out.Echo(FormatOutput(format, args, "WARN", timestamp, vsprintf));
    }

    /** Echoes one line tagged DEBUG when debug mode is on, nothing otherwise; the buffer is untouched. */
    method Debug(format: string, args: seq<Arg>, timestamp: string, vsprintf: Formatter, debugMode: bool,
                 out: OutputStream)
      modifies out
      ensures out.text == old(out.text) + (if debugMode then FormatOutput(format, args, "DEBUG", timestamp, vsprintf) else "")
      ensures appendedTestLog == old(appendedTestLog)
    {
      if debugMode {
        out.Echo(FormatOutput(format, args, "DEBUG", timestamp, vsprintf));
      }
    }
  }
}
