/**
 * The file helper of the aMOR debugger (`FileManager`): where a log file
 * lives, which format it has, and how a list of lines is turned into the
 * text written to it.
 *
 * The clock is a parameter (`Clock`, the fields `TimeManager` formats), the
 * platform line separator is `"\n"`, and the file at `filePath` is the pair
 * `fileExists` / `contents`: only what the manager itself writes is tracked.
 */
module FileManagement {
  import opened Wrappers
  import opened Text

  const TXT_FORMAT: string := "txt"
  const LOG_FORMAT: string := "log"
  const JAVA_FORMAT: string := "java"
  const OWL_FORMAT: string := "owl"
  const DEFAULT_COMMAND: string := "default"
  const ENDOFLINE_SYMBOL: string := "\n"

  /** The base directory of the three-argument constructor. */
  function DefaultBasePath(userDir: string): (r: string)
    ensures |r| == |userDir| + 12 && r[..|userDir|] == userDir && r[|userDir|..] == "/files/logs/"
  {
    userDir + "/files/logs/"
  }

  // ---------------------------------------------------------------------
  // Time strings
  // ---------------------------------------------------------------------

  /** A field `SimpleDateFormat` prints for a date: digits, and a `'.'` before the milliseconds. */
  type TimeField = s: string | forall i :: 0 <= i < |s| ==> IsDigit(s[i]) || s[i] == '.'

  /** The formatted fields `TimeManager.refreshTimeStrings` reads from the clock. */
  datatype Clock = Clock(year: TimeField, month: TimeField, day: TimeField, hour: TimeField, minute: TimeField, ms: TimeField)

  /** `TimeManager.dataHourString`: `d-M-y_h-m_`, with the seconds and milliseconds before the last `_` on request. */
  function DataHourString(c: Clock, addMilliSec: bool): (r: string)
    ensures |r| > 0 && r[|r| - 1] == '_'
    ensures |r| > |c.day| && r[..|c.day| + 1] == c.day + "-"
    ensures addMilliSec ==> |r| > |c.ms| && r[|r| - |c.ms| - 1..] == c.ms + "_"
    ensures '\n' !in r
  {
    if addMilliSec then c.day + "-" + c.month + "-" + c.year + "_" + c.hour + "-" + c.minute + "-" + c.ms + "_"
    else c.day + "-" + c.month + "-" + c.year + "_" + c.hour + "-" + c.minute + "_"
  }

  // ---------------------------------------------------------------------
  // The format of a path
  // ---------------------------------------------------------------------

  /**
   * The last token of `s` when split by a `StringTokenizer` on `'.'`: the
   * last non-empty run of characters other than `'.'`, or nothing when
   * there is none.
   */
  function LastToken(s: string): (r: Option<string>)
    ensures r.None? <==> forall i :: 0 <= i < |s| ==> s[i] == '.'
    ensures r.Some? ==> |r.value| > 0 && '.' !in r.value
    decreases |s|
  {
    if |s| == 0 then None
    else if s[|s| - 1] == '.' then
      var r := LastToken(s[..|s| - 1]);
      assert forall i :: 0 <= i < |s| - 1 ==> s[..|s| - 1][i] == s[i];
      r
    else
      var k := LastIndexOf(s, '.');
      assert s[|s| - 1] in s[k + 1..];
      Some(s[k + 1..])
  }

  /**
   * The token found is a run of `s` that starts at the beginning or right
   * after a `'.'`, and only `'.'` follow it.
   */
  lemma {:induction false} LastTokenPlace(s: string) returns (k: nat)
    requires LastToken(s).Some?
    ensures var t := LastToken(s).value;
            k + |t| <= |s| && s[k..k + |t|] == t && (k == 0 || s[k - 1] == '.') &&
            forall j :: k + |t| <= j < |s| ==> s[j] == '.'
    decreases |s|
  {
    var t := LastToken(s).value;
    if s[|s| - 1] == '.' {
      var p := s[..|s| - 1];
      assert LastToken(s) == LastToken(p);
      k := LastTokenPlace(p);
      assert s[k..k + |t|] == p[k..k + |t|];
      forall j | k + |t| <= j < |s| ensures s[j] == '.' {
        if j < |p| { assert p[j] == s[j]; }
      }
    } else {
      k := LastIndexOf(s, '.') + 1;
      assert t == s[k..];
    }
  }

  /** A path built as `prefix.format` reports `format` back, whatever the prefix. */
  lemma FormatOfBuiltPath(prefix: string, format: string)
    requires |format| > 0 && '.' !in format
    ensures LastToken(prefix + "." + format) == Some(format)
  {
    var s := prefix + "." + format;
    assert s[|s| - 1] == format[|format| - 1];
    assert s[|prefix|] == '.';
    assert forall j :: |prefix| < j < |s| ==> s[j] == format[j - |prefix| - 1];
    assert LastIndexOf(s, '.') == |prefix|;
    assert s[|prefix| + 1..] == format;
  }

  /**
   * `getFormatFromAbsolutePath`: the last `'.'`-separated token of the path.
   * With no token the result stays null and the `equals` test on it throws
   * a `NullPointerException`, modelled as `None`.
   */
  method GetFormatFromAbsolutePath(absolutePath: string) returns (format: Option<string>)
    ensures format == LastToken(absolutePath)
  {
    format := None;
    var start := 0;
    var i := 0;
    while i < |absolutePath|
      invariant 0 <= i <= |absolutePath| && 0 <= start <= i
      invariant format == LastToken(absolutePath[..i])
      invariant i > 0 && absolutePath[i - 1] != '.' ==> start == LastIndexOf(absolutePath[..i], '.') + 1
    {
      if absolutePath[i] != '.' {
        if i == 0 || absolutePath[i - 1] == '.' {
          start := i;
        }
        TokenStep(absolutePath, i, start);
        format := Some(absolutePath[start..i + 1]);
      } else {
        DotStep(absolutePath, i);
      }
      i := i + 1;
    }
    assert absolutePath[..i] == absolutePath;
  }

  /** A `'.'` read by the tokenizer leaves the last token as it was. */
  lemma DotStep(s: string, i: nat)
    requires i < |s| && s[i] == '.'
    ensures LastToken(s[..i + 1]) == LastToken(s[..i])
  {
    assert s[..i + 1][..i] == s[..i];
  }

  /** Another character of a token: the token now runs from its start to it. */
  lemma TokenStep(s: string, i: nat, start: nat)
    requires i < |s| && s[i] != '.' && start <= i
    requires start == if i == 0 || s[i - 1] == '.' then i else LastIndexOf(s[..i], '.') + 1
    ensures start == LastIndexOf(s[..i + 1], '.') + 1
    ensures LastToken(s[..i + 1]) == Some(s[start..i + 1])
  {
    LastDot(s, i);
    if i > 0 && s[i - 1] == '.' {
      LastDot(s, i - 1);
    }
    assert s[..i + 1][start..] == s[start..i + 1];
  }

  /** The last `'.'` of a prefix one character longer. */
  lemma LastDot(s: string, i: nat)
    requires i < |s|
    ensures LastIndexOf(s[..i + 1], '.') == if s[i] == '.' then i else LastIndexOf(s[..i], '.')
  {
    assert s[..i + 1][..i] == s[..i];
  }

  // ---------------------------------------------------------------------
  // Text formats
  // ---------------------------------------------------------------------

  /** Java `s.trim().isEmpty()`: every character is at most a blank. */
  predicate IsBlank(s: string) {
    forall i :: 0 <= i < |s| ==> s[i] <= ' '
  }

  /** Each string followed by the line separator, in order. */
  function TxtFormat(strs: seq<string>): string
    decreases |strs|
  {
    if |strs| == 0 then "" else TxtFormat(strs[..|strs| - 1]) + strs[|strs| - 1] + ENDOFLINE_SYMBOL
  }

  lemma {:induction false} TxtFormatAppend(a: seq<string>, b: seq<string>)
    ensures TxtFormat(a + b) == TxtFormat(a) + TxtFormat(b)
    decreases |b|
  {
    if |b| == 0 {
      assert a + b == a;
    } else {
      assert (a + b)[..|a + b| - 1] == a + b[..|b| - 1];
      TxtFormatAppend(a, b[..|b| - 1]);
      assert TxtFormat(a + b) == TxtFormat(a + b[..|b| - 1]) + b[|b| - 1] + ENDOFLINE_SYMBOL;
    }
  }

  /** The text of `x :: rest` is `x`, a line separator and the text of `rest`. */
  lemma TxtFormatCons(x: string, rest: seq<string>)
    ensures TxtFormat([x] + rest) == x + ENDOFLINE_SYMBOL + TxtFormat(rest)
  {
    TxtFormatAppend([x], rest);
    assert [x][..0] == [];
  }

  /** The text is blank exactly when every string is. */
  lemma {:induction false} TxtFormatBlank(strs: seq<string>)
    ensures IsBlank(TxtFormat(strs)) <==> forall i :: 0 <= i < |strs| ==> IsBlank(strs[i])
    decreases |strs|
  {
    if |strs| > 0 {
      var init, last := strs[..|strs| - 1], strs[|strs| - 1];
      TxtFormatBlank(init);
      var t := TxtFormat(strs);
      assert t == TxtFormat(init) + last + ENDOFLINE_SYMBOL;
      if IsBlank(t) {
        forall i | 0 <= i < |strs| ensures IsBlank(strs[i]) {
          if i < |strs| - 1 {
            assert strs[i] == init[i];
            forall j | 0 <= j < |TxtFormat(init)| ensures TxtFormat(init)[j] <= ' ' {
              assert t[j] == TxtFormat(init)[j];
            }
          } else {
            forall j | 0 <= j < |last| ensures last[j] <= ' ' {
              assert t[|TxtFormat(init)| + j] == last[j];
            }
          }
        }
      }
      if forall i :: 0 <= i < |strs| ==> IsBlank(strs[i]) {
        assert forall i :: 0 <= i < |init| ==> init[i] == strs[i];
        assert IsBlank(last);
      }
    }
  }

  /** The lines of a text, each ended by the line separator (the last one possibly not). */
  function SplitLines(s: string): (r: seq<string>)
    decreases |s|
  {
    if |s| == 0 then []
    else
      var k := IndexOf(s, '\n');
      if k < 0 then [s] else [s[..k]] + SplitLines(s[k + 1..])
  }

  /** Splitting the text at its line separators gives back strings that hold none. */
  lemma {:induction false} SplitTxtFormat(strs: seq<string>)
    requires forall i :: 0 <= i < |strs| ==> '\n' !in strs[i]
    ensures SplitLines(TxtFormat(strs)) == strs
    decreases |strs|
  {
    if |strs| > 0 {
      var x, rest := strs[0], strs[1..];
      assert strs == [x] + rest;
      TxtFormatCons(x, rest);
      var t := TxtFormat(strs);
      assert t[|x|] == '\n';
      assert forall j :: 0 <= j < |x| ==> t[j] == x[j];
      assert IndexOf(t, '\n') == |x|;
      assert t[|x| + 1..] == TxtFormat(rest);
      assert t[..|x|] == x;
      SplitTxtFormat(rest);
    }
  }

  /** `inTxtFormat`: the loop concatenating each string and a line separator. */
  method InTxtFormat(strs: seq<string>) returns (toPrint: string)
    ensures toPrint == TxtFormat(strs)
  {
    toPrint := "";
    var i := 0;
    while i < |strs|
      invariant 0 <= i <= |strs|
      invariant toPrint == TxtFormat(strs[..i])
    {
      assert strs[..i + 1][..i] == strs[..i];
      toPrint := toPrint + strs[i] + ENDOFLINE_SYMBOL;
      i := i + 1;
    }
    assert strs[..i] == strs;
  }

  /** A time line with milliseconds on top of the plain text. */
  function LogFormat(strs: seq<string>, now: Clock): (r: string)
    ensures SplitLines(r) == [DataHourString(now, true)] + SplitLines(TxtFormat(strs))
  {
    LineWithHeader(DataHourString(now, true), TxtFormat(strs));
    DataHourString(now, true) + ENDOFLINE_SYMBOL + TxtFormat(strs)
  }

  /** The lines of a log text are the time line and then the strings. */
  lemma SplitLogFormat(strs: seq<string>, now: Clock)
    requires forall i :: 0 <= i < |strs| ==> '\n' !in strs[i]
    ensures SplitLines(LogFormat(strs, now)) == [DataHourString(now, true)] + strs
  {
    SplitTxtFormat(strs);
  }

  /** `inLogFormat`: the time line, then the loop of `inTxtFormat`. */
  method InLogFormat(strs: seq<string>, now: Clock) returns (toPrint: string)
    ensures toPrint == LogFormat(strs, now)
  {
    toPrint := DataHourString(now, true) + ENDOFLINE_SYMBOL;
    var body := InTxtFormat(strs);
    toPrint := toPrint + body;
  }

  /** A header without line separators comes back as the first line, before the lines of the body. */
  lemma LineWithHeader(header: string, body: string)
    requires '\n' !in header
    ensures SplitLines(header + ENDOFLINE_SYMBOL + body) == [header] + SplitLines(body)
  {
    var t := header + ENDOFLINE_SYMBOL + body;
    assert t[|header|] == '\n';
    assert forall j :: 0 <= j < |header| ==> t[j] == header[j];
    assert IndexOf(t, '\n') == |header|;
    assert t[..|header|] == header;
    assert t[|header| + 1..] == body;
  }

  /** `inJavaFormat`: the text is already laid out, so it is the plain text. */
  method InJavaFormat(strs: seq<string>) returns (toPrint: string)
    ensures toPrint == TxtFormat(strs)
  {
    toPrint := InTxtFormat(strs);
  }

  // ---------------------------------------------------------------------
  // The manager
  // ---------------------------------------------------------------------

  /** The `BufferedWriter`: not yet created, open, or closed. */
  datatype WriterState = NoWriter | Open | Closed

  /** What a file operation returns, or the exception it lets escape. */
  datatype Outcome = Done(success: bool) | NullPointer | IndexOutOfBounds

  class FileManager {
    var filePath: string
    var fileFormat: string
    var defaultBasePath: string
    var writer: WriterState
    var fileExists: bool
    /** The text of the file at `filePath`. */
    var contents: string
    /** What the manager printed on the console. */
    var console: seq<string>

    constructor (filePath: string, fileFormat: string, defaultBasePath: string, fileExists: bool, contents: string, console: seq<string>)
      ensures this.filePath == filePath && this.fileFormat == fileFormat && this.defaultBasePath == defaultBasePath
      ensures writer == NoWriter && this.fileExists == fileExists && this.contents == contents && this.console == console
    {
      this.filePath := filePath;
      this.fileFormat := fileFormat;
      this.defaultBasePath := defaultBasePath;
      writer := NoWriter;
      this.fileExists := fileExists;
      this.contents := contents;
      this.console := console;
    }

    /**
     * The constructors with `initialize`. With format `"default"` the path is
     * the whole file path and the format is read from it (an unknown one is
     * reported on the console; a path without a token throws, `None`).
     * Otherwise a `"default"` path is a directory named by the time under the
     * base path, and the file is `path + fileName + "." + format`. The
     * three-argument Java constructor passes `DefaultBasePath(userDir)` as
     * `basedPath`; `onDisk` is the file found at the resulting path.
     */
    static method Create(path: string, fileName: string, format: string, basedPath: string, now: Clock,
                         onDisk: Option<string>) returns (m: Option<FileManager>)
      ensures m.None? <==> format == DEFAULT_COMMAND && LastToken(path).None?
      ensures m.Some? ==> fresh(m.value) && m.value.writer == NoWriter && m.value.defaultBasePath == basedPath
      ensures m.Some? ==> m.value.fileExists == onDisk.Some? && m.value.contents == (if onDisk.Some? then onDisk.value else "")
      ensures m.Some? && format == DEFAULT_COMMAND ==>
                m.value.filePath == path && Some(m.value.fileFormat) == LastToken(path) &&
                m.value.console == (if m.value.fileFormat in [TXT_FORMAT, LOG_FORMAT, JAVA_FORMAT] then [] else ["Exception"])
      ensures m.Some? && format != DEFAULT_COMMAND ==> m.value.fileFormat == format && m.value.console == []
      ensures m.Some? && format != DEFAULT_COMMAND && path != DEFAULT_COMMAND ==>
                m.value.filePath == path + fileName + "." + format
      ensures m.Some? && format != DEFAULT_COMMAND && path == DEFAULT_COMMAND ==>
                var timeHour := DataHourString(now, false);
                m.value.filePath == basedPath + timeHour + "/" + timeHour + (if fileName == DEFAULT_COMMAND then "" else fileName) + "." + format
    {
      var present := onDisk.Some?;
      var text := if onDisk.Some? then onDisk.value else "";
      if format == DEFAULT_COMMAND {
        var fmt := GetFormatFromAbsolutePath(path);
        if fmt.None? {
          return None;
        }
        var report := if fmt.value != TXT_FORMAT && fmt.value != LOG_FORMAT && fmt.value != JAVA_FORMAT then ["Exception"] else [];
        var fm := new FileManager(path, fmt.value, basedPath, present, text, report);
        m := Some(fm);
      } else {
        var filePath;
        if path == DEFAULT_COMMAND {
          var timeHour := DataHourString(now, false);
          filePath := basedPath + timeHour;
          if fileName == DEFAULT_COMMAND {
            filePath := filePath + "/" + timeHour + "." + format;
          } else {
            filePath := filePath + "/" + timeHour + fileName + "." + format;
          }
        } else {
          filePath := path + fileName + "." + format;
        }
        var fm := new FileManager(filePath, format, basedPath, present, text, []);
        m := Some(fm);
      }
    }

    /** `loadFile`: the file is created when missing and an appending writer opened on it. */
    method LoadFile() returns (ok: bool)
      modifies this`writer, this`fileExists, this`contents
      ensures ok && writer == Open && fileExists
      ensures contents == (if old(fileExists) then old(contents) else "")
    {
      if !fileExists {
        fileExists := true;
        contents := "";
      }
      writer := Open;
      ok := true;
    }

    /** `closeFile`: closing a writer never created throws. */
    method CloseFile() returns (r: Outcome)
      modifies this`writer
      ensures old(writer) == NoWriter ==> r == NullPointer && writer == NoWriter
      ensures old(writer) != NoWriter ==> r == Done(true) && writer == Closed
    {
      if writer == NoWriter {
        return NullPointer;
      }
      writer := Closed;
      r := Done(true);
    }

    /** `deleteFile`: fails, with a console report, when there is no file. */
    method DeleteFile() returns (ok: bool)
      modifies this`fileExists, this`contents, this`console
      ensures ok == old(fileExists) && !fileExists
      ensures contents == (if ok then "" else old(contents))
      ensures console == old(console) + (if ok then [] else ["Exception"])
    {
      if fileExists {
        fileExists := false;
        contents := "";
        ok := true;
      } else {
        console := console + ["Exception"];
        ok := false;
      }
    }

    /**
     * The text `printOnFile` prepares for the format; `""` for the ontology
     * format and for an unknown one.
     */
    function Formatted(strs: seq<string>, now: Clock): (r: string)
      reads this`fileFormat
      ensures fileFormat in [TXT_FORMAT, JAVA_FORMAT] ==> r == TxtFormat(strs)
      ensures fileFormat == LOG_FORMAT ==> r == LogFormat(strs, now)
      ensures fileFormat !in [TXT_FORMAT, LOG_FORMAT, JAVA_FORMAT] ==> r == ""
    {
      if fileFormat == TXT_FORMAT || fileFormat == JAVA_FORMAT then TxtFormat(strs)
      else if fileFormat == LOG_FORMAT then LogFormat(strs, now)
      else ""
    }

    /**
     * The effect of `printOnFile(strs)` returning `r`. A blank text is not
     * written; the ontology format fails on an empty list.
     */
    twostate predicate PrintedOnFile(strs: seq<string>, now: Clock, r: Outcome)
      reads this
    {
      var text := Formatted(strs, now);
      var blank := IsBlank(text) || (fileFormat == OWL_FORMAT && |strs| == 0);
      (blank ==> contents == old(contents) && console == old(console) &&
                 r == (if fileFormat == OWL_FORMAT && |strs| == 0 then IndexOutOfBounds else Done(true))) &&
      (!blank && writer == NoWriter ==> r == NullPointer && contents == old(contents) && console == old(console)) &&
      (!blank && writer == Closed ==> r == Done(false) && contents == old(contents) && console == old(console) + ["Exception"]) &&
      (!blank && writer == Open ==>
         r == Done(true) && console == old(console) && contents == old(contents) + (if fileExists then text else ""))
    }

    /**
     * `printOnFile(strs)`: the formatted text is written only when it is not
     * blank. The ontology format saves an ontology named by the first string
     * instead, which is not modelled beyond reading that string.
     */
    method PrintOnFile(strs: seq<string>, now: Clock) returns (r: Outcome)
      modifies this`contents, this`console
      ensures PrintedOnFile(strs, now, r)
    {
      var toPrint := "";
      if fileFormat == TXT_FORMAT {
        toPrint := InTxtFormat(strs);
      } else if fileFormat == LOG_FORMAT {
        toPrint := InLogFormat(strs, now);
      } else if fileFormat == JAVA_FORMAT {
        toPrint := InJavaFormat(strs);
      } else if fileFormat == OWL_FORMAT {
        if |strs| == 0 {
          return IndexOutOfBounds;
        }
      }
      r := Done(true);
      if !IsBlank(toPrint) {
        if writer == NoWriter {
          return NullPointer;
        } else if writer == Closed {
          console := console + ["Exception"];
          r := Done(false);
        } else if fileExists {
          contents := contents + toPrint;
        }
      }
    }

    /**
     * `printOnFile(strs, overwrite)`: when overwriting an opened file, the
     * file is closed, deleted and loaded again first, so that afterwards it
     * holds exactly the new text.
     */
    method PrintOnFileOverwrite(strs: seq<string>, overwrite: bool, now: Clock) returns (r: Outcome)
      modifies this`writer, this`fileExists, this`contents, this`console
      ensures !overwrite || old(writer) == NoWriter ==> writer == old(writer) && fileExists == old(fileExists) && PrintedOnFile(strs, now, r)
      ensures overwrite && old(writer) != NoWriter ==> writer == Open && fileExists
      ensures overwrite && old(writer) != NoWriter && !(fileFormat == OWL_FORMAT && |strs| == 0) ==>
                r == Done(true) && contents == (if IsBlank(Formatted(strs, now)) then "" else Formatted(strs, now))
    {
      if overwrite && writer != NoWriter {
        var closed := CloseFile();
        var deleted := DeleteFile();
        var loaded := LoadFile();
      }
      r := PrintOnFile(strs, now);
    }
  }
}
