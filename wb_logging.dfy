/**
 * The logging core of Source/Common/wb_logging.py: how setupLogging picks
 * the levels and handlers, how LogHandler routes a record to one style of
 * the log panel, how WbLog.write behaves on and off the main thread, and
 * how RotatingFileHandler decides to roll the log file over and shifts its
 * backups.
 *
 * The log panel is the sequence of styled runs of text inserted into it.
 * The file system the rotating handler works on is a map from file name to
 * contents; formatting a record (time stamp, level name) happens before the
 * handlers here see it, so a record arrives as its formatted text.
 */
module WbLogging {
  import opened Wrappers
  import opened PyText

  // The numeric levels of Python's logging module.
  const CRITICAL: int := 50
  const ERROR: int := 40
  const WARNING: int := 30
  const INFO: int := 20
  const DEBUG: int := 10

  /** A logger passes a record on when the record's level reaches the logger's level. */
  predicate IsEnabledFor(threshold: int, level: int) {
    level >= threshold
  }

  // ---------------------------------------------------------------- the log panel

  /** The six text styles of WbLogTextWidget. */
  datatype Style = NormalStyle | ErrorStyle | InfoStyle | WarningStyle | CriticalStyle | DebugStyle

  /** A piece of text inserted into the panel with the character format of one style. */
  datatype StyledText = StyledText(text: string, style: Style)

  /** The panel's plain text: the inserted pieces in order. */
  function PanelText(runs: seq<StyledText>): string
    decreases |runs|
  {
    if runs == [] then [] else runs[0].text + PanelText(runs[1..])
  }

  /** Inserting at the end extends the panel's text by exactly the inserted text. */
  lemma {:induction false} PanelTextAppend(runs: seq<StyledText>, run: StyledText)
    ensures PanelText(runs + [run]) == PanelText(runs) + run.text
    decreases |runs|
  {
    if runs == [] {
      assert [run][1..] == [];
    } else {
      assert (runs + [run])[1..] == runs[1..] + [run];
      PanelTextAppend(runs[1..], run);
    }
  }

  /** WbLogTextWidget: the text it holds, as styled runs. */
  class LogTextWidget {
    var runs: seq<StyledText>

    constructor ()
      ensures runs == []
    {
      runs := [];
    }

    /** writeStyledText: moves the cursor to the end and inserts the text in the style's format. */
    method WriteStyledText(text: string, style: Style)
      modifies this
      ensures runs == old(runs) + [StyledText(text, style)]
      ensures PanelText(runs) == PanelText(old(runs)) + text
    {
      PanelTextAppend(runs, StyledText(text, style));
      runs := runs + [StyledText(text, style)];
    }

    /** clearText. */
    method ClearText()
      modifies this
      ensures runs == []
    {
      runs := [];
    }
  }

  // ---------------------------------------------------------------- LogHandler

  /** The style LogHandler.emit picks: thresholds compared from CRITICAL down, and anything below DEBUG as an error. */
  function RouteStyle(level: int): (s: Style)
    ensures s == CriticalStyle <==> level >= CRITICAL
    ensures s == ErrorStyle <==> (ERROR <= level < CRITICAL || level < DEBUG)
    ensures s == WarningStyle <==> WARNING <= level < ERROR
    ensures s == InfoStyle <==> INFO <= level < WARNING
    ensures s == DebugStyle <==> DEBUG <= level < INFO
    ensures s != NormalStyle
  {
    if level >= CRITICAL then CriticalStyle
    else if level >= ERROR then ErrorStyle
    else if level >= WARNING then WarningStyle
    else if level >= INFO then InfoStyle
    else if level >= DEBUG then DebugStyle
    else ErrorStyle
  }

  /** How severe a style looks, from debug up to critical. */
  function Severity(s: Style): nat {
    match s
    case NormalStyle => 0
    case DebugStyle => 1
    case InfoStyle => 2
    case WarningStyle => 3
    case ErrorStyle => 4
    case CriticalStyle => 5
  }

  /** From DEBUG upwards, a more severe record never gets a less severe style. */
  lemma RouteStyleMonotone(level: int, higher: int)
    requires DEBUG <= level <= higher
    ensures Severity(RouteStyle(level)) <= Severity(RouteStyle(higher))
  {
  }

  /** LogHandler: a logging handler that writes into the log panel. */
  class LogHandler {
    const logCtrl: LogTextWidget

    constructor (w: LogTextWidget)
      ensures logCtrl == w
    {
      logCtrl := w;
    }

    /** emit: the formatted record plus a newline goes to exactly one writer, chosen by the record's level. */
    method Emit(formatted: string, level: int)
      modifies logCtrl
      ensures logCtrl.runs == old(logCtrl.runs) + [StyledText(formatted + "\n", RouteStyle(level))]
    {
      var msg := formatted + "\n";
      if level >= CRITICAL {
        logCtrl.WriteStyledText(msg, CriticalStyle);
      } else if level >= ERROR {
        logCtrl.WriteStyledText(msg, ErrorStyle);
      } else if level >= WARNING {
        logCtrl.WriteStyledText(msg, WarningStyle);
      } else if level >= INFO {
        logCtrl.WriteStyledText(msg, InfoStyle);
      } else if level >= DEBUG {
        logCtrl.WriteStyledText(msg, DebugStyle);
      } else {
        logCtrl.WriteStyledText(msg, ErrorStyle);
      }
    }
  }

  // ---------------------------------------------------------------- WbLog

  /** WbLog: the file-like object that stdout and stderr are redirected to. */
  class WbLog {
    const logWidget: LogTextWidget
    /** The calls to write handed to the foreground thread and not yet run. */
    var deferredWrites: seq<string>

    constructor (w: LogTextWidget)
      ensures logWidget == w && deferredWrites == []
    {
      logWidget := w;
      deferredWrites := [];
    }

    /**
     * write: off the main thread it forwards itself to
     * the foreground and returns; on the main thread the misspelt
     * `startwith` raises AttributeError before any text reaches the panel.
     */
    method Write(text: string, onMainThread: bool) returns (raised: Option<PyError>)
      modifies this
      ensures !onMainThread ==> raised == None && deferredWrites == old(deferredWrites) + [text]
      ensures onMainThread ==> raised == Some(AttributeError) && deferredWrites == old(deferredWrites)
      ensures logWidget.runs == old(logWidget.runs)
    {
      if !onMainThread {
        deferredWrites := deferredWrites + [text];
        return None;
      }
      return Some(AttributeError);
    }

    /** clearLog. */
    method ClearLog()
      modifies logWidget
      ensures logWidget.runs == []
    {
      logWidget.ClearText();
    }
  }

  // ---------------------------------------------------------------- setupLogging

  /** The handlers setupLogging attaches. */
  datatype HandlerSetting = RotatingFile(mode: string, maxBytes: int, backupCount: int) | StdoutHandler

  /** The two loggers setupLogging configures, and the messages it logs at the end. */
  datatype LoggingSetup = LoggingSetup(
    logName: string,
    traceName: string,
    logLevel: int,
    traceLevel: int,
    logHandlers: seq<HandlerSetting>,
    traceHandlers: seq<HandlerSetting>,
    startupMessages: seq<string>)

  function Join(parts: seq<string>): string
    decreases |parts|
  {
    if parts == [] then [] else parts[0] + Join(parts[1..])
  }

  /** setupLogging: levels from the debug and trace switches, a 10 x 100K rotating file, and stdout copies on request. */
  function SetupLogging(nameParts: seq<string>, debugEnabled: bool, traceEnabled: bool, logToStdout: bool): (c: LoggingSetup)
    ensures c.traceName == c.logName + ".Trace"
    ensures forall level :: IsEnabledFor(c.logLevel, level) <==> level >= (if debugEnabled then DEBUG else INFO)
    ensures forall level :: IsEnabledFor(c.traceLevel, level) <==> level >= (if traceEnabled then INFO else CRITICAL)
    ensures IsEnabledFor(c.logLevel, DEBUG) <==> debugEnabled
    ensures IsEnabledFor(c.traceLevel, INFO) <==> traceEnabled
    ensures !traceEnabled ==> !IsEnabledFor(c.traceLevel, WARNING) && !IsEnabledFor(c.traceLevel, ERROR)
    ensures |c.logHandlers| >= 1 && c.logHandlers[0] == RotatingFile("a", 100 * 1024, 10)
    ensures |c.logHandlers| == (if logToStdout then 2 else 1)
    ensures |c.traceHandlers| == (if logToStdout then 1 else 0)
    ensures forall i :: 1 <= i < |c.logHandlers| ==> c.logHandlers[i] == StdoutHandler
    ensures forall i :: 0 <= i < |c.traceHandlers| ==> c.traceHandlers[i] == StdoutHandler
    ensures "Debug is enabled" in c.startupMessages <==> debugEnabled
    ensures "Trace enabled" in c.startupMessages <==> traceEnabled
  {
    var name := Join(nameParts);
    var logLevel := if debugEnabled then DEBUG else INFO;
    var traceLevel := if traceEnabled then INFO else CRITICAL;
    var file := RotatingFile("a", 100 * 1024, 10);
    LoggingSetup(
      name, name + ".Trace", logLevel, traceLevel,
      if logToStdout then [file, StdoutHandler] else [file],
      if logToStdout then [StdoutHandler] else [],
      (if IsEnabledFor(logLevel, DEBUG) then ["Debug is enabled"] else [])
      + (if IsEnabledFor(traceLevel, INFO) then ["Trace enabled"] else []))
  }

  // ---------------------------------------------------------------- RotatingFileHandler: names

  /** The name "%s.%d%s" % (prefix, i, suffix) of backup i. */
  function BackupName(prefix: string, suffix: string, i: int): string
  {
    prefix + "." + DecimalText(i) + suffix
  }

  /** A backup name is the prefix and a dot, then the index as int() reads it back, then the suffix. */
  lemma BackupNameFields(prefix: string, suffix: string, i: int)
    ensures var r := BackupName(prefix, suffix, i);
            && |r| > |prefix| + 1 + |suffix| && r[..|prefix| + 1] == prefix + "."
            && r[|r| - |suffix|..] == suffix
            && PyInt(r[|prefix| + 1..|r| - |suffix|]) == Some(i)
  {
    var t := DecimalText(i);
    var r := prefix + "." + t + suffix;
    assert r[..|prefix| + 1] == prefix + ".";
    assert r[|prefix| + 1..|r| - |suffix|] == t;
    assert r[|r| - |suffix|..] == suffix;
    PyIntDecimalText(i);
  }

  /** Different indices give different backup names. */
  lemma BackupNameInjective(prefix: string, suffix: string, i: int, j: int)
    requires BackupName(prefix, suffix, i) == BackupName(prefix, suffix, j)
    ensures i == j
  {
    var a, b := BackupName(prefix, suffix, i), BackupName(prefix, suffix, j);
    var n := |prefix| + 1;
    assert |DecimalText(i)| == |DecimalText(j)|;
    assert DecimalText(i) == a[n..n + |DecimalText(i)|] == b[n..n + |DecimalText(j)|] == DecimalText(j);
    DecimalTextInjective(i, j);
  }

  /** Backup i and backup i + 1 are different files. */
  lemma NextBackupDiffers(prefix: string, suffix: string, i: int)
    ensures BackupName(prefix, suffix, i) != BackupName(prefix, suffix, i + 1)
  {
    if BackupName(prefix, suffix, i) == BackupName(prefix, suffix, i + 1) {
      BackupNameInjective(prefix, suffix, i, i + 1);
    }
  }

  /** The base file is never one of its own backups: a backup name is longer. */
  lemma BaseIsNoBackup(prefix: string, suffix: string, i: int)
    ensures BackupName(prefix, suffix, i) != prefix + suffix
  {
    PyIntDecimalText(i);
    assert |BackupName(prefix, suffix, i)| > |prefix + suffix|;
  }

  // ---------------------------------------------------------------- RotatingFileHandler: rollover

  /** os.rename when the destination is already gone: the contents move to the new name. */
  function Rename(files: map<string, string>, src: string, dst: string): map<string, string>
    requires src in files
  {
    (files - {src})[dst := files[src]]
  }

  /** One pass of the shifting loop: backup i, when it exists, replaces backup i + 1. */
  function ShiftStep(files: map<string, string>, prefix: string, suffix: string, i: int): map<string, string>
  {
    var sfn, dfn := BackupName(prefix, suffix, i), BackupName(prefix, suffix, i + 1);
    NextBackupDiffers(prefix, suffix, i);
    if sfn in files then Rename(if dfn in files then files - {dfn} else files, sfn, dfn)
    else files
  }

  /** The shifting loop from index i down to 1. */
  function ShiftFrom(files: map<string, string>, prefix: string, suffix: string, i: int): map<string, string>
    decreases i
  {
    if i <= 0 then files else ShiftFrom(ShiftStep(files, prefix, suffix, i), prefix, suffix, i - 1)
  }

  /**
   * One pass: when backup i exists it is moved onto backup i + 1, replacing
   * it, and is gone; otherwise nothing changes; no other file is touched and
   * no contents are invented.
   */
  lemma ShiftStepEffect(files: map<string, string>, prefix: string, suffix: string, i: int)
    ensures var r := ShiftStep(files, prefix, suffix, i);
            var sfn, dfn := BackupName(prefix, suffix, i), BackupName(prefix, suffix, i + 1);
            && (sfn in files ==> sfn !in r && dfn in r && r[dfn] == files[sfn])
            && (sfn !in files ==> r == files)
            && (forall k :: k != sfn && k != dfn ==> (k in r <==> k in files) && (k in r ==> r[k] == files[k]))
            && r.Values <= files.Values
  {
    NextBackupDiffers(prefix, suffix, i);
  }

  /** The shifting loop only moves contents between files: whatever a file holds afterwards, some file held before. */
  lemma {:induction false} ShiftFromContents(files: map<string, string>, prefix: string, suffix: string, i: int)
    ensures ShiftFrom(files, prefix, suffix, i).Values <= files.Values
    decreases i
  {
    if i > 0 {
      ShiftStepEffect(files, prefix, suffix, i);
      ShiftFromContents(ShiftStep(files, prefix, suffix, i), prefix, suffix, i - 1);
    }
  }

  /** No backup index from 1 to n names this file. */
  predicate NoBackupUpTo(prefix: string, suffix: string, n: int, name: string) {
    forall k :: 1 <= k <= n ==> name != BackupName(prefix, suffix, k)
  }

  /**
   * What the shifting loop from n down to 1 leaves behind: backup k + 1
   * holds what backup k held, or is gone when backup k did not exist, except
   * that the last one, n + 1, keeps its own contents when backup n did not
   * exist; backup 1 is gone; every other file is untouched.
   */
  lemma {:induction false} ShiftFromEffect(files: map<string, string>, prefix: string, suffix: string, n: int)
    requires n >= 0
    ensures var r := ShiftFrom(files, prefix, suffix, n);
            && (forall name :: NoBackupUpTo(prefix, suffix, n + 1, name) ==>
                  (name in r <==> name in files) && (name in files ==> r[name] == files[name]))
            && (n >= 1 ==> BackupName(prefix, suffix, 1) !in r)
            && (forall k :: 1 <= k < n ==>
                  var src, dst := BackupName(prefix, suffix, k), BackupName(prefix, suffix, k + 1);
                  (dst in r <==> src in files) && (src in files ==> r[dst] == files[src]))
            && (n >= 1 ==>
                  var src, dst := BackupName(prefix, suffix, n), BackupName(prefix, suffix, n + 1);
                  if src in files then dst in r && r[dst] == files[src]
                  else (dst in r <==> dst in files) && (dst in files ==> r[dst] == files[dst]))
    decreases n
  {
    if n >= 1 {
      var f' := ShiftStep(files, prefix, suffix, n);
      var src, dst := BackupName(prefix, suffix, n), BackupName(prefix, suffix, n + 1);
      ShiftFromEffect(f', prefix, suffix, n - 1);
      var r := ShiftFrom(files, prefix, suffix, n);
      assert r == ShiftFrom(f', prefix, suffix, n - 1);
      assert src != dst by {
        if src == dst { BackupNameInjective(prefix, suffix, n, n + 1); }
      }
      // What the first pass did.
      assert src !in f';
      assert src in files ==> dst in f' && f'[dst] == files[src];
      assert src !in files ==> f' == files;
      assert forall name :: name != src && name != dst ==> (name in f' <==> name in files) && (name in files ==> f'[name] == files[name]);
      // The later passes leave dst alone, so it keeps what the first pass put there.
      assert NoBackupUpTo(prefix, suffix, n, dst) by {
        forall k | 1 <= k <= n
          ensures dst != BackupName(prefix, suffix, k)
        {
          if dst == BackupName(prefix, suffix, k) { BackupNameInjective(prefix, suffix, n + 1, k); }
        }
      }
      forall name | NoBackupUpTo(prefix, suffix, n + 1, name)
        ensures (name in r <==> name in files) && (name in files ==> r[name] == files[name])
      {
        assert NoBackupUpTo(prefix, suffix, n, name);
        assert name != src && name != dst;
      }
      forall k | 1 <= k < n
        ensures var s, d := BackupName(prefix, suffix, k), BackupName(prefix, suffix, k + 1);
                (d in r <==> s in files) && (s in files ==> r[d] == files[s])
      {
        var s, d := BackupName(prefix, suffix, k), BackupName(prefix, suffix, k + 1);
        assert s != src && s != dst by {
          if s == src { BackupNameInjective(prefix, suffix, k, n); }
          if s == dst { BackupNameInjective(prefix, suffix, k, n + 1); }
        }
        if k == n - 1 {
          assert d == src;
        } else {
          assert d != src && d != dst by {
            if d == src { BackupNameInjective(prefix, suffix, k + 1, n); }
            if d == dst { BackupNameInjective(prefix, suffix, k + 1, n + 1); }
          }
        }
      }
    }
  }

  /**
   * doRollover on the files: with backups, shift them, drop the file
   * `base.1`, move the base file there; in every case reopen the base file
   * empty with mode "w".
   */
  function RolloverFiles(files: map<string, string>, base: string, backupCount: int): (r: map<string, string>)
    requires base in files
    ensures base in r && r[base] == []
  {
    if backupCount > 0 then
      var (prefix, suffix) := Splitext(base);
      var shifted := ShiftFrom(files, prefix, suffix, backupCount - 1);
      var dfn := base + ".1";
      ShiftKeepsBase(files, base, backupCount - 1);
      var cleared := if dfn in shifted then shifted - {dfn} else shifted;
      Rename(cleared, base, dfn)[base := []]
    else files[base := []]
  }

  /** The shifting loop never touches the base file. */
  lemma ShiftKeepsBase(files: map<string, string>, base: string, n: int)
    requires base in files && n >= 0
    ensures var (prefix, suffix) := Splitext(base);
            base in ShiftFrom(files, prefix, suffix, n) && ShiftFrom(files, prefix, suffix, n)[base] == files[base]
  {
    var (prefix, suffix) := Splitext(base);
    ShiftFromEffect(files, prefix, suffix, n);
    assert NoBackupUpTo(prefix, suffix, n + 1, base) by {
      forall k | 1 <= k <= n + 1
        ensures base != BackupName(prefix, suffix, k)
      {
        BaseIsNoBackup(prefix, suffix, k);
      }
    }
  }

  /** With backups, the former contents of the base file end up in `base.1`. */
  lemma RolloverKeepsNewest(files: map<string, string>, base: string, backupCount: int)
    requires base in files && backupCount > 0
    ensures var r := RolloverFiles(files, base, backupCount);
            base + ".1" in r && r[base + ".1"] == files[base]
  {
    var (prefix, suffix) := Splitext(base);
    ShiftKeepsBase(files, base, backupCount - 1);
    assert base + ".1" != base;
  }

  /** Without backups, a rollover only truncates the base file: nothing is renamed or removed. */
  lemma RolloverWithoutBackups(files: map<string, string>, base: string, backupCount: int)
    requires base in files && backupCount <= 0
    ensures RolloverFiles(files, base, backupCount) == files[base := []]
  {
  }

  /**
   * When the base name has no extension, the shifted names are `base.k`,
   * so a rollover moves every backup up one place: `base.k+1` holds what
   * `base.k` held, `base.1` the old base file.
   */
  lemma RolloverPlainName(files: map<string, string>, base: string, backupCount: int, k: int)
    requires base in files && Splitext(base).1 == [] && 1 <= k < backupCount - 1
    ensures var r := RolloverFiles(files, base, backupCount);
            var src, dst := base + "." + DecimalText(k), base + "." + DecimalText(k + 1);
            (dst in r <==> src in files) && (src in files ==> r[dst] == files[src])
  {
    var (prefix, suffix) := Splitext(base);
    assert prefix == base && suffix == [];
    var src, dst := BackupName(base, [], k), BackupName(base, [], k + 1);
    assert src == base + "." + DecimalText(k) && dst == base + "." + DecimalText(k + 1);
    PlainFirstBackup(base, k + 1);
    assert dst != base by { BaseIsNoBackup(base, [], k + 1); assert base + [] == base; }
    RolloverOtherFiles(files, base, backupCount, dst);
    ShiftFromMoves(files, base, [], backupCount - 1, k);
  }

  /** One backup below the top after the shifting loop: backup k + 1 holds what backup k held, or is gone. */
  lemma ShiftFromMoves(files: map<string, string>, prefix: string, suffix: string, n: int, k: int)
    requires 1 <= k < n
    ensures var r := ShiftFrom(files, prefix, suffix, n);
            var src, dst := BackupName(prefix, suffix, k), BackupName(prefix, suffix, k + 1);
            (dst in r <==> src in files) && (src in files ==> r[dst] == files[src])
  {
    ShiftFromEffect(files, prefix, suffix, n);
  }

  /** Backup 1 of a plain name is `base.1`, and no other index gives that name. */
  lemma PlainFirstBackup(base: string, j: int)
    requires j != 1
    ensures BackupName(base, [], 1) == base + ".1"
    ensures BackupName(base, [], j) != base + ".1"
  {
    assert NatText(1) == "1";
    if BackupName(base, [], j) == BackupName(base, [], 1) { BackupNameInjective(base, [], j, 1); }
  }

  /** Apart from the base file and `base.1`, a rollover leaves what the shifting loop left. */
  lemma RolloverOtherFiles(files: map<string, string>, base: string, backupCount: int, name: string)
    requires base in files && backupCount > 0 && name != base && name != base + ".1"
    ensures var shifted := ShiftFrom(files, Splitext(base).0, Splitext(base).1, backupCount - 1);
            var r := RolloverFiles(files, base, backupCount);
            (name in r <==> name in shifted) && (name in shifted ==> r[name] == shifted[name])
  {
  }

  /**
   * For a base name with an extension the shifted names put the index
   * before the extension (`app.1.log`), while the rollover itself writes
   * `app.log.1`: two rollovers in a row leave the first log in no file.
   */
  lemma RolloverLosesBackup(stem: string, ext: string, first: string, second: string, backupCount: int)
    requires '/' !in stem && stem != [] && stem[0] != '.'
    requires '.' !in ext && '/' !in ext && ext != [] && !IsDigit(ext[0])
    requires backupCount > 0
    ensures var base := stem + "." + ext;
            var once := RolloverFiles(map[base := first], base, backupCount);
            var twice := RolloverFiles(once[base := second], base, backupCount);
            twice == map[base := [], base + ".1" := second]
  {
    var base := stem + "." + ext;
    var one := base + ".1";
    assert one != base;
    var f0 := map[base := first];
    RolloverOnlyNewest(stem, ext, f0, backupCount);
    var once := RolloverFiles(f0, base, backupCount);
    assert once == map[base := [], one := first];
    var f1 := once[base := second];
    assert f1 == map[base := second, one := first];
    RolloverOnlyNewest(stem, ext, f1, backupCount);
  }

  /** With at most `stem.ext` and `stem.ext.1` present, a rollover leaves exactly those two, `stem.ext.1` holding the old log. */
  lemma RolloverOnlyNewest(stem: string, ext: string, files: map<string, string>, backupCount: int)
    requires '/' !in stem && stem != [] && stem[0] != '.'
    requires '.' !in ext && '/' !in ext && ext != [] && !IsDigit(ext[0])
    requires backupCount > 0
    requires stem + "." + ext in files && files.Keys <= {stem + "." + ext, stem + "." + ext + ".1"}
    ensures var base := stem + "." + ext;
            RolloverFiles(files, base, backupCount) == map[base := [], base + ".1" := files[base]]
  {
    var base := stem + "." + ext;
    var one := base + ".1";
    SplitextExtension(stem, ext);
    ExtensionNamesUnindexed(stem, ext, files);
    RolloverWithoutIndexedFiles(files, base, backupCount);
    var r := (files - {one})[one := files[base]][base := []];
    assert r.Keys == {base, one};
  }

  /** Neither `stem.ext` nor `stem.ext.1` is an indexed backup name when the extension does not start with a digit. */
  lemma ExtensionNamesUnindexed(stem: string, ext: string, files: map<string, string>)
    requires ext != [] && !IsDigit(ext[0])
    requires files.Keys <= {stem + "." + ext, stem + "." + ext + ".1"}
    ensures forall name :: name in files ==> NoIndexAfter(stem, name)
  {
    var base := stem + "." + ext;
    assert base[..|stem| + 1] == stem + "." && base[|stem| + 1] == ext[0];
    var one := base + ".1";
    assert one[..|stem| + 1] == stem + "." && one[|stem| + 1] == ext[0];
  }

  /** When no file has an indexed backup name, a rollover only moves the base file to `base.1`, replacing it. */
  lemma RolloverWithoutIndexedFiles(files: map<string, string>, base: string, backupCount: int)
    requires base in files && backupCount > 0
    requires forall name :: name in files ==> NoIndexAfter(Splitext(base).0, name)
    ensures RolloverFiles(files, base, backupCount) == (files - {base + ".1"})[base + ".1" := files[base]][base := []]
  {
    var (prefix, suffix) := Splitext(base);
    NoBackupsShiftNothing(files, prefix, suffix, backupCount - 1);
  }

  /** The name does not continue `prefix.` with a digit, so it is no backup name for that prefix. */
  predicate NoIndexAfter(prefix: string, name: string) {
    |name| > |prefix| + 1 && name[..|prefix| + 1] == prefix + "." ==> !IsDigit(name[|prefix| + 1])
  }

  /** The shifting loop does nothing when no file carries a backup name. */
  lemma NoBackupsShiftNothing(files: map<string, string>, prefix: string, suffix: string, n: int)
    requires n >= 0
    requires forall name :: name in files ==> NoIndexAfter(prefix, name)
    ensures ShiftFrom(files, prefix, suffix, n) == files
    decreases n
  {
    if n >= 1 {
      var sfn := BackupName(prefix, suffix, n);
      assert sfn !in files by {
        var d := DecimalText(n);
        assert sfn[..|prefix| + 1] == prefix + ".";
        assert sfn[|prefix| + 1] == d[0];
      }
      NoBackupsShiftNothing(files, prefix, suffix, n - 1);
    }
  }

  // ---------------------------------------------------------------- RotatingFileHandler: emit

  /**
   * emit on the files: with a size limit, roll over when the record would
   * make the file reach it or when the stream cannot be positioned; then
   * FileHandler.emit appends the record, unless it meets a stream that is
   * still unusable.
   */
  function EmitFiles(files: map<string, string>, base: string, maxBytes: int, backupCount: int,
                     formatted: string, streamUsable: bool): (r: map<string, string>)
    requires base in files
    ensures base in r
  {
    var msg := formatted + "\n";
    if maxBytes > 0 then
      var f := if !streamUsable || |files[base]| + |msg| >= maxBytes then RolloverFiles(files, base, backupCount) else files;
      f[base := f[base] + msg]
    else if streamUsable then files[base := files[base] + msg]
    else files
  }

  /** A positive limit rolls the file over exactly when the record would reach it or the stream is unusable; the record is appended either way. */
  lemma EmitRollsOver(files: map<string, string>, base: string, maxBytes: int, backupCount: int, formatted: string, streamUsable: bool)
    requires base in files && maxBytes > 0
    ensures var rolled := !streamUsable || |files[base]| + |formatted + "\n"| >= maxBytes;
            var r := EmitFiles(files, base, maxBytes, backupCount, formatted, streamUsable);
            && r[base] == (if rolled then [] else files[base]) + formatted + "\n"
            && (rolled && backupCount > 0 ==> base + ".1" in r && r[base + ".1"] == files[base])
            && (!rolled ==> r == files[base := files[base] + formatted + "\n"])
  {
    if !streamUsable || |files[base]| + |formatted + "\n"| >= maxBytes {
      if backupCount > 0 {
        RolloverKeepsNewest(files, base, backupCount);
        assert base + ".1" != base;
      }
    }
  }

  /** Without a positive limit nothing is ever renamed, removed or truncated. */
  lemma EmitWithoutLimit(files: map<string, string>, base: string, maxBytes: int, backupCount: int, formatted: string, streamUsable: bool)
    requires base in files && maxBytes <= 0
    ensures var r := EmitFiles(files, base, maxBytes, backupCount, formatted, streamUsable);
            && r.Keys == files.Keys
            && (forall name :: name in files && name != base ==> r[name] == files[name])
            && r[base] == files[base] + (if streamUsable then formatted + "\n" else [])
  {
  }

  /** With a positive limit and records shorter than it, the log file always stays below the limit. */
  lemma EmitStaysBelowLimit(files: map<string, string>, base: string, maxBytes: int, backupCount: int, formatted: string, streamUsable: bool)
    requires base in files && maxBytes > 0 && |formatted + "\n"| < maxBytes
    ensures |EmitFiles(files, base, maxBytes, backupCount, formatted, streamUsable)[base]| < maxBytes
  {
    EmitRollsOver(files, base, maxBytes, backupCount, formatted, streamUsable);
  }

  /** The mode kept for later opens: a positive limit forces appending whatever mode was asked for. */
  function EffectiveMode(mode: string, maxBytes: int): (m: string)
    ensures maxBytes > 0 ==> m == "a"
    ensures maxBytes <= 0 ==> m == mode
  {
    if maxBytes > 0 then "a" else mode
  }

  /** What opening the file does: "w" truncates it, "a" creates it when missing and keeps it otherwise. */
  function OpenFiles(files: map<string, string>, name: string, mode: string): (r: map<string, string>)
    requires mode == "a" || mode == "w"
    ensures name in r && (mode == "w" ==> r[name] == [])
    ensures mode == "a" && name in files ==> r == files
  {
    if mode == "w" || name !in files then files[name := []] else files
  }

  /** RotatingFileHandler: a file handler over a file system, with its size limit and backup count. */
  class RotatingFileHandler {
    const baseFilename: string
    const maxBytes: int
    const backupCount: int
    var mode: string
    var files: map<string, string>

    /** The handler has its file open, so the base file exists. */
    predicate Valid()
      reads this
    {
      baseFilename in files
    }

    /** __init__: FileHandler opens the file with the given mode; a positive limit then forces mode "a". */
    constructor (filename: string, openMode: string, maxBytes: int, backupCount: int, existing: map<string, string>)
      requires openMode == "a" || openMode == "w"
      ensures Valid()
      ensures baseFilename == filename && this.maxBytes == maxBytes && this.backupCount == backupCount
      ensures mode == EffectiveMode(openMode, maxBytes)
      ensures files == OpenFiles(existing, filename, openMode)
    {
      baseFilename := filename;
      files := OpenFiles(existing, filename, openMode);
      mode := openMode;
      this.maxBytes := maxBytes;
      this.backupCount := backupCount;
      new;
      if maxBytes > 0 {
        mode := "a";
      }
    }

    /** doRollover: shift the backups from the highest index down, move the base file to `base.1`, reopen it empty. */
    method DoRollover()
      requires Valid()
      modifies this
      ensures Valid() && mode == old(mode)
      ensures files == RolloverFiles(old(files), baseFilename, backupCount)
    {
      if backupCount > 0 {
        var (prefix, suffix) := Splitext(baseFilename);
        ShiftKeepsBase(files, baseFilename, backupCount - 1);
        var i := backupCount - 1;
        while i > 0
          invariant 0 <= i <= backupCount - 1
          invariant ShiftFrom(files, prefix, suffix, i) == ShiftFrom(old(files), prefix, suffix, backupCount - 1)
          invariant mode == old(mode)
          decreases i
        {
          var sfn := BackupName(prefix, suffix, i);
          var dfn := BackupName(prefix, suffix, i + 1);
          NextBackupDiffers(prefix, suffix, i);
          if sfn in files {
            if dfn in files {
              files := files - {dfn};
            }
            files := Rename(files, sfn, dfn);
          }
          i := i - 1;
        }
        var dfn := baseFilename + ".1";
        if dfn in files {
          files := files - {dfn};
        }
        files := Rename(files, baseFilename, dfn);
      }
      files := files[baseFilename := []];
    }

    /** emit: roll over when needed, then append the record and its newline. */
    method Emit(formatted: string, streamUsable: bool)
      requires Valid()
      modifies this
      ensures Valid() && mode == old(mode)
      ensures files == EmitFiles(old(files), baseFilename, maxBytes, backupCount, formatted, streamUsable)
    {
      var msg := formatted + "\n";
      var usable := streamUsable;
      if maxBytes > 0 {
        if !usable || |files[baseFilename]| + |msg| >= maxBytes {
          DoRollover();
          usable := true;
        }
      }
      if usable {
        files := files[baseFilename := files[baseFilename] + msg];
      }
    }
  }
}
