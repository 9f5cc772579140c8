# git-workbench: packaging script, logging and Mercurial log history in Dafny

This project models three parts of the SCM Workbench code base and proves
properties of the model.

- **The packaging script** `Builder/package_workbench.py`:
  - the hand-written command-line parser (`parseArgs`);
  - the `key=value` reader of `version.dat` (`readVersionInfo`);
  - the `VERSION_ID=` scan of `/etc/os-release` (`fedoraVersion`);
  - the automatic release number and the rest of `setupVars`;
  - `formatTimeDelta`;
  - the mock configuration steps that can be stated without running mock (`expandMockCfgVars`, the `yum.conf`/`dnf.conf` choice, the `root` entry);
  - the exit codes of `main`.

  Module `PackageWorkbench`. The object's attributes form the `Settings` value. The class `Workbench` holds them as fields, and its methods (`ParseArgs`, `ReadVersionInfo`, `ScanFedoraVersion`, `SetupVars`, `RunMain`) are proved equal to the specification functions.
- **The logging core** `Source/Common/wb_logging.py`:
  - the level and handler choice of `setupLogging`;
  - `LogHandler.emit`, which routes a record to one of the panel's styles;
  - `WbLog.write` on and off the main thread;
  - `RotatingFileHandler` (`__init__`, `emit`, `doRollover`), over a file system that is a map from names to contents.

  Module `WbLogging`.
- **The Mercurial log history window** `Source/Hg/wb_hg_log_history_view.py`:
  - the two table models (`data`, `headerData`, `rowCount`, `columnCount`, `load*`, `commitNode`, `changesNode`);
  - the progress callback;
  - the step order of the two `_Bg` commands across the background and foreground threads;
  - the two selection handlers.

  Module `HgLogHistoryView`.

Two support modules hold shared definitions:

- `Wrappers` holds `Option` and `Result`.
- `PyText` holds the Python string and integer operations the code relies on:
  - `str.strip`, `startswith`, `split` and `replace`;
  - `int()` and `'%d'`;
  - negative list indexing;
  - `os.path.splitext` and `basename`.

  Python exceptions are the `PyError` values of `PyText`.

These behaviours are modelled as the code is written:

- **Backup names on rollover.** `doRollover` shifts backups whose names put the index before the extension: `app.1.log` becomes `app.2.log`. The newest backup, however, is written to `app.log.1`. For a log file with an extension, each rollover therefore replaces the previous newest backup, and no older backup survives (`RolloverLosesBackup`). For a name without an extension, the backups rotate as the docstring describes (`RolloverPlainName`).
- **`WbLog.write` on the main thread.** The call at line 110 is spelt `startwith`, which Python strings do not have. The method therefore raises AttributeError before any text reaches the panel.
- **The progress callback during loading.** `loadCommitLogForRepository` and `loadCommitLogForFile` receive the progress callback but never pass it on. The load step therefore makes no progress calls, and `progress.end()` follows it directly.
- **An empty selection list in `selectionChangedFile`.** The handler updates the enable states before it tests whether the list is empty, and it looks up the first selected change without using it.

## Model

| member | source | states |
|---|---|---|
| `PackageWorkbench.ApplyOption` | Builder/package_workbench.py:150-174 | an argument is rejected with UnknownOption naming it exactly when it matches none of the seven option forms; an accepted option never changes the command, the repositories or the version |
| `PackageWorkbench.ApplyOptionFlags` | Builder/package_workbench.py:152-171 | `--debug`, `--verbose` and `--colour` turn on their flag, and any argument starting with `--install` turns on install, each changing nothing else |
| `PackageWorkbench.SelectRepos` | Builder/package_workbench.py:142-148 | a release command selects `tools` with `tools-testing` as the other repository, a testing command the reverse; any other command changes nothing; only the two repository fields are ever assigned |
| `PackageWorkbench.ParseOptions` | Builder/package_workbench.py:150-177 | the option loop ends without error exactly when every remaining argument is an option; an error names the first argument that is not one, all before it being options; the command and repositories pass through |
| `PackageWorkbench.ArgsParsed` | Builder/package_workbench.py:132-177 | fewer than two arguments end the parse without error or change; otherwise the command is stored even when invalid; an invalid one raises UnknownCommand and only then; a valid one selects two different repositories, `tools` exactly for the release commands, and parsing succeeds exactly when every later argument is an option |
| `PackageWorkbench.PrefixesExclusive` | Builder/package_workbench.py:161-168 | no argument carries two of the prefixes `--kit-xml-preferences=`, `--release=`, `--mock-target=` |
| `PackageWorkbench.ApplyOptionStores` | Builder/package_workbench.py:161-168 | an accepted argument with a value prefix stores exactly the text after the `=`, and leaves the other value options unchanged |
| `PackageWorkbench.LastValueOptionWins` | Builder/package_workbench.py:161-168 | after a successful parse, a value option holds the text of the last argument carrying its prefix |
| `PackageWorkbench.ValueOptionUntouched` | Builder/package_workbench.py:150-177 | a value option whose prefix is in no argument keeps its previous value |
| `PackageWorkbench.ClassifyLineCases` | Builder/package_workbench.py:80-88 | a line is blank iff it strips to nothing, a comment iff the stripped line starts with `#`, malformed iff neither holds and it has no `=`; a pair splits at the first `=` of the stripped line and the key and value are stripped |
| `PackageWorkbench.Classified` | Builder/package_workbench.py:79-80 | every line of the file is classified, in order: the i-th kind is ClassifyLine of the i-th line |
| `PackageWorkbench.Collect` | Builder/package_workbench.py:77-90 | building the dictionary can only fail with ValueError, the failed tuple unpacking |
| `PackageWorkbench.VersionInfo` | Builder/package_workbench.py:75-90 | readVersionInfo can only raise ValueError |
| `PackageWorkbench.VersionInfoSucceeds` | Builder/package_workbench.py:79-90 | readVersionInfo succeeds exactly when each stripped line is empty, starts with `#`, or holds an `=` |
| `PackageWorkbench.CollectSucceeds` | Builder/package_workbench.py:79-90 | the file is read without error exactly when no non-blank, non-comment line lacks an `=`; a line without one raises ValueError |
| `PackageWorkbench.CollectKeys` | Builder/package_workbench.py:79-90 | a key is in the dictionary exactly when some pair line defines it |
| `PackageWorkbench.CollectLastWins` | Builder/package_workbench.py:87-88 | a key holds the value of its last defining line; later duplicates overwrite earlier ones |
| `PackageWorkbench.VersionInfoPrefixError` | Builder/package_workbench.py:79-90 | once the lines read so far have raised an error, the whole file fails with that same error |
| `PackageWorkbench.VersionInfoStep` | Builder/package_workbench.py:79-88 | reading one more line adds exactly that line's kind to the dictionary built so far |
| `PackageWorkbench.Workbench.ReadVersionInfo` | Builder/package_workbench.py:75-90 | the line loop returns what the specification function VersionInfo gives |
| `PackageWorkbench.VersionStringSplits` | Builder/package_workbench.py:98 | when major and minor hold no dot, splitting the `%s.%s.%s` version string at its dots gives the three look-ups back |
| `PackageWorkbench.FirstVersionIdLine` | Builder/package_workbench.py:181-183 | the index found starts with `VERSION_ID=` and no earlier line does; -1 means no line does |
| `PackageWorkbench.FedoraVersion` | Builder/package_workbench.py:179-185 | fedoraVersion raises only BuildError or ValueError, and BuildError exactly when no line starts with `VERSION_ID=` |
| `PackageWorkbench.FedoraVersionFirstLine` | Builder/package_workbench.py:179-185 | BuildError exactly when no line starts with `VERSION_ID=`; otherwise int() of the first such stripped line after the prefix, ValueError when it is not a number |
| `PackageWorkbench.Workbench.ScanFedoraVersion` | Builder/package_workbench.py:179-185 | the loop with its early return gives what FedoraVersion gives |
| `PackageWorkbench.AutoRelease` | Builder/package_workbench.py:113-128 | fails exactly when one of the found releases raises, and then with ValueError; otherwise it exceeds both found releases and is one more than one of them |
| `PackageWorkbench.FoundRelease` | Builder/package_workbench.py:116-119 | 0 unless the listing holds the kit at the version being built; an error only then, and only ValueError; a found release is what int() reads before the first dot of the listed release |
| `PackageWorkbench.FoundReleaseReads` | Builder/package_workbench.py:116-119 | a listed release `<n>.<rest>` for the version being built gives n |
| `PackageWorkbench.FoundReleaseNonNegative` | Builder/package_workbench.py:116-125 | the release found in a listing is at least 0 unless the listed release starts with a minus sign |
| `PackageWorkbench.AutoReleasePositive` | Builder/package_workbench.py:113-128 | the automatic release is at least 1 when the first listing's release is not negative |
| `PackageWorkbench.VarsSetUp` | Builder/package_workbench.py:92-130 | only version, mock target and release are assigned; a version.dat that cannot be opened or read raises before anything changes; otherwise the version is `major.minor.patch` with `None` for a missing key; a given mock target is kept, a missing one becomes `fedora-<n>-<machine>` or fedoraVersion's error, including what opening /etc/os-release raised; a release other than `auto` is kept; `auto` becomes the AutoRelease of the two listings, which were then both fetched |
| `PackageWorkbench.DefaultMockTargetFields` | Builder/package_workbench.py:102-103 | the default target starts with `fedora-`, ends with `-` and the machine name, and int() of the text between reads back the Fedora release |
| `PackageWorkbench.VarsSetUpSucceeds` | Builder/package_workbench.py:92-130 | setupVars raises nothing exactly when version.dat reads, a mock target is given or fedoraVersion succeeds, and for `auto` both listings arrive and the release is computed |
| `PackageWorkbench.VarsSetUpInterrupted` | Builder/package_workbench.py:109-111 | setupVars raises KeyboardInterrupt exactly when it reaches the automatic release and the first listing, or the second after a successful first, is interrupted |
| `PackageWorkbench.ReleaseSetUp` | Builder/package_workbench.py:109-128 | only the release is assigned; it succeeds exactly when the release is not `auto` or both listings arrive and AutoRelease succeeds; it raises KeyboardInterrupt exactly when a listing fetch is interrupted; for `auto`, the first listing's exception, else the second's, escapes as it is, and a listed release int() cannot read raises ValueError |
| `PackageWorkbench.VarsSetUpReleaseFailure` | Builder/package_workbench.py:109-125 | once setupVars reaches the automatic release, a listing's exception escapes as it is, the first listing before the second, and an unreadable listed release raises ValueError, which main does not catch |
| `PackageWorkbench.VarsSetUpOpenFails` | Builder/package_workbench.py:92-103 | a version.dat that cannot be opened makes setupVars raise the open() error with nothing assigned; an /etc/os-release that cannot be opened, when no mock target was given, raises its open() error after only the version is set |
| `PackageWorkbench.Workbench.SetupVars` | Builder/package_workbench.py:92-130 | the method assigns the fields as VarsSetUp says, fetching the listings in order, and reports the same failure; so version text, default target and failure conditions are VarsSetUp's |
| `PackageWorkbench.Workbench.ParseArgs` | Builder/package_workbench.py:132-177 | the while loop leaves the fields as ArgsParsed says and raises the same error |
| `PackageWorkbench.Workbench.ApplyArg` | Builder/package_workbench.py:151-174 | one pass succeeds iff the argument is an option, assigns what ApplyOption gives, and on failure changes nothing |
| `PackageWorkbench.Workbench.constructor` | Builder/package_workbench.py:29-43 | the fresh object holds the initial attribute values, with the release `auto` |
| `PackageWorkbench.ActionFor` | Builder/package_workbench.py:54-64 | no build step runs exactly when the command is unset or not one of the eight valid commands |
| `PackageWorkbench.ExitFor` | Builder/package_workbench.py:66-73 | 0 iff nothing escaped the try block, 1 iff a BuildError did, 2 iff a KeyboardInterrupt did; any other exception escapes main as itself |
| `PackageWorkbench.MainExit` | Builder/package_workbench.py:45-73 | the exit status of main() on a fresh object is 0, 1 or 2; without Python 3 it is 1, or IndexError when there is no argv[0] to name |
| `PackageWorkbench.MainFrom` | Builder/package_workbench.py:45-73 | under Python 3: 0 iff parseArgs and setupVars raise nothing and no step runs or the step completes; 1 iff parseArgs raises, setupVars raises BuildError, or the step runs and raises BuildError; 2 iff setupVars or the step raises KeyboardInterrupt; any other exception of setupVars or the step escapes as itself |
| `PackageWorkbench.MainExitCodes` | Builder/package_workbench.py:45-73 | on a fresh object: 0 iff parsing and setupVars succeed and either there is no command or its step completes; 1 iff a BuildError comes from parseArgs, setupVars or the step; a crash iff setupVars or the step raises another exception |
| `PackageWorkbench.CommandSelectsStep` | Builder/package_workbench.py:54-64 | after a clean parse from the initial settings, a build step runs exactly when argv holds a command |
| `PackageWorkbench.MainExitInterrupted` | Builder/package_workbench.py:45-67 | status 2 iff, under Python 3 and after a clean parse, setupVars raises KeyboardInterrupt or the step of a given command does |
| `PackageWorkbench.MainExitOpenFails` | Builder/package_workbench.py:40-72 | after a clean parse under Python 3, a version.dat that cannot be opened ends the script with that exception, since main catches only KeyboardInterrupt and BuildError |
| `PackageWorkbench.MainExitInterruptedWithoutCommand` | Builder/package_workbench.py:40-111 | with only the program name, the release is still `auto`, so an interrupted listing exits with 2 |
| `PackageWorkbench.MainExitRejectsArguments` | Builder/package_workbench.py:69-71 | an invalid command, or a later argument that is not an option, gives exit status 1 |
| `PackageWorkbench.Workbench.RunMain` | Builder/package_workbench.py:45-73 | the method's exit status is MainFrom of the object's state on entry, whose exit codes and crashes are stated stage by stage |
| `PackageWorkbench.RunScript` | Builder/package_workbench.py:412-413 | the script exits with MainExit: main() on a freshly constructed object, with the outcomes of MainFrom, MainExitCodes and MainExitInterrupted |
| `PackageWorkbench.SplitAge` | Builder/package_workbench.py:273-276 | days = age div 86400, hours = (age div 3600) mod 24 and minutes = (age div 60) mod 60, with floor division; together with the discarded seconds they rebuild the age |
| `PackageWorkbench.FormatTimeDelta` | Builder/package_workbench.py:273-278 | the text is at least ten characters: the days right-justified in at least three columns, then `d `, the hours as exactly two digits, `:`, and the minutes as exactly two digits |
| `PackageWorkbench.FormatTimeDeltaRoundTrip` | Builder/package_workbench.py:273-278 | reading the formatted text back gives exactly the days, hours and minutes of the age |
| `PackageWorkbench.ExpandMockCfgVars` | Builder/package_workbench.py:318-322 | a missing key or missing `releasever` raises KeyError; otherwise the value is the key's text with every `{{ releasever }}` replaced, and it is returned exactly when it has no `{{`, else the assertion fails; a value without `{{` comes back unchanged |
| `PackageWorkbench.ExpandOnePlaceholder` | Builder/package_workbench.py:318-322 | a value `a{{ releasever }}b` with no `{{` in a or b expands to a, the release version, b, unless that text holds `{{` |
| `PackageWorkbench.PlaceholderReplaced` | Builder/package_workbench.py:320 | replace puts the release version in place of the one placeholder |
| `PackageWorkbench.ReplaceAfterFreePrefix` | Builder/package_workbench.py:320 | no placeholder starts inside leading text without `{{`, so that text is kept in front |
| `PackageWorkbench.ExpandFedoraDist` | Builder/package_workbench.py:318-322 | `.fc{{ releasever }}` with release version `38` expands to `.fc38` |
| `PackageWorkbench.NotContainsLonger` | Builder/package_workbench.py:320-321 | a text without `{{` has no `{{ releasever }}` either |
| `PackageWorkbench.MockConfigVars` | Builder/package_workbench.py:324-327 | a missing `target_arch` raises KeyError; otherwise the result is `target_arch` with the expanded `dist`, or exactly the error that expanding `dist` raised |
| `PackageWorkbench.ConfKey` | Builder/package_workbench.py:334-341 | `yum.conf` whenever present, otherwise `dnf.conf` when present, otherwise AssertionError and only then |
| `PackageWorkbench.MockTargetConfig` | Builder/package_workbench.py:334-351 | fails exactly when there is no section to extend; otherwise it adds only `root`, extends the chosen section by a newline and the repo text (RepoText), sets `root` from the target file name, and leaves the other entries alone |
| `PackageWorkbench.RepoText` | Builder/package_workbench.py:346-347 | the repo text is kept for a target not starting with `epel-`, and also when it has no fedora path to rewrite |
| `PackageWorkbench.RepoTextEpel` | Builder/package_workbench.py:346-347 | for an epel target, a repo text `a + path + b` in which no occurrence of the fedora path starts inside `a` and `b` holds none has it replaced at that place by the epel path, with `a` and `b` kept |
| `PackageWorkbench.RootOfTarget` | Builder/package_workbench.py:351 | the root of `tmp/<stem>.cfg` is the stem |
| `PackageWorkbench.MockRootName` | Builder/package_workbench.py:330-351 | the root is the kit name, repository and mock target joined by dashes |
| `PyText.Strip` | Builder/package_workbench.py:80 | str.strip(): never longer than the line, no whitespace left at either end, and empty exactly when the line is all whitespace |
| `PyText.SplitAtFirst` | Builder/package_workbench.py:87 | splitting `a=b` at the first `=` when a holds none gives a and b back; the same for the part before the first `.` |
| `PyText.PyInt` | Builder/package_workbench.py:119 | a text int() accepts is non-empty after stripping and has only digits after its first character; a negative result needs a leading minus; plain digits read as their value |
| `PyText.PyIntAccepts` | Builder/package_workbench.py:119 | int() accepts exactly a stripped text that is a digit or a sign with a digit after it, followed by digits only; `-n` reads as minus n's digits, `+n` and plain digits as their value |
| `PyText.DecimalText` | Builder/package_workbench.py:103 | `%d` writes a leading minus exactly for a negative number, and digits everywhere else |
| `PyText.PyIntDecimalText` | Builder/package_workbench.py:103 | int() reads back exactly the number that `%d` wrote |
| `PyText.ReplaceAll` | Builder/package_workbench.py:347 | str.replace with a pattern that does not occur returns the text unchanged |
| `PyText.ReplaceAfterUnmatched` | Builder/package_workbench.py:347 | text in front at none of whose positions an occurrence of the pattern starts is kept in front of the replaced rest |
| `PyText.ReplaceAfterFree` | Builder/package_workbench.py:347 | text in front that holds no character that begins the pattern is kept in front of the replaced rest |
| `PyText.ReplaceAtFront` | Builder/package_workbench.py:347 | an occurrence at the front becomes the replacement, followed by the replaced rest |
| `PyText.ReplaceIntroduces` | Builder/package_workbench.py:320-321 | when the pattern occurs, whatever the replacement contains shows up in the result |
| `PyText.Splitext` | Builder/package_workbench.py:351 | os.path.splitext: root and extension rebuild the path; the extension is empty or a dot followed by neither a dot nor a slash |
| `PyText.Basename` | Builder/package_workbench.py:351 | os.path.basename: a suffix of the path that holds no slash |
| `PyText.BasenameAfterLastSlash` | Builder/package_workbench.py:351 | the base name of `dir/name` is name when name has no slash |
| `PyText.SplitextExtension` | Builder/package_workbench.py:351 | splitext takes `.ext` off `stem.ext` when stem has no slash and does not start with a dot |
| `PyText.PyIndex` | Source/Hg/wb_hg_log_history_view.py:415-416 | Python list indexing: defined exactly for -len <= i < len, counting from the front for a non-negative index and from the end for a negative one |
| `WbLogging.PanelTextAppend` | Source/Common/wb_logging.py:190-199 | inserting at the end extends the panel text by exactly the inserted text |
| `WbLogging.LogTextWidget.constructor` | Source/Common/wb_logging.py:177-188 | a new panel is empty |
| `WbLogging.LogTextWidget.WriteStyledText` | Source/Common/wb_logging.py:190-217 | one styled run is appended at the end, and the panel text grows by the text |
| `WbLogging.LogTextWidget.ClearText` | Source/Common/wb_logging.py:219-220 | the panel becomes empty |
| `WbLogging.RouteStyle` | Source/Common/wb_logging.py:141-157 | critical iff level ≥ 50, error iff 40 ≤ level < 50 or level < 10, warning iff 30 ≤ level < 40, info iff 20 ≤ level < 30, debug iff 10 ≤ level < 20; never the normal style |
| `WbLogging.RouteStyleMonotone` | Source/Common/wb_logging.py:141-154 | from DEBUG up, a higher level never gets a less severe style |
| `WbLogging.LogHandler.constructor` | Source/Common/wb_logging.py:133-135 | the handler writes to the given panel |
| `WbLogging.LogHandler.Emit` | Source/Common/wb_logging.py:137-157 | exactly one run is appended: the formatted record plus a newline, in the routed style |
| `WbLogging.WbLog.constructor` | Source/Common/wb_logging.py:83-85 | the log owns the given panel and no write is pending |
| `WbLogging.WbLog.Write` | Source/Common/wb_logging.py:104-110 | off the main thread the call is handed to the foreground and returns; on the main thread AttributeError is raised; the panel is untouched either way |
| `WbLogging.WbLog.ClearLog` | Source/Common/wb_logging.py:100-101 | the panel becomes empty |
| `WbLogging.SetupLogging` | Source/Common/wb_logging.py:31-66 | the trace logger is `<name>.Trace`; the log passes exactly the levels from DEBUG when debug is on and from INFO otherwise; the trace passes exactly the levels from INFO when trace is on and from CRITICAL otherwise, so WARNING and ERROR are suppressed; the first log handler is a rotating file in mode `a` of 102400 bytes with 10 backups; stdout handlers exactly on request; each start-up message is logged iff its switch is on |
| `WbLogging.BackupNameFields` | Source/Common/wb_logging.py:264-265 | backup i is the prefix, a dot, the index that int() reads back, and the suffix |
| `WbLogging.BackupNameInjective` | Source/Common/wb_logging.py:264-265 | different indexes give different backup names |
| `WbLogging.NextBackupDiffers` | Source/Common/wb_logging.py:264-265 | a backup is never renamed onto itself |
| `WbLogging.BaseIsNoBackup` | Source/Common/wb_logging.py:262-265 | no backup name rebuilds the split base name |
| `WbLogging.ShiftStepEffect` | Source/Common/wb_logging.py:264-270 | when backup i exists it is moved onto backup i+1, replacing it, and is gone; otherwise nothing changes; no other file is touched; no contents are invented |
| `WbLogging.ShiftFromContents` | Source/Common/wb_logging.py:263-270 | the loop only moves contents between files: every file afterwards holds contents some file held before |
| `WbLogging.ShiftFromEffect` | Source/Common/wb_logging.py:263-270 | after the descending loop, backup k+1 holds what backup k held (or is gone when k did not exist), backup 1 is gone, the highest backup keeps its own contents when the one below did not exist, and every other file is untouched |
| `WbLogging.ShiftFromMoves` | Source/Common/wb_logging.py:263-270 | after the loop, each backup k+1 below the top holds what backup k held, and exists exactly when backup k did |
| `WbLogging.ShiftKeepsBase` | Source/Common/wb_logging.py:262-270 | the shifting loop never touches the base file |
| `WbLogging.RolloverFiles` | Source/Common/wb_logging.py:255-276 | after a rollover the base file exists and is empty |
| `WbLogging.RolloverKeepsNewest` | Source/Common/wb_logging.py:271-274 | with backups, `base.1` holds the former contents of the base file |
| `WbLogging.RolloverWithoutBackups` | Source/Common/wb_logging.py:255-276 | with no backups, nothing is renamed or removed; the base file is only truncated |
| `WbLogging.RolloverOtherFiles` | Source/Common/wb_logging.py:271-276 | apart from the base file and `base.1`, a rollover leaves what the shifting loop left |
| `WbLogging.RolloverPlainName` | Source/Common/wb_logging.py:262-276 | for a base name without an extension, `base.k+1` holds what `base.k` held |
| `WbLogging.RolloverLosesBackup` | Source/Common/wb_logging.py:262-274 | for `stem.ext`, two rollovers leave only the base file and `base.1` holding the second log: the first log is lost |
| `WbLogging.RolloverOnlyNewest` | Source/Common/wb_logging.py:262-276 | with at most `stem.ext` and `stem.ext.1` present, a rollover leaves exactly those two: an empty base file and `stem.ext.1` holding the old log |
| `WbLogging.ExtensionNamesUnindexed` | Source/Common/wb_logging.py:262-265 | `stem.ext` and `stem.ext.1` are not backup names of the split prefix |
| `WbLogging.RolloverWithoutIndexedFiles` | Source/Common/wb_logging.py:263-276 | without shifted names present, a rollover only moves the base file to `base.1` and truncates it |
| `WbLogging.NoBackupsShiftNothing` | Source/Common/wb_logging.py:263-270 | without shifted names present, the loop changes nothing |
| `WbLogging.EmitFiles` | Source/Common/wb_logging.py:278-297 | the base file exists after an emit |
| `WbLogging.EmitRollsOver` | Source/Common/wb_logging.py:285-297 | with a positive limit, a rollover happens exactly when size plus message reaches the limit or the stream is unusable; the record is appended either way; after a rollover `base.1` holds the old log |
| `WbLogging.EmitWithoutLimit` | Source/Common/wb_logging.py:285-297 | without a positive limit no file is renamed, removed or truncated, and the record is appended when the stream is usable |
| `WbLogging.EmitStaysBelowLimit` | Source/Common/wb_logging.py:285-297 | with records shorter than a positive limit, the log file stays below the limit |
| `WbLogging.EffectiveMode` | Source/Common/wb_logging.py:252-253 | a positive limit forces mode `a`; otherwise the requested mode stays |
| `WbLogging.OpenFiles` | Source/Common/wb_logging.py:249 | opening creates the base file, truncates it in mode `w` and keeps it in mode `a` |
| `WbLogging.RotatingFileHandler.constructor` | Source/Common/wb_logging.py:228-253 | the handler keeps name, limit and count, opens the file, and has the effective mode |
| `WbLogging.RotatingFileHandler.DoRollover` | Source/Common/wb_logging.py:255-276 | the loop leaves the files as RolloverFiles says, and the mode is kept |
| `WbLogging.RotatingFileHandler.Emit` | Source/Common/wb_logging.py:278-297 | the files become what EmitFiles says |
| `HgLogHistoryView.HeaderValue` | Source/Hg/wb_hg_log_history_view.py:315-326 | horizontal display gives the translated title (IndexError past the titles); vertical display gives `''`; horizontal alignment gives AlignLeft; all else None |
| `HgLogHistoryView.LogHistoryModel.HeaderData` | Source/Hg/wb_hg_log_history_view.py:275-326 | the titles are Author, Date and Message; only a section outside them fails |
| `HgLogHistoryView.ChangedFilesModel.HeaderData` | Source/Hg/wb_hg_log_history_view.py:375-413 | the titles are Action, Filename and Copied from; only a section outside them fails |
| `HgLogHistoryView.FirstLine` | Source/Hg/wb_hg_log_history_view.py:348 | the message column is the prefix of the message before its first newline, the whole message when there is none |
| `HgLogHistoryView.LogHistoryModel.constructor` | Source/Hg/wb_hg_log_history_view.py:282-289 | a new model holds no commits |
| `HgLogHistoryView.LogHistoryModel.Load` | Source/Hg/wb_hg_log_history_view.py:291-299 | the list is replaced wholesale, and the row count is its length |
| `HgLogHistoryView.LogHistoryModel.RowCount` | Source/Hg/wb_hg_log_history_view.py:309-310 | the number of loaded commits |
| `HgLogHistoryView.LogHistoryModel.ColumnCount` | Source/Hg/wb_hg_log_history_view.py:312-313 | three columns, one per title |
| `HgLogHistoryView.LogHistoryModel.CommitNodeAt` | Source/Hg/wb_hg_log_history_view.py:328-329 | a row inside the list gives its node; IndexError exactly outside Python's index range |
| `HgLogHistoryView.LogHistoryModel.RevisionForRow` | Source/Hg/wb_hg_log_history_view.py:301-303 | the revision of the row's node, failing exactly where commitNode fails |
| `HgLogHistoryView.LogHistoryModel.DateStringForRow` | Source/Hg/wb_hg_log_history_view.py:305-307 | the formatted date of the row's node, failing exactly where commitNode fails |
| `HgLogHistoryView.LogHistoryModel.Data` | Source/Hg/wb_hg_log_history_view.py:331-352 | UserRole gives the node; DisplayRole gives the author, the formatted date or the first message line for columns 0-2 and fails the assertion for any other; a missing row raises IndexError; other roles give None |
| `HgLogHistoryView.CopyFrom` | Source/Hg/wb_hg_log_history_view.py:423-439 | `''` exactly for A, D and M, None for every other action |
| `HgLogHistoryView.ChangedFilesModel.constructor` | Source/Hg/wb_hg_log_history_view.py:382-389 | a new model holds no changes |
| `HgLogHistoryView.ChangedFilesModel.LoadChanges` | Source/Hg/wb_hg_log_history_view.py:391-394 | the list is replaced wholesale, and the row count is its length |
| `HgLogHistoryView.ChangedFilesModel.RowCount` | Source/Hg/wb_hg_log_history_view.py:396-397 | the number of loaded changes |
| `HgLogHistoryView.ChangedFilesModel.ColumnCount` | Source/Hg/wb_hg_log_history_view.py:399-400 | three columns, one per title |
| `HgLogHistoryView.ChangedFilesModel.ChangesNode` | Source/Hg/wb_hg_log_history_view.py:415-416 | a row inside the list gives its change; an error exactly outside Python's index range, and it is IndexError |
| `HgLogHistoryView.ChangedFilesModel.Data` | Source/Hg/wb_hg_log_history_view.py:418-443 | UserRole gives the change; DisplayRole gives the action, the path or the copy source for columns 0-2 and fails the assertion for any other; a missing row raises IndexError; other roles give None |
| `HgLogHistoryView.ProgressCalls` | Source/Hg/wb_hg_log_history_view.py:58-64 | nothing when the total is not positive; start with the total on count 0; one event otherwise |
| `HgLogHistoryView.ProgressRunCounts` | Source/Hg/wb_hg_log_history_view.py:58-64 | reporting counts 0 to k with a positive total starts the indicator once and then counts k events |
| `HgLogHistoryView.ProgressRunSilent` | Source/Hg/wb_hg_log_history_view.py:59 | with a total that is not positive, no callback touches the indicator |
| `HgLogHistoryView.ProgressIndicator.constructor` | Source/Hg/wb_hg_log_history_view.py:58-64 | no call has been made on a new indicator |
| `HgLogHistoryView.ProgressIndicator.LogHistoryProgress` | Source/Hg/wb_hg_log_history_view.py:58-64 | the callback adds exactly the calls ProgressCalls gives |
| `HgLogHistoryView.Column0Rows` | Source/Hg/wb_hg_log_history_view.py:226 | a row is kept exactly when some selected cell in column 0 has it; never more rows than cells |
| `HgLogHistoryView.Column0RowsAppend` | Source/Hg/wb_hg_log_history_view.py:226 | the comprehension keeps selection order: the rows of a concatenation are the rows of each part in turn |
| `HgLogHistoryView.Column0RowsOne` | Source/Hg/wb_hg_log_history_view.py:226 | one cell contributes its row exactly when it lies in column 0 |
| `HgLogHistoryView.Column0RowsFirst` | Source/Hg/wb_hg_log_history_view.py:246-252 | the first row is that of the first selected cell in column 0 |
| `HgLogHistoryView.Insert` | Source/Hg/wb_hg_log_history_view.py:232 | insertion adds one element |
| `HgLogHistoryView.InsertElements` | Source/Hg/wb_hg_log_history_view.py:232 | insertion adds exactly the inserted element to the multiset |
| `HgLogHistoryView.InsertSorted` | Source/Hg/wb_hg_log_history_view.py:232 | insertion keeps a sorted list sorted |
| `HgLogHistoryView.ConsSorted` | Source/Hg/wb_hg_log_history_view.py:232 | a bound placed in front of a sorted list keeps it sorted |
| `HgLogHistoryView.Sort` | Source/Hg/wb_hg_log_history_view.py:232 | sorting keeps the length |
| `HgLogHistoryView.SortSpec` | Source/Hg/wb_hg_log_history_view.py:232 | the sorted list is ascending and a permutation of the rows |
| `HgLogHistoryView.SortFirstIsMinimum` | Source/Hg/wb_hg_log_history_view.py:232-234 | the first sorted row is a selected row no larger than any other |
| `HgLogHistoryView.CommandStepsOrder` | Source/Hg/wb_hg_log_history_view.py:192-223 | a loading command assigns the file name and project once, as its first step and on the foreground, before the switch to the background, the load and every widget step, all widget steps staying on the foreground |
| `HgLogHistoryView.LoadStepsOrder` | Source/Hg/wb_hg_log_history_view.py:196-206 | the load runs on the background thread; no widget step precedes it; every widget step after it runs on the foreground thread |
| `HgLogHistoryView.GuiOnForegroundAppend` | Source/Hg/wb_hg_log_history_view.py:191-223 | joining two traces that touch widgets only from the foreground keeps that property |
| `HgLogHistoryView.LogHistoryView.constructor` | Source/Hg/wb_hg_log_history_view.py:69-84 | the window starts on the foreground with no project, file, selection, changeset id, message or steps, and empty models |
| `HgLogHistoryView.LogHistoryView.Record` | Source/Hg/wb_hg_log_history_view.py:202-206 | one step that assigns no field is recorded on the current thread; nothing else changes |
| `HgLogHistoryView.LogHistoryView.AssignFields` | Source/Hg/wb_hg_log_history_view.py:192-211 | the file name and project take the given values, the other fields and the thread keep theirs, and the assignment is recorded on the current thread |
| `HgLogHistoryView.LogHistoryView.SwitchTo` | Source/Hg/wb_hg_log_history_view.py:196-200 | the thread switches, and the switch is recorded on the thread it left |
| `HgLogHistoryView.LogHistoryView.LoadAcrossThreads` | Source/Hg/wb_hg_log_history_view.py:196-206 | the steps are the switch, the background load, the switch back, then resize, progress end, enable states and show on the foreground; the log holds the commits |
| `HgLogHistoryView.LogHistoryView.ShowCommitLogForRepositoryBg` | Source/Hg/wb_hg_log_history_view.py:191-206 | the file name is cleared and the project set, and the selections, changeset id and message keep their values; the trace grows by CommandSteps, so the assignment is recorded on the foreground before the switch, the load and the widget steps; widgets are touched only from the foreground |
| `HgLogHistoryView.LogHistoryView.ShowCommitLogForFileBg` | Source/Hg/wb_hg_log_history_view.py:208-223 | the file name and project are set, and the selections, changeset id and message keep their values; the trace grows by CommandSteps, with the assignment recorded on the foreground before the switch, the load and the widget steps |
| `HgLogHistoryView.LogHistoryView.SelectionChangedCommit` | Source/Hg/wb_hg_log_history_view.py:225-244 | the selection is the column-0 rows, sorted when there are any; an empty one only updates the enable states; otherwise the first (smallest) row's node sets the changeset id to its `%d` revision, the message and the changed files, and the file name, project and file selection keep their values; a row outside the list raises IndexError before anything changes |
| `HgLogHistoryView.LogHistoryView.SelectionChangedFile` | Source/Hg/wb_hg_log_history_view.py:246-252 | the selection is the column-0 rows in selection order; the enable states are always updated; an exception is raised exactly when the first selected row is outside the change list, and it is IndexError; the file name, project, commit selection, changeset id and message keep their values |

## Left out

- Subprocess steps of the packaging script are not modelled as processes; they are external-process I/O. This covers `buildSrpm`, `buildMock`, `buildCopr`, `makeTarBall`, `makeSrpm` and `ensureMockSetup` (mock, copr-cli, git, tar, rpm, dnf and file copies). Their combined effect on `main` is the `buildOutcome` the caller hands in: nothing raised, a BuildError, a KeyboardInterrupt, or any other exception, which escapes main. The KeyError, AssertionError and ValueError that MockConfigVars, ConfKey and ExpandMockCfgVars describe are among those other exceptions, but the model does not derive the build step's outcome from them.
- KeyboardInterrupt is modelled only where the script waits on the outside world: the two repository listings of `setupVars` and the build step. An interrupt while version.dat or /etc/os-release is read is not modelled.
- The parsing of mock configuration files that `readMockConfig` runs with `exec` is not modelled: it runs foreign code. The resulting `config_opts` is an input map. Writing the target file and setting its time stamps are file I/O.
- `package_list_repo.listRepo` is not modelled, because it is a network fetch. Each listing is an input: the map it returns, or the exception it raised.
- `listCopr` is not modelled: its printing, the clock and `strftime` are I/O. Only its `formatTimeDelta` is modelled.
- `log.info` and `log.error` messages of the packaging script are not modelled, nor `log.setColour` and `log.setDebug`. `--debug` is recorded as a flag. The message at line 126 prints `package_ver` where the other repository's release is meant, and this affects only that log line.
- `os.path.abspath('..')`, the `MOCK_COPR_REPO_FILENAME` and URL strings, and the reading of the repo file are not modelled. MockTargetConfig receives the repo file's text.
- PackageWorkbench.FormatTimeDelta: the age is an integer number of seconds, where the source passes the float `time.time() - build_time`. The divmod steps floor, so days, hours and minutes depend only on the floor of the age, which is what the model takes.
- The `baseFilename` of RotatingFileHandler is the name as given. logging.FileHandler stores `os.path.abspath(filename)`, which the model does not compute, because it depends on the working directory.
- `int()` differences: Unicode digits and `_` separators, which `int()` also accepts, are not modelled. PyText accepts ASCII digits with an optional sign and surrounding whitespace.
- Qt rendering is not modelled: character formats, colours, cursors, layouts and toolbars. The panel is the sequence of styled runs.
- `T_`, `U_` and the application's `formatDatetime` with its time zone handling are not modelled. Header titles appear as `Translated(title)` and dates as `FormattedDate(date)`.
- `thread_switcher` and its dispatcher, `deferRunInForeground` and `foregroundProcess` are not modelled; their code is not part of this model. Only the order and thread of the visible steps is modelled. Deferred writes of `WbLog.write` are kept as a queue that nothing drains.
- `WbLog.write`'s prefix dispatch (lines 110-123) and the stdout copy (lines 125-126) are not modelled, because line 110 always raises AttributeError before either is reached.
- Redirection of `sys.stdin`, `sys.stdout` and `sys.stderr` in `WbLog.__init__` and `StdoutLogHandler` are not modelled, because they are stream I/O.
- Record formatting (`asctime`, `levelname`) and logger propagation are not modelled. Handlers see a record as its formatted text and level.
- File contents are strings, and a file's size is its length in characters, not bytes.
- Only open modes `a` and `w` are modelled.
- Other failures of the log file are Python's own and are not modelled: a failed rename or open, and errors other than the closed-stream ValueError.
- A failed open() of version.dat or /etc/os-release is the exception the environment gives for that file, `OSError` standing for FileNotFoundError, PermissionError and the other subclasses; main does not catch it. Errors while reading after a successful open are not modelled.
- `hg_project.cmdCommitLogForRepository` and `cmdCommitLogForFile` are not modelled. They call Mercurial, and their results are the `commits` parameter. The `options` limits are therefore not modelled.
- Qt widget calls of the history window are recorded as steps, not modelled: resize, progress end, the enable-state update and show. The changeset id and message widgets are the fields they show.
- `beginResetModel`/`endResetModel` are not recorded as steps of their own. They are part of the `LoadLog` step, which runs on the background thread as in the source. `IsGuiStep` does not count that model reset as a widget step, so GuiOnForeground does not claim that the reset runs on the GUI thread.
- `Source/Hg/wb_hg_ui_components.py` is not part of this model: it is menu and toolbar wiring.
- PackageWorkbench.AutoReleasePositive: this needs the first listing's release head not to be negative. `int()` accepts a leading minus sign, so the source's "at least 1" holds only for such listings.
- WbLogging.RolloverPlainName: it covers backups 2 to backupCount-1. The top backup and the files the shift never names follow from ShiftFromEffect.
