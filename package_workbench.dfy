/**
 * The sequential logic of the packaging script Builder/package_workbench.py:
 * its hand-written command-line parser, the reader of the `key=value`
 * version file, the scan of /etc/os-release, the automatic release number,
 * the mock configuration checks, the time-delta formatting and the exit
 * codes of main().
 *
 * Files become sequences of lines, the package listings fetched from the
 * copr repositories become maps, and the external build steps (mock, copr,
 * rpm, git, tar) become a single outcome handed in by the caller.
 */
module PackageWorkbench {
  import opened Wrappers
  import opened PyText

  const KitName: string := "scm-workbench"

  const ValidCommands: seq<string> :=
    ["srpm-release", "srpm-testing", "mock-release", "mock-testing",
     "copr-release", "copr-testing", "list-release", "list-testing"]

  /** The commands that build against the `tools` copr repository. */
  const ReleaseCommands: seq<string> := ["srpm-release", "mock-release", "list-release", "copr-release"]

  /** The commands that build against the `tools-testing` copr repository. */
  const TestingCommands: seq<string> := ["srpm-testing", "mock-testing", "list-testing", "copr-testing"]

  const KitXmlPrefix: string := "--kit-xml-preferences="
  const ReleasePrefix: string := "--release="
  const MockTargetPrefix: string := "--mock-target="
  const VersionIdPrefix: string := "VERSION_ID="
  const ReleaseVerPlaceholder: string := "{{ releasever }}"
  const FedoraRepoPath: string := "/fedora-$releasever-$basearch/"
  const EpelRepoPath: string := "/epel-$releasever-$basearch/"

  /** The distinct reasons the script raises BuildError. */
  datatype BuildError =
    | RequiresPython3
    | UnknownCommand(command: string)
    | UnknownOption(option: string)
    | MissingVersionId

  /**
   * What escapes a step: a BuildError, which main() reports; a
   * KeyboardInterrupt, which main() turns into exit status 2; or any other
   * exception, which main() does not catch.
   */
  datatype Failure = Build(error: BuildError) | Interrupt | Uncaught(exception: PyError)

  /** opt_release holds text until setupVars replaces `auto` by a number. */
  datatype Release = ReleaseText(text: string) | ReleaseNumber(number: int)

  /** The attributes of a PackageWorkbench object that parseArgs and setupVars assign. */
  datatype Settings = Settings(
    cmd: Option<string>,
    coprRepo: Option<string>,
    coprRepoOther: Option<string>,
    colour: bool,
    verbose: bool,
    logDebug: bool,           // the build log's debug flag, which `--debug` turns on
    kitXmlPreferences: Option<string>,
    release: Release,
    mockTarget: Option<string>,
    install: bool,
    version: Option<string>)  // None until setupVars has read the version file

  /** The attribute values __init__ gives. */
  const InitialSettings: Settings :=
    Settings(None, None, None, false, false, false, None, ReleaseText("auto"), None, false, None)

  // ---------------------------------------------------------------- parseArgs

  /** The settings after a parse, and the BuildError it raised, if any. */
  datatype Parsed = Parsed(settings: Settings, error: Option<BuildError>)

  /** An argument after the command that one of the option branches accepts. */
  predicate IsOption(arg: string) {
    arg == "--debug" || arg == "--verbose" || arg == "--colour"
    || StartsWith(arg, KitXmlPrefix) || StartsWith(arg, ReleasePrefix)
    || StartsWith(arg, MockTargetPrefix) || StartsWith(arg, "--install")
  }

  /** The copr repositories a valid command selects. */
  function SelectRepos(s: Settings, command: string): (r: Settings)
    ensures command in ReleaseCommands ==> r.coprRepo == Some("tools") && r.coprRepoOther == Some("tools-testing")
    ensures command in TestingCommands ==> r.coprRepo == Some("tools-testing") && r.coprRepoOther == Some("tools")
    ensures command !in ReleaseCommands && command !in TestingCommands ==> r == s
    ensures r.(coprRepo := s.coprRepo, coprRepoOther := s.coprRepoOther) == s
  {
    if command in ReleaseCommands then s.(coprRepo := Some("tools"), coprRepoOther := Some("tools-testing"))
    else if command in TestingCommands then s.(coprRepo := Some("tools-testing"), coprRepoOther := Some("tools"))
    else s
  }

  /** One pass of the option loop: the branches in the order the source tests them. */
  function ApplyOption(s: Settings, arg: string): (r: Result<Settings, BuildError>)
    ensures r.Err? <==> !IsOption(arg)
    ensures r.Err? ==> r.error == UnknownOption(arg)
    ensures r.Ok? ==> r.value.cmd == s.cmd && r.value.coprRepo == s.coprRepo
                      && r.value.coprRepoOther == s.coprRepoOther && r.value.version == s.version
  {
    if arg == "--debug" then Ok(s.(logDebug := true))
    else if arg == "--verbose" then Ok(s.(verbose := true))
    else if arg == "--colour" then Ok(s.(colour := true))
    else if StartsWith(arg, KitXmlPrefix) then Ok(s.(kitXmlPreferences := Some(arg[|KitXmlPrefix|..])))
    else if StartsWith(arg, ReleasePrefix) then Ok(s.(release := ReleaseText(arg[|ReleasePrefix|..])))
    else if StartsWith(arg, MockTargetPrefix) then Ok(s.(mockTarget := Some(arg[|MockTargetPrefix|..])))
    else if StartsWith(arg, "--install") then Ok(s.(install := true))
    else Err(UnknownOption(arg))
  }

  /** The flag options turn their attribute on, whatever else the argument holds after `--install`. */
  lemma ApplyOptionFlags(s: Settings, arg: string)
    ensures arg == "--debug" ==> ApplyOption(s, arg) == Ok(s.(logDebug := true))
    ensures arg == "--verbose" ==> ApplyOption(s, arg) == Ok(s.(verbose := true))
    ensures arg == "--colour" ==> ApplyOption(s, arg) == Ok(s.(colour := true))
    ensures StartsWith(arg, "--install") ==> ApplyOption(s, arg) == Ok(s.(install := true))
  {
    if StartsWith(arg, "--install") {
      assert arg[2] == 'i' by { assert arg[..9] == "--install"; }
      assert !StartsWith(arg, KitXmlPrefix) by { assert KitXmlPrefix[2] == 'k'; }
      assert !StartsWith(arg, ReleasePrefix) by { assert ReleasePrefix[2] == 'r'; }
      assert !StartsWith(arg, MockTargetPrefix) by { assert MockTargetPrefix[2] == 'm'; }
    }
  }

  /** The option loop: it stops at the first unknown option, or without error when the arguments run out. */
  function ParseOptions(s: Settings, args: seq<string>): (r: Parsed)
    ensures r.settings.cmd == s.cmd && r.settings.coprRepo == s.coprRepo
            && r.settings.coprRepoOther == s.coprRepoOther && r.settings.version == s.version
    ensures r.error == None <==> forall k :: 0 <= k < |args| ==> IsOption(args[k])
    ensures r.error.Some? ==>
              exists k :: 0 <= k < |args| && !IsOption(args[k]) && (forall j :: 0 <= j < k ==> IsOption(args[j]))
                          && r.error == Some(UnknownOption(args[k]))
    decreases |args|
  {
    if args == [] then Parsed(s, None)
    else match ApplyOption(s, args[0])
      case Err(e) => Parsed(s, Some(e))
      case Ok(s') =>
        var r := ParseOptions(s', args[1..]);
        assert forall k :: 1 <= k < |args| ==> args[1..][k - 1] == args[k];
        assert r.error.Some? ==> exists k :: 1 <= k < |args| && !IsOption(args[k]) && (forall j :: 0 <= j < k ==> IsOption(args[j]))
                                             && r.error == Some(UnknownOption(args[k])) by {
          if r.error.Some? {
            var k' :| 0 <= k' < |args| - 1 && !IsOption(args[1..][k'])
                      && (forall j :: 0 <= j < k' ==> IsOption(args[1..][j])) && r.error == Some(UnknownOption(args[1..][k']));
            assert forall j :: 0 <= j < k' + 1 ==> IsOption(args[j]) by {
              forall j | 0 <= j < k' + 1 ensures IsOption(args[j]) {
                if j > 0 { assert args[1..][j - 1] == args[j]; }
              }
            }
          }
        }
        r
  }

  /**
   * parseArgs: argv[0] is the program; argv[1] is stored as the command
   * before it is checked; running out of arguments ends the parse without
   * error, even before any command.
   */
  function ArgsParsed(s: Settings, argv: seq<string>): (r: Parsed)
    ensures |argv| < 2 ==> r == Parsed(s, None)
    ensures |argv| >= 2 ==> r.settings.cmd == Some(argv[1])
    ensures |argv| >= 2 && argv[1] !in ValidCommands ==> r.error == Some(UnknownCommand(argv[1]))
    ensures (r.error.Some? && r.error.value.UnknownCommand?) ==> |argv| >= 2 && argv[1] !in ValidCommands
    ensures |argv| >= 2 && argv[1] in ValidCommands ==>
              && r.settings.coprRepo.Some? && r.settings.coprRepoOther.Some?
              && r.settings.coprRepo != r.settings.coprRepoOther
              && {r.settings.coprRepo.value, r.settings.coprRepoOther.value} == {"tools", "tools-testing"}
              && (r.settings.coprRepo == Some("tools") <==> argv[1] in ReleaseCommands)
    ensures |argv| >= 2 && argv[1] in ValidCommands ==>
              (r.error == None <==> forall k :: 2 <= k < |argv| ==> IsOption(argv[k]))
    ensures r.settings.version == s.version
  {
    if |argv| < 2 then Parsed(s, None)
    else
      var s1 := s.(cmd := Some(argv[1]));
      if argv[1] !in ValidCommands then Parsed(s1, Some(UnknownCommand(argv[1])))
      else
        var r := ParseOptions(SelectRepos(s1, argv[1]), argv[2..]);
        assert forall k :: 2 <= k < |argv| ==> argv[2..][k - 2] == argv[k];
        r
  }

  /** The three options that store the text after their `=`. */
  datatype ValueOption = KitXmlPreferences | ReleaseOption | MockTargetOption

  function OptionPrefix(o: ValueOption): string {
    match o
    case KitXmlPreferences => KitXmlPrefix
    case ReleaseOption => ReleasePrefix
    case MockTargetOption => MockTargetPrefix
  }

  /** The text a value option has stored in the settings. */
  function StoredValue(s: Settings, o: ValueOption): Option<string> {
    match o
    case KitXmlPreferences => s.kitXmlPreferences
    case ReleaseOption => if s.release.ReleaseText? then Some(s.release.text) else None
    case MockTargetOption => s.mockTarget
  }

  lemma PrefixesExclusive(arg: string, o: ValueOption, o': ValueOption)
    requires StartsWith(arg, OptionPrefix(o)) && StartsWith(arg, OptionPrefix(o'))
    ensures o == o'
  {
    assert arg[2] == OptionPrefix(o)[2] == OptionPrefix(o')[2];
  }

  /** One option pass stores the text after the prefix it matches, and leaves the other value options alone. */
  lemma ApplyOptionStores(s: Settings, arg: string, o: ValueOption)
    requires ApplyOption(s, arg).Ok?
    ensures StartsWith(arg, OptionPrefix(o)) ==>
              StoredValue(ApplyOption(s, arg).value, o) == Some(arg[|OptionPrefix(o)|..])
    ensures !StartsWith(arg, OptionPrefix(o)) ==> StoredValue(ApplyOption(s, arg).value, o) == StoredValue(s, o)
  {
    var p := OptionPrefix(o);
    if StartsWith(arg, p) {
      assert arg[2] == p[2] by { assert arg[..|p|] == p; }
      assert arg != "--debug" && arg != "--verbose" && arg != "--colour";
      if StartsWith(arg, KitXmlPrefix) { PrefixesExclusive(arg, o, KitXmlPreferences); }
      else if StartsWith(arg, ReleasePrefix) { PrefixesExclusive(arg, o, ReleaseOption); }
    }
  }

  /** `--release=X`, `--mock-target=X` and `--kit-xml-preferences=X` store exactly X; the last one given wins. */
  lemma {:induction false} LastValueOptionWins(s: Settings, args: seq<string>, o: ValueOption, i: int)
    requires ParseOptions(s, args).error == None
    requires 0 <= i < |args| && StartsWith(args[i], OptionPrefix(o))
    requires forall j :: i < j < |args| ==> !StartsWith(args[j], OptionPrefix(o))
    ensures StoredValue(ParseOptions(s, args).settings, o) == Some(args[i][|OptionPrefix(o)|..])
    decreases |args|
  {
    var s' := ApplyOption(s, args[0]).value;
    assert ParseOptions(s, args) == ParseOptions(s', args[1..]);
    if i == 0 {
      ApplyOptionStores(s, args[0], o);
      ValueOptionUntouched(s', args[1..], o);
    } else {
      LastValueOptionWins(s', args[1..], o, i - 1);
    }
  }

  /** Without an argument carrying its prefix, a value option keeps the value it had. */
  lemma {:induction false} ValueOptionUntouched(s: Settings, args: seq<string>, o: ValueOption)
    requires ParseOptions(s, args).error == None
    requires forall j :: 0 <= j < |args| ==> !StartsWith(args[j], OptionPrefix(o))
    ensures StoredValue(ParseOptions(s, args).settings, o) == StoredValue(s, o)
    decreases |args|
  {
    if args != [] {
      var s' := ApplyOption(s, args[0]).value;
      ApplyOptionStores(s, args[0], o);
      ValueOptionUntouched(s', args[1..], o);
    }
  }

  // ---------------------------------------------------------------- readVersionInfo

  /** How readVersionInfo treats one line of version.dat. */
  datatype VersionLine = Blank | Comment | Pair(key: string, value: string) | Malformed

  /** A stripped line is skipped when empty or a comment; otherwise it must split at its first `=`. */
  function ClassifyLine(raw: string): VersionLine {
    var line := Strip(raw);
    if line == [] then Blank
    else if StartsWith(line, "#") then Comment
    else match SplitFirst(line, '=')
      case None => Malformed
      case Some(kv) => Pair(Strip(kv.0), Strip(kv.1))
  }

  /** The four kinds of line, told apart by the stripped text; key and value carry no surrounding blanks. */
  lemma ClassifyLineCases(raw: string)
    ensures ClassifyLine(raw) == Blank <==> Strip(raw) == []
    ensures ClassifyLine(raw) == Comment <==> Strip(raw) != [] && Strip(raw)[0] == '#'
    ensures ClassifyLine(raw) == Malformed <==> Strip(raw) != [] && Strip(raw)[0] != '#' && '=' !in Strip(raw)
    ensures ClassifyLine(raw).Pair? ==>
              var line := Strip(raw);
              && Strip(ClassifyLine(raw).key) == ClassifyLine(raw).key
              && Strip(ClassifyLine(raw).value) == ClassifyLine(raw).value
              && exists k :: 0 <= k < |line| && line[k] == '=' && '=' !in line[..k]
                             && ClassifyLine(raw).key == Strip(line[..k]) && ClassifyLine(raw).value == Strip(line[k + 1..])
  {
    var line := Strip(raw);
    if line != [] && !StartsWith(line, "#") {
      var kv := SplitFirst(line, '=');
      if kv.Some? {
        StripIdempotent(kv.value.0);
        StripIdempotent(kv.value.1);
        var k := IndexOf(line, '=');
      }
    }
  }

  lemma StripIdempotent(s: string)
    ensures Strip(Strip(s)) == Strip(s)
  {
    if Strip(s) != [] {
      StripUntrimmed(Strip(s));
    }
  }

  /** Every line of the file, classified. */
  function Classified(lines: seq<string>): (kinds: seq<VersionLine>)
    ensures |kinds| == |lines|
    ensures forall i :: 0 <= i < |lines| ==> kinds[i] == ClassifyLine(lines[i])
    decreases |lines|
  {
    if lines == [] then [] else Classified(lines[..|lines| - 1]) + [ClassifyLine(lines[|lines| - 1])]
  }

  /** What one more line does to the dictionary built so far. */
  function AddLine(acc: Result<map<string, string>, PyError>, kind: VersionLine): Result<map<string, string>, PyError> {
    match acc
    case Err(e) => Err(e)
    case Ok(vi) =>
      match kind
      case Pair(k, v) => Ok(vi[k := v])
      case Malformed => Err(ValueError)
      case _ => Ok(vi)
  }

  /** The dictionary built from the classified lines; a line without `=` makes the tuple unpacking raise ValueError. */
  function Collect(kinds: seq<VersionLine>): (r: Result<map<string, string>, PyError>)
    ensures r.Err? ==> r.error == ValueError
    decreases |kinds|
  {
    if kinds == [] then Ok(map[]) else AddLine(Collect(kinds[..|kinds| - 1]), kinds[|kinds| - 1])
  }

  /** What readVersionInfo returns for the lines of version.dat. */
  function VersionInfo(lines: seq<string>): (r: Result<map<string, string>, PyError>)
    ensures r.Err? ==> r.error == ValueError
  {
    Collect(Classified(lines))
  }

  /** readVersionInfo with its open(): what opening version.dat raised escapes as it is. */
  function ReadVersionFile(file: Result<seq<string>, PyError>): Result<map<string, string>, PyError> {
    match file
    case Err(e) => Err(e)
    case Ok(lines) => VersionInfo(lines)
  }

  /** readVersionInfo raises exactly when some line, stripped, is neither empty nor a comment and holds no `=`. */
  lemma VersionInfoSucceeds(lines: seq<string>)
    ensures VersionInfo(lines).Ok? <==>
              forall i :: 0 <= i < |lines| ==> Strip(lines[i]) == [] || Strip(lines[i])[0] == '#' || '=' in Strip(lines[i])
  {
    CollectSucceeds(Classified(lines));
    forall i | 0 <= i < |lines|
      ensures ClassifyLine(lines[i]) != Malformed <==> Strip(lines[i]) == [] || Strip(lines[i])[0] == '#' || '=' in Strip(lines[i])
    {
      ClassifyLineCases(lines[i]);
    }
  }

  /** The version file is read without error exactly when every line is blank, a comment or a `key=value` pair. */
  lemma {:induction false} CollectSucceeds(kinds: seq<VersionLine>)
    ensures Collect(kinds).Ok? <==> forall i :: 0 <= i < |kinds| ==> kinds[i] != Malformed
    decreases |kinds|
  {
    if kinds != [] {
      var front := kinds[..|kinds| - 1];
      CollectSucceeds(front);
      assert forall i :: 0 <= i < |front| ==> front[i] == kinds[i];
    }
  }

  /** Every key of the dictionary comes from some pair line, and every pair line contributes its key. */
  lemma {:induction false} CollectKeys(kinds: seq<VersionLine>, k: string)
    requires Collect(kinds).Ok?
    ensures k in Collect(kinds).value <==> exists i :: 0 <= i < |kinds| && kinds[i].Pair? && kinds[i].key == k
    decreases |kinds|
  {
    if kinds != [] {
      var front := kinds[..|kinds| - 1];
      CollectKeys(front, k);
      assert forall i :: 0 <= i < |front| ==> front[i] == kinds[i];
    }
  }

  /** A key is bound to the value of its last defining line: a later duplicate overwrites an earlier one. */
  lemma {:induction false} CollectLastWins(kinds: seq<VersionLine>, i: int)
    requires Collect(kinds).Ok?
    requires 0 <= i < |kinds| && kinds[i].Pair?
    requires forall j :: i < j < |kinds| ==> !(kinds[j].Pair? && kinds[j].key == kinds[i].key)
    ensures kinds[i].key in Collect(kinds).value
    ensures Collect(kinds).value[kinds[i].key] == kinds[i].value
    decreases |kinds|
  {
    var front := kinds[..|kinds| - 1];
    if i < |kinds| - 1 {
      assert front[i] == kinds[i];
      CollectLastWins(front, i);
    }
  }

  /** '%s.%s.%s' of three dictionary look-ups; a missing key prints as `None`. */
  function VersionString(vi: map<string, string>): string {
    Get(vi, "major") + "." + (Get(vi, "minor") + "." + Get(vi, "patch"))
  }

  /** When major and minor hold no dot, splitting the version string at its dots gives the three parts back. */
  lemma VersionStringSplits(vi: map<string, string>)
    requires '.' !in Get(vi, "major") && '.' !in Get(vi, "minor")
    ensures var r := VersionString(vi);
            && SplitFirst(r, '.') == Some((Get(vi, "major"), Get(vi, "minor") + "." + Get(vi, "patch")))
            && SplitFirst(Get(vi, "minor") + "." + Get(vi, "patch"), '.') == Some((Get(vi, "minor"), Get(vi, "patch")))
  {
    DottedSplit(Get(vi, "major"), Get(vi, "minor"), Get(vi, "patch"), '.');
  }

  lemma DottedSplit(x: string, y: string, z: string, c: char)
    requires c !in x && c !in y
    ensures SplitFirst(x + [c] + (y + [c] + z), c) == Some((x, y + [c] + z))
    ensures SplitFirst(y + [c] + z, c) == Some((y, z))
  {
    SplitAtFirst(x, c, y + [c] + z);
    SplitAtFirst(y, c, z);
  }

  function Get(vi: map<string, string>, k: string): string {
    if k in vi then vi[k] else "None"
  }

  // ---------------------------------------------------------------- fedoraVersion

  /** The number on a VERSION_ID= line: int() of the stripped line after the prefix; bad text raises ValueError. */
  function VersionIdNumber(line: string): Result<int, Failure> {
    match PyInt(SliceFrom(Strip(line), |VersionIdPrefix|))
    case Some(n) => Ok(n)
    case None => Err(Uncaught(ValueError))
  }

  /** fedoraVersion: the first line that starts with VERSION_ID= decides, even when its number is bad. */
  function FedoraVersion(lines: seq<string>): (r: Result<int, Failure>)
    ensures r.Err? ==> r.error == Build(MissingVersionId) || r.error == Uncaught(ValueError)
    ensures r == Err(Build(MissingVersionId)) <==> forall j :: 0 <= j < |lines| ==> !StartsWith(lines[j], VersionIdPrefix)
    decreases |lines|
  {
    if lines == [] then Err(Build(MissingVersionId))
    else if StartsWith(lines[0], VersionIdPrefix) then VersionIdNumber(lines[0])
    else FedoraVersion(lines[1..])
  }

  /** fedoraVersion with its open(): what opening /etc/os-release raised escapes as it is. */
  function OsReleaseVersion(file: Result<seq<string>, PyError>): Result<int, Failure> {
    match file
    case Err(e) => Err(Uncaught(e))
    case Ok(lines) => FedoraVersion(lines)
  }

  /** The index of the first line that starts with VERSION_ID=, or -1 when there is none. */
  function FirstVersionIdLine(lines: seq<string>): (k: int)
    ensures -1 <= k < |lines|
    ensures k >= 0 ==> StartsWith(lines[k], VersionIdPrefix)
    ensures forall j :: 0 <= j < |lines| && (k == -1 || j < k) ==> !StartsWith(lines[j], VersionIdPrefix)
    decreases |lines|
  {
    if lines == [] then -1
    else if StartsWith(lines[0], VersionIdPrefix) then 0
    else
      var k := FirstVersionIdLine(lines[1..]);
      assert forall j :: 1 <= j < |lines| ==> lines[1..][j - 1] == lines[j];
      if k == -1 then -1 else k + 1
  }

  /**
   * fedoraVersion raises BuildError exactly when no line starts with
   * VERSION_ID=, and otherwise gives the number on the first such line.
   */
  lemma {:induction false} FedoraVersionFirstLine(lines: seq<string>)
    ensures var k := FirstVersionIdLine(lines);
            FedoraVersion(lines) == if k == -1 then Err(Build(MissingVersionId)) else VersionIdNumber(lines[k])
    decreases |lines|
  {
    if lines != [] && !StartsWith(lines[0], VersionIdPrefix) {
      FedoraVersionFirstLine(lines[1..]);
      var k := FirstVersionIdLine(lines[1..]);
      if k != -1 {
        assert lines[1..][k] == lines[k + 1];
      }
    }
  }

  // ---------------------------------------------------------------- release number

  /** One tuple of a repository listing: version, release and build time of a package. */
  datatype PackageInfo = PackageInfo(ver: string, rel: string, buildTime: int)

  /** The release a listing already holds for this version: int(rel.split('.')[0]) when the version matches, else 0. */
  function FoundRelease(packages: map<string, PackageInfo>, version: string): (r: Result<int, PyError>)
    ensures !(KitName in packages && packages[KitName].ver == version) ==> r == Ok(0)
    ensures r.Err? ==> r.error == ValueError && KitName in packages && packages[KitName].ver == version
    ensures r.Ok? && KitName in packages && packages[KitName].ver == version ==>
              PyInt(BeforeFirst(packages[KitName].rel, '.')) == Some(r.value)
  {
    if KitName in packages && packages[KitName].ver == version then
      match PyInt(BeforeFirst(packages[KitName].rel, '.'))
      case Some(n) => Ok(n)
      case None => Err(ValueError)
    else Ok(0)
  }

  /** A listed release `<n>.<rest>` for the version being built gives n. */
  lemma FoundReleaseReads(packages: map<string, PackageInfo>, version: string, n: int, rest: string)
    requires KitName in packages && packages[KitName].ver == version
    requires packages[KitName].rel == DecimalText(n) + "." + rest
    ensures FoundRelease(packages, version) == Ok(n)
  {
    var t := DecimalText(n);
    assert '.' !in t by {
      forall i | 0 <= i < |t| ensures t[i] != '.' {
        assert IsDigit(t[i]) || t[i] == '-';
      }
    }
    SplitAtFirst(t, '.', rest);
    PyIntDecimalText(n);
  }

  /** The automatic release: one more than the larger of the two releases found. */
  function AutoRelease(packages: map<string, PackageInfo>, otherPackages: map<string, PackageInfo>, version: string): (r: Result<int, PyError>)
    ensures r.Err? <==> FoundRelease(packages, version).Err? || FoundRelease(otherPackages, version).Err?
    ensures r.Err? ==> r.error == ValueError
    ensures r.Ok? ==>
              var p, q := FoundRelease(packages, version).value, FoundRelease(otherPackages, version).value;
              r.value > p && r.value > q && (r.value - 1 == p || r.value - 1 == q)
  {
    match FoundRelease(packages, version)
    case Err(e) => Err(e)
    case Ok(p) =>
      match FoundRelease(otherPackages, version)
      case Err(e) => Err(e)
      case Ok(q) => Ok(1 + if p >= q then p else q)
  }

  /** A found release is never negative unless the listed release itself starts with a minus sign. */
  lemma FoundReleaseNonNegative(packages: map<string, PackageInfo>, version: string)
    requires FoundRelease(packages, version).Ok?
    requires KitName in packages ==> !StartsWith(Strip(BeforeFirst(packages[KitName].rel, '.')), "-")
    ensures FoundRelease(packages, version).value >= 0
  {
  }

  /** So the automatic release is at least 1 whenever no listed release is negative. */
  lemma AutoReleasePositive(packages: map<string, PackageInfo>, otherPackages: map<string, PackageInfo>, version: string)
    requires AutoRelease(packages, otherPackages, version).Ok?
    requires KitName in packages ==> !StartsWith(Strip(BeforeFirst(packages[KitName].rel, '.')), "-")
    ensures AutoRelease(packages, otherPackages, version).value >= 1
  {
    FoundReleaseNonNegative(packages, version);
  }

  // ---------------------------------------------------------------- setupVars

  /**
   * What setupVars and main() read from outside: the Python major version,
   * the two files as lines (or what opening them raised), the machine name, the two repository listings
   * (or what fetching them raised) and what the build step raised, if
   * anything.
   */
  datatype Environment = Environment(
    pythonMajor: int,
    versionDat: Result<seq<string>, PyError>,
    osRelease: Result<seq<string>, PyError>,
    machine: string,
    repoListing: Result<map<string, PackageInfo>, Failure>,
    otherRepoListing: Result<map<string, PackageInfo>, Failure>,
    buildOutcome: Option<Failure>)

  /** The settings after setupVars, and what it raised, if anything. */
  datatype SetUp = SetUp(settings: Settings, failure: Option<Failure>)

  /** The default mock target 'fedora-%d-%s' of the Fedora release and the machine name. */
  function DefaultMockTarget(fedora: int, machine: string): string {
    "fedora-" + DecimalText(fedora) + "-" + machine
  }

  /** The default target starts with `fedora-`, ends with `-` and the machine, and the text between reads back as the release. */
  lemma DefaultMockTargetFields(fedora: int, machine: string)
    ensures var r := DefaultMockTarget(fedora, machine);
            && StartsWith(r, "fedora-") && |r| > 8 + |machine|
            && r[|r| - |machine| - 1..] == "-" + machine
            && PyInt(r[7..|r| - |machine| - 1]) == Some(fedora)
  {
    var t := DecimalText(fedora);
    var r := "fedora-" + t + "-" + machine;
    assert r[..7] == "fedora-";
    assert r[7..|r| - |machine| - 1] == t;
    assert r[|r| - |machine| - 1..] == "-" + machine;
    PyIntDecimalText(fedora);
  }

  /** Whether the release step of setupVars gets through: only `auto` fetches both listings and computes a number. */
  predicate ReleaseSucceeds(release: Release, env: Environment, version: string) {
    release != ReleaseText("auto")
    || (env.repoListing.Ok? && env.otherRepoListing.Ok?
        && AutoRelease(env.repoListing.value, env.otherRepoListing.value, version).Ok?)
  }

  /**
   * setupVars: version string, default mock target, then the auto release,
   * stopping at the first exception. Only version, mockTarget and release
   * are ever assigned.
   */
  function VarsSetUp(s: Settings, env: Environment): (r: SetUp)
    ensures r.settings.(version := s.version, mockTarget := s.mockTarget, release := s.release) == s
    ensures ReadVersionFile(env.versionDat).Err? ==> r == SetUp(s, Some(Uncaught(ReadVersionFile(env.versionDat).error)))
    ensures ReadVersionFile(env.versionDat).Ok? ==> r.settings.version == Some(VersionString(ReadVersionFile(env.versionDat).value))
    ensures s.mockTarget.Some? ==> r.settings.mockTarget == s.mockTarget
    ensures ReadVersionFile(env.versionDat).Ok? && s.mockTarget.None? ==>
              match OsReleaseVersion(env.osRelease)
              case Err(f) => r.failure == Some(f) && r.settings.mockTarget == None && r.settings.release == s.release
              case Ok(n) => r.settings.mockTarget == Some(DefaultMockTarget(n, env.machine))
    ensures r.failure.None? && s.release != ReleaseText("auto") ==> r.settings.release == s.release
    ensures r.failure.None? && s.release == ReleaseText("auto") ==>
              && env.repoListing.Ok? && env.otherRepoListing.Ok? && r.settings.version.Some?
              && r.settings.release.ReleaseNumber?
              && AutoRelease(env.repoListing.value, env.otherRepoListing.value, r.settings.version.value)
                 == Ok(r.settings.release.number)
  {
    match ReadVersionFile(env.versionDat)
    case Err(e) => SetUp(s, Some(Uncaught(e)))
    case Ok(vi) =>
      var version := VersionString(vi);
      var s1 := s.(version := Some(version));
      if s1.mockTarget.None? then
        match OsReleaseVersion(env.osRelease)
        case Err(f) => SetUp(s1, Some(f))
        case Ok(n) => ReleaseSetUp(s1.(mockTarget := Some(DefaultMockTarget(n, env.machine))), env, version)
      else ReleaseSetUp(s1, env, version)
  }

  /** setupVars gets through exactly when the version file reads, a mock target is known or found, and the release step succeeds. */
  lemma VarsSetUpSucceeds(s: Settings, env: Environment)
    ensures VarsSetUp(s, env).failure.None? <==>
              && ReadVersionFile(env.versionDat).Ok?
              && (s.mockTarget.Some? || OsReleaseVersion(env.osRelease).Ok?)
              && ReleaseSucceeds(s.release, env, VersionString(ReadVersionFile(env.versionDat).value))
  {
  }

  /**
   * setupVars raises KeyboardInterrupt exactly when it gets as far as the
   * automatic release and one of the two listings, fetched in order, is
   * interrupted.
   */
  lemma VarsSetUpInterrupted(s: Settings, env: Environment)
    ensures VarsSetUp(s, env).failure == Some(Interrupt) <==>
              && ReadVersionFile(env.versionDat).Ok?
              && (s.mockTarget.Some? || OsReleaseVersion(env.osRelease).Ok?)
              && s.release == ReleaseText("auto")
              && (env.repoListing == Err(Interrupt) || (env.repoListing.Ok? && env.otherRepoListing == Err(Interrupt)))
  {
  }

  /**
   * Once setupVars reaches the automatic release, an exception from either
   * listing escapes as it is, and a listed release that int() cannot read
   * escapes as ValueError.
   */
  lemma VarsSetUpReleaseFailure(s: Settings, env: Environment)
    requires ReadVersionFile(env.versionDat).Ok? && (s.mockTarget.Some? || OsReleaseVersion(env.osRelease).Ok?)
    requires s.release == ReleaseText("auto")
    ensures env.repoListing.Err? ==> VarsSetUp(s, env).failure == Some(env.repoListing.error)
    ensures env.repoListing.Ok? && env.otherRepoListing.Err? ==> VarsSetUp(s, env).failure == Some(env.otherRepoListing.error)
    ensures env.repoListing.Ok? && env.otherRepoListing.Ok?
            && AutoRelease(env.repoListing.value, env.otherRepoListing.value, VersionString(ReadVersionFile(env.versionDat).value)).Err? ==>
              VarsSetUp(s, env).failure == Some(Uncaught(ValueError))
  {
  }

  /**
   * When version.dat cannot be opened setupVars raises what open() raised
   * and changes nothing; when /etc/os-release cannot be opened and no mock
   * target was given, the same holds for it, after the version is set.
   */
  lemma VarsSetUpOpenFails(s: Settings, env: Environment)
    ensures env.versionDat.Err? ==> VarsSetUp(s, env) == SetUp(s, Some(Uncaught(env.versionDat.error)))
    ensures env.versionDat.Ok? && VersionInfo(env.versionDat.value).Ok? && s.mockTarget.None? && env.osRelease.Err? ==>
              VarsSetUp(s, env) == SetUp(s.(version := Some(VersionString(VersionInfo(env.versionDat.value).value))),
                                         Some(Uncaught(env.osRelease.error)))
  {
  }

  /** The last part of setupVars: only the text `auto` fetches the two listings, in order, and asks them for a release. */
  function ReleaseSetUp(s: Settings, env: Environment, version: string): (r: SetUp)
    ensures r.settings.(release := s.release) == s
    ensures r.failure.None? <==> ReleaseSucceeds(s.release, env, version)
    ensures r.failure.None? && s.release != ReleaseText("auto") ==> r.settings.release == s.release
    ensures r.failure.None? && s.release == ReleaseText("auto") ==>
              r.settings.release == ReleaseNumber(AutoRelease(env.repoListing.value, env.otherRepoListing.value, version).value)
    ensures r.failure == Some(Interrupt) <==>
              s.release == ReleaseText("auto")
              && (env.repoListing == Err(Interrupt) || (env.repoListing.Ok? && env.otherRepoListing == Err(Interrupt)))
    ensures s.release == ReleaseText("auto") && env.repoListing.Err? ==> r.failure == Some(env.repoListing.error)
    ensures s.release == ReleaseText("auto") && env.repoListing.Ok? && env.otherRepoListing.Err? ==>
              r.failure == Some(env.otherRepoListing.error)
    ensures s.release == ReleaseText("auto") && env.repoListing.Ok? && env.otherRepoListing.Ok?
            && AutoRelease(env.repoListing.value, env.otherRepoListing.value, version).Err? ==>
              r.failure == Some(Uncaught(ValueError))
  {
    if s.release == ReleaseText("auto") then
      match env.repoListing
      case Err(f) => SetUp(s, Some(f))
      case Ok(packages) =>
        match env.otherRepoListing
        case Err(f) => SetUp(s, Some(f))
        case Ok(otherPackages) =>
          match AutoRelease(packages, otherPackages, version)
          case Err(e) => SetUp(s, Some(Uncaught(e)))
          case Ok(n) => SetUp(s.(release := ReleaseNumber(n)), None)
    else SetUp(s, None)
  }

  // ---------------------------------------------------------------- main

  /** Which build step main() runs for a command. */
  datatype BuildAction = NoAction | BuildSrpm | BuildMock | BuildCopr | ListCopr

  function ActionFor(cmd: Option<string>): (a: BuildAction)
    ensures a == NoAction <==> cmd.None? || cmd.value !in ValidCommands
  {
    if cmd == Some("srpm-release") || cmd == Some("srpm-testing") then BuildSrpm
    else if cmd == Some("mock-testing") || cmd == Some("mock-release") then BuildMock
    else if cmd == Some("copr-release") || cmd == Some("copr-testing") then BuildCopr
    else if cmd == Some("list-release") || cmd == Some("list-testing") then ListCopr
    else NoAction
  }

  /** main() either returns an exit code or lets an exception other than BuildError and KeyboardInterrupt escape. */
  datatype Exit = ExitCode(code: int) | Crashed(exception: PyError)

  /** The except clauses of main(): what escaped the try block decides the exit. */
  function ExitFor(f: Option<Failure>): (r: Exit)
    ensures r == ExitCode(0) <==> f.None?
    ensures r == ExitCode(1) <==> RaisedBuild(f)
    ensures r == ExitCode(2) <==> f == Some(Interrupt)
    ensures r.Crashed? <==> RaisedOther(f)
    ensures r.Crashed? ==> r.exception == f.value.exception
  {
    match f
    case None => ExitCode(0)
    case Some(Build(_)) => ExitCode(1)
    case Some(Interrupt) => ExitCode(2)
    case Some(Uncaught(e)) => Crashed(e)
  }

  /** Whether a failure that may have been raised is a BuildError, a KeyboardInterrupt or another exception. */
  predicate RaisedBuild(f: Option<Failure>) { f.Some? && f.value.Build? }
  predicate RaisedOther(f: Option<Failure>) { f.Some? && f.value.Uncaught? }

  /**
   * main() on an object in any state: the python check, parseArgs,
   * setupVars and the build step run in turn inside one try block; a
   * BuildError gives 1, a KeyboardInterrupt 2, completion 0, and any other
   * exception escapes.
   */
  function MainFrom(s: Settings, argv: seq<string>, env: Environment): (r: Exit)
    ensures env.pythonMajor != 3 ==> r == if argv == [] then Crashed(IndexError) else ExitCode(1)
    ensures env.pythonMajor == 3 ==>
              var p := ArgsParsed(s, argv);
              var v := VarsSetUp(p.settings, env);
              var stepRuns := p.error.None? && v.failure.None? && ActionFor(v.settings.cmd) != NoAction;
              && (r == ExitCode(0) <==> p.error.None? && v.failure.None? && (ActionFor(v.settings.cmd) == NoAction || env.buildOutcome.None?))
              && (r == ExitCode(1) <==> p.error.Some? || (p.error.None? && RaisedBuild(v.failure)) || (stepRuns && RaisedBuild(env.buildOutcome)))
              && (r == ExitCode(2) <==> p.error.None? && (v.failure == Some(Interrupt) || (stepRuns && env.buildOutcome == Some(Interrupt))))
              && (r.Crashed? <==> (p.error.None? && RaisedOther(v.failure)) || (stepRuns && RaisedOther(env.buildOutcome)))
              && (p.error.None? && RaisedOther(v.failure) ==> r == Crashed(v.failure.value.exception))
              && (stepRuns && RaisedOther(env.buildOutcome) ==> r == Crashed(env.buildOutcome.value.exception))
    ensures r.ExitCode? ==> r.code == 0 || r.code == 1 || r.code == 2
  {
    if env.pythonMajor != 3 then
      // the BuildError's message names os.path.basename(argv[0])
      ExitFor(Some(if argv == [] then Uncaught(IndexError) else Build(RequiresPython3)))
    else
      var p := ArgsParsed(s, argv);
      if p.error.Some? then ExitFor(Some(Build(p.error.value)))
      else
        var v := VarsSetUp(p.settings, env);
        if v.failure.Some? then ExitFor(v.failure)
        else if ActionFor(v.settings.cmd) == NoAction then ExitFor(None)
        else ExitFor(env.buildOutcome)
  }

  /** The script's exit status: main() on a freshly constructed object. */
  function MainExit(argv: seq<string>, env: Environment): (r: Exit)
    ensures r.ExitCode? ==> r.code == 0 || r.code == 1 || r.code == 2
    ensures env.pythonMajor != 3 ==> r == if argv == [] then Crashed(IndexError) else ExitCode(1)
  {
    MainFrom(InitialSettings, argv, env)
  }

  /**
   * On a fresh object under Python 3: 0 when parsing and setupVars succeed
   * and either no command was given or its build step completed; 1 for a
   * BuildError from parseArgs, setupVars or the step; otherwise the
   * exception setupVars or the step raised escapes.
   */
  lemma MainExitCodes(argv: seq<string>, env: Environment)
    requires env.pythonMajor == 3
    ensures var p := ArgsParsed(InitialSettings, argv);
            var v := VarsSetUp(p.settings, env);
            var r := MainExit(argv, env);
            && (r == ExitCode(0) <==> p.error.None? && v.failure.None? && (|argv| < 2 || env.buildOutcome.None?))
            && (r == ExitCode(1) <==> p.error.Some? || (p.error.None? && RaisedBuild(v.failure))
                                      || (p.error.None? && v.failure.None? && |argv| >= 2 && RaisedBuild(env.buildOutcome)))
            && (r.Crashed? <==> p.error.None? && (RaisedOther(v.failure) || (v.failure.None? && |argv| >= 2 && RaisedOther(env.buildOutcome))))
  {
    if ArgsParsed(InitialSettings, argv).error.None? {
      CommandSelectsStep(argv, env);
    }
  }

  /** After a clean parse from the initial settings, a build step runs exactly when a command was given. */
  lemma CommandSelectsStep(argv: seq<string>, env: Environment)
    requires ArgsParsed(InitialSettings, argv).error.None?
    ensures ActionFor(VarsSetUp(ArgsParsed(InitialSettings, argv).settings, env).settings.cmd) != NoAction
            <==> |argv| >= 2
  {
  }

  /**
   * Exit status 2 means a KeyboardInterrupt: either while setupVars fetched
   * the listings for the automatic release, or in the build step of a valid
   * command.
   */
  lemma MainExitInterrupted(argv: seq<string>, env: Environment)
    ensures MainExit(argv, env) == ExitCode(2) <==>
              && env.pythonMajor == 3
              && ArgsParsed(InitialSettings, argv).error.None?
              && var v := VarsSetUp(ArgsParsed(InitialSettings, argv).settings, env);
                 || v.failure == Some(Interrupt)
                 || (v.failure.None? && |argv| >= 2 && env.buildOutcome == Some(Interrupt))
  {
    if ArgsParsed(InitialSettings, argv).error.None? {
      CommandSelectsStep(argv, env);
    }
  }

  /** With the program name alone the release is still `auto`, so an interrupted listing makes the script exit with 2. */
  lemma MainExitInterruptedWithoutCommand(argv: seq<string>, env: Environment)
    requires |argv| == 1 && env.pythonMajor == 3
    requires ReadVersionFile(env.versionDat).Ok? && OsReleaseVersion(env.osRelease).Ok?
    requires env.repoListing == Err(Interrupt)
    ensures MainExit(argv, env) == ExitCode(2)
  {
    VarsSetUpInterrupted(InitialSettings, env);
  }

  /** After a clean parse, a version.dat that cannot be opened is not caught by main(): the script ends with that exception. */
  lemma MainExitOpenFails(argv: seq<string>, env: Environment)
    requires env.pythonMajor == 3 && ArgsParsed(InitialSettings, argv).error.None?
    requires env.versionDat.Err?
    ensures MainExit(argv, env) == Crashed(env.versionDat.error)
  {
    VarsSetUpOpenFails(ArgsParsed(InitialSettings, argv).settings, env);
  }

  /** A command that is not valid, or any argument after it that is not an option, makes the script exit with 1. */
  lemma MainExitRejectsArguments(argv: seq<string>, env: Environment)
    requires |argv| >= 2
    requires argv[1] !in ValidCommands || exists k :: 2 <= k < |argv| && !IsOption(argv[k])
    ensures MainExit(argv, env) == ExitCode(1)
  {
  }

  // ---------------------------------------------------------------- formatTimeDelta

  /** Whole days, hours and minutes of an age in seconds. */
  datatype TimeDelta = TimeDelta(days: int, hours: int, minutes: int)

  /** The three divmod steps of formatTimeDelta; the seconds are discarded. */
  function SplitAge(age: int): (t: TimeDelta)
    ensures 0 <= t.hours < 24 && 0 <= t.minutes < 60
    ensures t.days == age / 86400 && t.hours == (age / 3600) % 24 && t.minutes == (age / 60) % 60
    ensures age == t.days * 86400 + t.hours * 3600 + t.minutes * 60 + age % 60
  {
    var r1, m := age / 60, age % 60;
    var r2, mm := r1 / 60, r1 % 60;
    var d, h := r2 / 24, r2 % 24;
    assert age == 86400 * d + (3600 * h + 60 * mm + m);
    assert age / 60 == 60 * (24 * d + h) + mm;
    assert age / 3600 == 24 * d + h by {
      assert age == 3600 * (24 * d + h) + (60 * mm + m);
    }
    TimeDelta(d, h, mm)
  }

  /**
   * '%3dd %2.2d:%2.2d' of the split age: the days right-justified in at
   * least three columns, then `d `, two-digit hours, a colon and two-digit
   * minutes.
   */
  function FormatTimeDelta(age: int): (r: string)
    ensures |r| >= 10
    ensures r[..|r| - 7] == PadLeft(DecimalText(SplitAge(age).days), 3)
    ensures r[|r| - 7..|r| - 5] == "d " && r[|r| - 3] == ':'
    ensures r[|r| - 5..|r| - 3] == TwoDigits(SplitAge(age).hours)
    ensures r[|r| - 2..] == TwoDigits(SplitAge(age).minutes)
  {
    var t := SplitAge(age);
    NatTextShort(t.hours);
    NatTextShort(t.minutes);
    FormattedFields(PadLeft(DecimalText(t.days), 3), TwoDigits(t.hours), TwoDigits(t.minutes));
    PadLeft(DecimalText(t.days), 3) + "d " + TwoDigits(t.hours) + ":" + TwoDigits(t.minutes)
  }

  /** A reader for the text formatTimeDelta writes: days before `d `, then hours and minutes around the colon. */
  function ParseTimeDelta(s: string): Option<TimeDelta> {
    if |s| < 7 || s[|s| - 3] != ':' || s[|s| - 7..|s| - 5] != "d " then None
    else match (PyInt(s[..|s| - 7]), PyInt(s[|s| - 5..|s| - 3]), PyInt(s[|s| - 2..]))
      case (Some(d), Some(h), Some(m)) => Some(TimeDelta(d, h, m))
      case _ => None
  }

  lemma PyIntDigits(t: string)
    requires |t| > 0 && AllDigits(t)
    ensures PyInt(t) == Some(DigitsValue(t))
  {
    StripUntrimmed(t);
  }

  lemma PyIntPadded(n: int, width: nat)
    ensures PyInt(PadLeft(DecimalText(n), width)) == Some(n)
  {
    var t := DecimalText(n);
    var p := PadLeft(t, width);
    var pad := p[..|p| - |t|];
    assert p == pad + t;
    assert forall i :: 0 <= i < |pad| ==> pad[i] == p[i] == ' ';
    DecimalTextEdges(n);
    StripPadded(pad, t);
    PyIntDecimalText(n);
    PyIntSameStrip(p, t);
  }

  lemma DecimalTextEdges(n: int)
    ensures var t := DecimalText(n); t != [] && !IsSpace(t[0]) && !IsSpace(t[|t| - 1])
  {
    if n < 0 {
      assert DecimalText(n)[1..] == NatText(-n);
    }
  }

  lemma PyIntSameStrip(s: string, t: string)
    requires Strip(s) == Strip(t)
    ensures PyInt(s) == PyInt(t)
  {
  }

  /** The formatted age reads back as the days, hours and minutes it was made from. */
  lemma FormatTimeDeltaRoundTrip(age: int)
    ensures ParseTimeDelta(FormatTimeDelta(age)) == Some(SplitAge(age))
  {
    var t := SplitAge(age);
    var days, hh, mm := PadLeft(DecimalText(t.days), 3), TwoDigits(t.hours), TwoDigits(t.minutes);
    NatTextShort(t.hours);
    NatTextShort(t.minutes);
    PyIntPadded(t.days, 3);
    PyIntDigits(hh);
    PyIntDigits(mm);
    ParseFormatted(days, hh, mm, t.days, t.hours, t.minutes);
  }

  /** Reading the three fields back from `<days>d <hh>:<mm>`. */
  lemma ParseFormatted(days: string, hh: string, mm: string, d: int, h: int, m: int)
    requires |hh| == 2 && |mm| == 2
    requires PyInt(days) == Some(d) && PyInt(hh) == Some(h) && PyInt(mm) == Some(m)
    ensures ParseTimeDelta(days + "d " + hh + ":" + mm) == Some(TimeDelta(d, h, m))
  {
    FormattedFields(days, hh, mm);
  }

  /** The three fields of the formatted text sit at fixed distances from its end. */
  lemma FormattedFields(days: string, hh: string, mm: string)
    requires |hh| == 2 && |mm| == 2
    ensures var s := days + "d " + hh + ":" + mm;
            && |s| >= 7 && s[|s| - 3] == ':' && s[|s| - 7..|s| - 5] == "d "
            && s[..|s| - 7] == days && s[|s| - 5..|s| - 3] == hh && s[|s| - 2..] == mm
  {
  }

  lemma NatTextShort(n: nat)
    requires n < 100
    ensures |TwoDigits(n)| == 2
  {
    if n >= 10 {
      assert NatText(n) == NatText(n / 10) + [DigitChar(n % 10)];
    }
  }

  // ---------------------------------------------------------------- mock configuration

  /** expandMockCfgVars: look up the key, replace every `{{ releasever }}`, and assert no `{{` is left. */
  function ExpandMockCfgVars(cfg: map<string, string>, key: string): (r: Result<string, PyError>)
    ensures key !in cfg ==> r == Err(KeyError(key))
    ensures key in cfg && "releasever" !in cfg ==> r == Err(KeyError("releasever"))
    ensures r.Ok? ==> !Contains(r.value, "{{")
    ensures key in cfg && "releasever" in cfg && !Contains(cfg[key], "{{") ==> r == Ok(cfg[key])
    ensures (key in cfg && "releasever" in cfg && Contains(cfg[key], ReleaseVerPlaceholder)
             && Contains(cfg["releasever"], "{{")) ==> r == Err(AssertionError)
    ensures key in cfg && "releasever" in cfg ==>
              var value := ReplaceAll(cfg[key], ReleaseVerPlaceholder, cfg["releasever"]);
              r == if Contains(value, "{{") then Err(AssertionError) else Ok(value)
  {
    if key !in cfg then Err(KeyError(key))
    else if "releasever" !in cfg then Err(KeyError("releasever"))
    else
      var value := ReplaceAll(cfg[key], ReleaseVerPlaceholder, cfg["releasever"]);
      if !Contains(cfg[key], "{{") then
        assert !Contains(cfg[key], ReleaseVerPlaceholder) by { NotContainsLonger(cfg[key], "{{", ReleaseVerPlaceholder); }
        Ok(value)
      else if Contains(value, "{{") then Err(AssertionError)
      else
        assert !(Contains(cfg[key], ReleaseVerPlaceholder) && Contains(cfg["releasever"], "{{")) by {
          if Contains(cfg[key], ReleaseVerPlaceholder) && Contains(cfg["releasever"], "{{") {
            ReplaceIntroduces(cfg[key], ReleaseVerPlaceholder, cfg["releasever"], "{{");
          }
        }
        Ok(value)
  }

  /**
   * The ordinary case: a single placeholder between texts without `{{` is
   * replaced by the release version, and the assertion holds exactly when
   * the result has no `{{`.
   */
  lemma ExpandOnePlaceholder(cfg: map<string, string>, key: string, a: string, b: string)
    requires key in cfg && "releasever" in cfg
    requires cfg[key] == a + ReleaseVerPlaceholder + b
    requires !Contains(a, "{{") && !Contains(b, "{{")
    ensures var v := a + cfg["releasever"] + b;
            ExpandMockCfgVars(cfg, key) == if Contains(v, "{{") then Err(AssertionError) else Ok(v)
  {
    PlaceholderReplaced(a, b, cfg["releasever"]);
  }

  /** Replacing the one placeholder of `a {{ releasever }} b` puts the value in its place. */
  lemma PlaceholderReplaced(a: string, b: string, v: string)
    requires !Contains(a, "{{") && !Contains(b, "{{")
    ensures ReplaceAll(a + ReleaseVerPlaceholder + b, ReleaseVerPlaceholder, v) == a + v + b
  {
    PlaceholderThenRest(b, v);
    ReplaceAfterFreePrefix(a, ReleaseVerPlaceholder + b, v);
    ConcatAssoc(a, ReleaseVerPlaceholder, b);
    ConcatAssoc(a, v, b);
  }

  lemma ConcatAssoc(x: string, y: string, z: string)
    ensures x + y + z == x + (y + z)
  {
  }

  /** Text that starts with the placeholder: the value replaces it and the rest, free of `{{`, is kept. */
  lemma PlaceholderThenRest(b: string, v: string)
    requires !Contains(b, "{{")
    ensures StartsWith(ReleaseVerPlaceholder + b, ReleaseVerPlaceholder)
    ensures ReplaceAll(ReleaseVerPlaceholder + b, ReleaseVerPlaceholder, v) == v + b
  {
    var p := ReleaseVerPlaceholder;
    var t := p + b;
    assert t[..|p|] == p;
    assert t[|p|..] == b;
    NotContainsLonger(b, "{{", p);
  }

  /** No placeholder starts inside a text without `{{`, so replacing leaves that text in front untouched. */
  lemma {:induction false} ReplaceAfterFreePrefix(a: string, t: string, v: string)
    requires !Contains(a, "{{") && StartsWith(t, ReleaseVerPlaceholder)
    ensures ReplaceAll(a + t, ReleaseVerPlaceholder, v) == a + ReplaceAll(t, ReleaseVerPlaceholder, v)
    decreases |a|
  {
    if a != [] {
      NoPlaceholderAtFront(a, t);
      ReplaceSkipsFirst(a, t, ReleaseVerPlaceholder, v);
      NotContainsTail(a, "{{");
      ReplaceAfterFreePrefix(a[1..], t, v);
      FirstThenRest(a, ReplaceAll(t, ReleaseVerPlaceholder, v));
    } else {
      assert a + t == t;
    }
  }

  lemma NotContainsTail(s: string, p: string)
    requires s != [] && !Contains(s, p)
    ensures !Contains(s[1..], p)
  {
  }

  lemma FirstThenRest(a: string, x: string)
    requires a != []
    ensures [a[0]] + (a[1..] + x) == a + x
  {
    assert a == [a[0]] + a[1..];
  }

  /** When no occurrence starts at the front, the first character is kept and the rest is replaced. */
  lemma ReplaceSkipsFirst(a: string, t: string, p: string, v: string)
    requires a != [] && p != [] && !StartsWith(a + t, p)
    ensures ReplaceAll(a + t, p, v) == [a[0]] + ReplaceAll(a[1..] + t, p, v)
  {
    assert (a + t)[1..] == a[1..] + t;
  }

  /** A placeholder cannot start inside a nonempty text without `{{` that the placeholder follows. */
  lemma NoPlaceholderAtFront(a: string, t: string)
    requires a != [] && !Contains(a, "{{") && StartsWith(t, ReleaseVerPlaceholder)
    ensures !StartsWith(a + t, ReleaseVerPlaceholder)
  {
    var at := a + t;
    if |at| >= |ReleaseVerPlaceholder| {
      if |a| >= 2 {
        assert !StartsWith(a, "{{");
        assert a[..2] != "{{";
        assert a[0] != '{' || a[1] != '{';
        assert at[0] != ReleaseVerPlaceholder[0] || at[1] != ReleaseVerPlaceholder[1];
      } else {
        CharOfPrefix(t, ReleaseVerPlaceholder, 1);
        assert at[2] == t[1] == '{';
        assert at[2] != ReleaseVerPlaceholder[2];
      }
    }
  }

  lemma CharOfPrefix(s: string, p: string, i: nat)
    requires StartsWith(s, p) && i < |p|
    ensures s[i] == p[i]
  {
    assert s[..|p|][i] == s[i];
  }

  /** A text without an opening brace contains no `{{`. */
  lemma {:induction false} NoBraceNoPlaceholder(s: string)
    requires '{' !in s
    ensures !Contains(s, "{{")
    decreases |s|
  {
    if s != [] {
      assert !StartsWith(s, "{{") by {
        if StartsWith(s, "{{") { CharOfPrefix(s, "{{", 0); }
      }
      assert '{' !in s[1..];
      NoBraceNoPlaceholder(s[1..]);
    }
  }

  /** The dist tag of a Fedora configuration: `.fc{{ releasever }}` with release version 38 expands to `.fc38`. */
  lemma ExpandFedoraDist(cfg: map<string, string>)
    requires "dist" in cfg && cfg["dist"] == ".fc" + ReleaseVerPlaceholder
    requires "releasever" in cfg && cfg["releasever"] == "38"
    ensures ExpandMockCfgVars(cfg, "dist") == Ok(".fc38")
  {
    NoBraceNoPlaceholder(".fc");
    NoBraceNoPlaceholder([]);
    NoBraceNoPlaceholder(".fc38");
    assert cfg["dist"] == ".fc" + ReleaseVerPlaceholder + [];
    ExpandOnePlaceholder(cfg, "dist", ".fc", []);
    assert ".fc" + "38" + [] == ".fc38";
  }

  /** A text without `{{` has no `{{ releasever }}` either. */
  lemma {:induction false} NotContainsLonger(s: string, p: string, q: string)
    requires !Contains(s, p) && StartsWith(q, p)
    ensures !Contains(s, q)
    decreases |s|
  {
    if s != [] {
      NotContainsLonger(s[1..], p, q);
    }
  }

  /** The two settings readMockConfig takes from the mock configuration: target_arch, then the expanded dist. */
  function MockConfigVars(cfg: map<string, string>): (r: Result<(string, string), PyError>)
    ensures r.Ok? ==> "target_arch" in cfg && r.value.0 == cfg["target_arch"] && ExpandMockCfgVars(cfg, "dist") == Ok(r.value.1)
    ensures "target_arch" !in cfg ==> r == Err(KeyError("target_arch"))
    ensures "target_arch" in cfg ==>
              r == match ExpandMockCfgVars(cfg, "dist")
                   case Ok(dist) => Ok((cfg["target_arch"], dist))
                   case Err(e) => Err(e)
  {
    if "target_arch" !in cfg then Err(KeyError("target_arch"))
    else match ExpandMockCfgVars(cfg, "dist")
      case Err(e) => Err(e)
      case Ok(dist) => Ok((cfg["target_arch"], dist))
  }

  /** makeMockTargetFile's choice of section: yum.conf when present, otherwise dnf.conf, otherwise an assertion fails. */
  function ConfKey(cfg: map<string, string>): (r: Result<string, PyError>)
    ensures r.Ok? ==> r.value in cfg && (r.value == "yum.conf" || r.value == "dnf.conf")
    ensures "yum.conf" in cfg ==> r == Ok("yum.conf")
    ensures r == Ok("dnf.conf") ==> "yum.conf" !in cfg
    ensures r.Err? <==> "yum.conf" !in cfg && "dnf.conf" !in cfg
    ensures r.Err? ==> r.error == AssertionError
  {
    if "yum.conf" in cfg then Ok("yum.conf")
    else if "dnf.conf" in cfg then Ok("dnf.conf")
    else Err(AssertionError)
  }

  /** The name makeMockTargetFile gives the generated configuration. */
  function MockTargetFilename(coprRepo: Option<string>, mockTarget: string): string {
    "tmp/" + KitName + "-" + RepoName(coprRepo) + "-" + mockTarget + ".cfg"
  }

  function RepoName(coprRepo: Option<string>): string {
    if coprRepo.Some? then coprRepo.value else "None"
  }

  /** The `root` makeMockTargetFile sets: the target file's base name without its extension. */
  function RootOf(filename: string): string {
    Splitext(Basename(filename)).0
  }

  /** For a stem without slashes that does not start with a dot, the root of `tmp/<stem>.cfg` is the stem. */
  lemma RootOfTarget(stem: string)
    requires '/' !in stem && stem != [] && stem[0] != '.'
    ensures RootOf("tmp/" + stem + ".cfg") == stem
  {
    BasenameAfterLastSlash("tmp", stem + "." + "cfg");
    assert "tmp/" + stem + ".cfg" == "tmp" + "/" + (stem + "." + "cfg");
    SplitextExtension(stem, "cfg");
  }

  /** For a repository and target without slashes, the root is the kit, repository and target joined by dashes. */
  lemma MockRootName(coprRepo: Option<string>, mockTarget: string)
    requires '/' !in RepoName(coprRepo) && '/' !in mockTarget
    ensures RootOf(MockTargetFilename(coprRepo, mockTarget)) == KitName + "-" + RepoName(coprRepo) + "-" + mockTarget
  {
    var stem := KitName + "-" + RepoName(coprRepo) + "-" + mockTarget;
    assert MockTargetFilename(coprRepo, mockTarget) == "tmp/" + stem + ".cfg";
    assert '/' !in stem && stem[0] != '.';
    RootOfTarget(stem);
  }

  /** The copr repository text as appended: an epel target gets the fedora path rewritten to the epel one. */
  function RepoText(repo: string, mockTarget: string): (r: string)
    ensures !StartsWith(mockTarget, "epel-") ==> r == repo
    ensures !Contains(repo, FedoraRepoPath) ==> r == repo
  {
    if StartsWith(mockTarget, "epel-") then
      ReplaceAll(repo, FedoraRepoPath, EpelRepoPath)
    else repo
  }

  /**
   * For an epel target, the fedora path `/fedora-$releasever-$basearch/`
   * in the repository text is replaced by the epel one: a text whose first
   * occurrence of the path follows a part `a` (the `baseurl=https://…`
   * text, say) and whose rest `b` holds no further occurrence has it
   * rewritten there and everything else kept.
   */
  lemma RepoTextEpel(a: string, b: string, mockTarget: string)
    requires StartsWith(mockTarget, "epel-")
    requires forall k :: 0 <= k < |a| ==> !StartsWith((a + FedoraRepoPath + b)[k..], FedoraRepoPath)
    requires !Contains(b, FedoraRepoPath)
    ensures RepoText(a + FedoraRepoPath + b, mockTarget) == a + EpelRepoPath + b
  {
    ConcatAssoc(a, FedoraRepoPath, b);
    ReplaceAfterUnmatched(a, FedoraRepoPath + b, FedoraRepoPath, EpelRepoPath);
    ReplaceAtFront(FedoraRepoPath, b, EpelRepoPath);
    ConcatAssoc(a, EpelRepoPath, b);
  }

  /**
   * The configuration makeMockTargetFile writes out: the copr repository
   * text (with the fedora path rewritten for epel targets) appended to the
   * chosen section after a newline, and `root` set to the base name of the
   * target file (MockTargetFilename) without its extension.
   */
  function MockTargetConfig(cfg: map<string, string>, repo: string, mockTarget: string, filename: string): (r: Result<map<string, string>, PyError>)
    ensures r.Err? <==> ConfKey(cfg).Err?
    ensures r.Ok? ==>
              var key := ConfKey(cfg).value;
              && r.value.Keys == cfg.Keys + {"root"}
              && StartsWith(r.value[key], cfg[key] + "\n")
              && r.value[key] == cfg[key] + "\n" + RepoText(repo, mockTarget)
              && r.value["root"] == RootOf(filename)
    ensures r.Ok? ==> forall k :: k in cfg && k != ConfKey(cfg).value && k != "root" ==> r.value[k] == cfg[k]
  {
    match ConfKey(cfg)
    case Err(e) => Err(e)
    case Ok(key) =>
      var extended := cfg[key] + "\n" + RepoText(repo, mockTarget);
      assert extended[..|cfg[key] + "\n"|] == cfg[key] + "\n";
      Ok(cfg[key := extended]["root" := RootOf(filename)])
  }

  // ---------------------------------------------------------------- the script object

  /** A PackageWorkbench object: the attributes that parseArgs and setupVars assign. */
  class Workbench {
    var cmd: Option<string>
    var coprRepo: Option<string>
    var coprRepoOther: Option<string>
    var optColour: bool
    var optVerbose: bool
    var logDebug: bool
    var optKitXmlPreferences: Option<string>
    var optRelease: Release
    var optMockTarget: Option<string>
    var install: bool
    var version: Option<string>

    function State(): Settings
      reads this
    {
      Settings(cmd, coprRepo, coprRepoOther, optColour, optVerbose, logDebug,
               optKitXmlPreferences, optRelease, optMockTarget, install, version)
    }

    constructor ()
      ensures State() == InitialSettings
    {
      cmd, coprRepo, coprRepoOther := None, None, None;
      optColour, optVerbose, logDebug := false, false, false;
      optKitXmlPreferences, optRelease, optMockTarget := None, ReleaseText("auto"), None;
      install, version := false, None;
    }

    /** parseArgs: pulls arguments one at a time and assigns the attributes as it goes. */
    method ParseArgs(argv: seq<string>) returns (error: Option<BuildError>)
      modifies this
      ensures State() == ArgsParsed(old(State()), argv).settings
      ensures error == ArgsParsed(old(State()), argv).error
    {
      if |argv| < 2 {
        return None;
      }
      cmd := Some(argv[1]);
      if argv[1] !in ValidCommands {
        return Some(UnknownCommand(argv[1]));
      }
      if argv[1] in ReleaseCommands {
        coprRepo, coprRepoOther := Some("tools"), Some("tools-testing");
      } else if argv[1] in TestingCommands {
        coprRepo, coprRepoOther := Some("tools-testing"), Some("tools");
      }
      assert State() == SelectRepos(old(State()).(cmd := Some(argv[1])), argv[1]);
      var i := 2;
      while i < |argv|
        invariant 2 <= i <= |argv|
        invariant ParseOptions(State(), argv[i..]) == ArgsParsed(old(State()), argv)
        decreases |argv| - i
      {
        assert argv[i..][1..] == argv[i + 1..];
        ghost var before := State();
        var ok := ApplyArg(argv[i]);
        if !ok {
          return Some(UnknownOption(argv[i]));
        }
        assert ParseOptions(before, argv[i..]) == ParseOptions(State(), argv[i + 1..]);
        i := i + 1;
      }
      return None;
    }

    /** One pass of parseArgs' option loop: the branch that matches assigns its attribute. */
    method ApplyArg(arg: string) returns (ok: bool)
      modifies this
      ensures ok <==> IsOption(arg)
      ensures ok ==> State() == ApplyOption(old(State()), arg).value
      ensures !ok ==> State() == old(State())
    {
      ok := true;
      if arg == "--debug" {
        logDebug := true;
      } else if arg == "--verbose" {
        optVerbose := true;
      } else if arg == "--colour" {
        optColour := true;
      } else if StartsWith(arg, KitXmlPrefix) {
        optKitXmlPreferences := Some(arg[|KitXmlPrefix|..]);
      } else if StartsWith(arg, ReleasePrefix) {
        optRelease := ReleaseText(arg[|ReleasePrefix|..]);
      } else if StartsWith(arg, MockTargetPrefix) {
        optMockTarget := Some(arg[|MockTargetPrefix|..]);
      } else if StartsWith(arg, "--install") {
        install := true;
      } else {
        ok := false;
      }
    }

    /** readVersionInfo: fills the dictionary line by line. */
    method ReadVersionInfo(lines: seq<string>) returns (r: Result<map<string, string>, PyError>)
      ensures r == VersionInfo(lines)
    {
      var vi: map<string, string> := map[];
      for i := 0 to |lines|
        invariant VersionInfo(lines[..i]) == Ok(vi)
      {
        VersionInfoStep(lines, i);
        match ClassifyLine(lines[i])
        case Malformed =>
          VersionInfoPrefixError(lines, i + 1);
          return Err(ValueError);
        case Pair(key, value) =>
          vi := vi[key := value];
        case _ =>
      }
      assert lines[..|lines|] == lines;
      return Ok(vi);
    }

    /** fedoraVersion: returns from inside the loop at the first VERSION_ID= line. */
    method ScanFedoraVersion(lines: seq<string>) returns (r: Result<int, Failure>)
      ensures r == FedoraVersion(lines)
    {
      var i := 0;
      while i < |lines|
        invariant 0 <= i <= |lines|
        invariant FedoraVersion(lines[i..]) == FedoraVersion(lines)
        decreases |lines| - i
      {
        assert lines[i..][1..] == lines[i + 1..];
        if StartsWith(lines[i], VersionIdPrefix) {
          return VersionIdNumber(lines[i]);
        }
        i := i + 1;
      }
      return Err(Build(MissingVersionId));
    }

    /** setupVars: assigns the version, then the default mock target and the release when they are still unset. */
    method SetupVars(env: Environment) returns (failure: Option<Failure>)
      modifies this
      ensures State() == VarsSetUp(old(State()), env).settings
      ensures failure == VarsSetUp(old(State()), env).failure
    {
      if env.versionDat.Err? {
        return Some(Uncaught(env.versionDat.error));
      }
      var vi := ReadVersionInfo(env.versionDat.value);
      if vi.Err? {
        return Some(Uncaught(vi.error));
      }
      var v := VersionString(vi.value);
      version := Some(v);
      if optMockTarget.None? {
        if env.osRelease.Err? {
          return Some(Uncaught(env.osRelease.error));
        }
        var fv := ScanFedoraVersion(env.osRelease.value);
        if fv.Err? {
          return Some(fv.error);
        }
        optMockTarget := Some(DefaultMockTarget(fv.value, env.machine));
      }
      if optRelease == ReleaseText("auto") {
        if env.repoListing.Err? {
          return Some(env.repoListing.error);
        }
        if env.otherRepoListing.Err? {
          return Some(env.otherRepoListing.error);
        }
        var n := AutoRelease(env.repoListing.value, env.otherRepoListing.value, v);
        if n.Err? {
          return Some(Uncaught(n.error));
        }
        optRelease := ReleaseNumber(n.value);
      }
      return None;
    }

    /** main(): parse, set up, run the chosen build step, and turn what was raised into an exit code. */
    method RunMain(argv: seq<string>, env: Environment) returns (exit: Exit)
      modifies this
      ensures exit == MainFrom(old(State()), argv, env)
    {
      if env.pythonMajor != 3 {
        // the message names os.path.basename(argv[0])
        if |argv| == 0 {
          return Crashed(IndexError);
        }
        return ExitCode(1);
      }
      var error := ParseArgs(argv);
      if error.Some? {
        return ExitCode(1);
      }
      var failure := SetupVars(env);
      if failure.Some? {
        return ExitFor(failure);
      }
      if ActionFor(cmd) == NoAction {
        return ExitCode(0);
      }
      return ExitFor(env.buildOutcome);
    }
  }

  /** The script's entry point: construct the object and exit with what main() returns. */
  method RunScript(argv: seq<string>, env: Environment) returns (exit: Exit)
    ensures exit == MainExit(argv, env)
  {
    var workbench := new Workbench();
    exit := workbench.RunMain(argv, env);
  }

  /** Once some first lines fail to read, the whole file fails the same way. */
  lemma {:induction false} VersionInfoPrefixError(lines: seq<string>, n: nat)
    requires 0 < n <= |lines| && VersionInfo(lines[..n]).Err?
    ensures VersionInfo(lines) == VersionInfo(lines[..n])
    decreases |lines| - n
  {
    if n == |lines| {
      assert lines[..n] == lines;
    } else {
      VersionInfoStep(lines, n);
      VersionInfoPrefixError(lines, n + 1);
    }
  }

  /** Reading one more line of version.dat adds that line's kind to the dictionary so far. */
  lemma VersionInfoStep(lines: seq<string>, i: nat)
    requires i < |lines|
    ensures VersionInfo(lines[..i + 1]) == AddLine(VersionInfo(lines[..i]), ClassifyLine(lines[i]))
  {
    assert lines[..i + 1][..i] == lines[..i];
  }
}
