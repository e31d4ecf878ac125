/**
 * The ChromeDriver service helpers of src/service/chromedriver.rs: where the
 * driver executable is looked for, the tail of its log, and what `status`
 * makes of the PID file.
 *
 * The file system, the environment and the `ps` probe are oracles passed in
 * as parameters: `isFile(p)` says whether `p` exists and is a regular file.
 */
module ChromeDriver {

  import opened Wrappers
  import opened Errors
  import opened Configuration

  /** The target the binary was built for; only Unix versus Windows matters. */
  datatype Platform = Linux | MacOS | Windows {
    predicate IsUnix() { !Windows? }
    function Separator(): char { if Windows? then '\\' else '/' }
  }

  /** The environment variables the lookup reads. */
  datatype Env = Env(home: Option<string>, userProfile: Option<string>)

  const NotFoundMessage: string := "ChromeDriver executable not found. Please install it or specify its location."

  const DriversDirSuffix: string := "/.email-sleuth/drivers"
  const DriverFileName: string := "chromedriver"

  /** `default_paths`: `$HOME`, or `.` when unset. */
  function HomeDir(env: Env): (h: string)
    ensures env.home.Some? ==> h == env.home.value
    ensures env.home.None? ==> h == "."
  {
    env.home.GetOr(".")
  }

  /** The driver path of `default_paths`: the drivers directory joined with `chromedriver`. */
  function DefaultDriverPath(env: Env, platform: Platform): (p: string)
    ensures StartsWith(p, HomeDir(env) + DriversDirSuffix)
    ensures p[|p| - |DriverFileName|..] == DriverFileName
  {
    HomeDir(env) + DriversDirSuffix + [platform.Separator()] + DriverFileName
  }

  /** The user's path, when one is configured and it is not empty. */
  function CustomCandidates(customPath: Option<string>): seq<string>
  {
    if customPath.Some? && customPath.value != "" then [customPath.value] else []
  }

  const UsrLocalBinPath: string := "/usr/local/bin/chromedriver"
  const UsrBinPath: string := "/usr/bin/chromedriver"
  const ChromeAppPath: string := "/Applications/Google Chrome.app/Contents/MacOS/chromedriver"
  const CellarPath: string := "/usr/local/Cellar/chromedriver/latest/bin/chromedriver"
  const HomebrewPath: string := "/opt/homebrew/bin/chromedriver"
  const ProgramFilesPath: string := "C:\\Program Files\\Google\\Chrome\\Application\\chromedriver.exe"
  const ProgramFilesX86Path: string := "C:\\Program Files (x86)\\Google\\Chrome\\Application\\chromedriver.exe"
  const UserApplicationsSuffix: string := "/Applications/chromedriver"
  const UserProfileSuffix: string := "\\AppData\\Local\\Google\\Chrome\\Application\\chromedriver.exe"

  /** The fixed installation places searched after the default path, in their order. */
  function CommonPaths(env: Env, platform: Platform): (paths: seq<string>)
    ensures platform.IsUnix() ==> |paths| >= 2 && paths[0] == UsrLocalBinPath && paths[1] == UsrBinPath
    ensures platform == Linux ==> |paths| == 2
    ensures platform == MacOS ==> |paths| == if env.home.Some? then 6 else 5
    ensures platform == Windows ==> |paths| == if env.userProfile.Some? then 3 else 2
  {
    match platform
    case Linux => [UsrLocalBinPath, UsrBinPath]
    case MacOS =>
      [UsrLocalBinPath, UsrBinPath, ChromeAppPath, CellarPath, HomebrewPath]
      + (if env.home.Some? then [env.home.value + UserApplicationsSuffix] else [])
    case Windows =>
      [ProgramFilesPath, ProgramFilesX86Path]
      + (if env.userProfile.Some? then [env.userProfile.value + UserProfileSuffix] else [])
  }

  /** Every place `detect_driver_path` looks, in the order it looks. */
  function SearchOrder(customPath: Option<string>, env: Env, platform: Platform): (paths: seq<string>)
    ensures var k := |CustomCandidates(customPath)|;
      |paths| == k + 1 + |CommonPaths(env, platform)| && paths[k] == DefaultDriverPath(env, platform)
    ensures customPath.Some? && customPath.value != "" ==> paths[0] == customPath.value
    ensures paths[|paths| - |CommonPaths(env, platform)|..] == CommonPaths(env, platform)
  {
    CustomCandidates(customPath) + [DefaultDriverPath(env, platform)] + CommonPaths(env, platform)
  }

  /** The first of `paths` that is a file, or the not-found error. */
  function FirstExisting(paths: seq<string>, isFile: string -> bool): (r: Result<string>)
    ensures r.Ok? ==> isFile(r.value)
    ensures r.Err? ==> r == Err(Initialization(NotFoundMessage))
  {
    if paths == [] then Err(Initialization(NotFoundMessage))
    else if isFile(paths[0]) then Ok(paths[0])
    else FirstExisting(paths[1..], isFile)
  }

  /** The reference definition of the search: the earliest path that is a file wins. */
  lemma {:induction false} FirstExistingIsEarliest(paths: seq<string>, isFile: string -> bool, k: nat)
    requires k < |paths| && isFile(paths[k])
    requires forall i :: 0 <= i < k ==> !isFile(paths[i])
    ensures FirstExisting(paths, isFile) == Ok(paths[k])
  {
    if k > 0 {
      FirstExistingIsEarliest(paths[1..], isFile, k - 1);
    }
  }

  /** The search fails exactly when none of the paths is a file, and then with the not-found error. */
  lemma {:induction false} FirstExistingFails(paths: seq<string>, isFile: string -> bool)
    ensures FirstExisting(paths, isFile).Err? <==> forall i :: 0 <= i < |paths| ==> !isFile(paths[i])
    ensures FirstExisting(paths, isFile).Err? ==> FirstExisting(paths, isFile).error == Initialization(NotFoundMessage)
  {
    if paths != [] {
      FirstExistingFails(paths[1..], isFile);
      assert forall i :: 1 <= i < |paths| ==> paths[i] == paths[1..][i - 1];
    }
  }

  /** A path the search returns is one of the candidates, and it is a file. */
  lemma {:induction false} FirstExistingFound(paths: seq<string>, isFile: string -> bool)
    ensures FirstExisting(paths, isFile).Ok? ==>
      FirstExisting(paths, isFile).value in paths && isFile(FirstExisting(paths, isFile).value)
  {
    if paths != [] && !isFile(paths[0]) {
      FirstExistingFound(paths[1..], isFile);
    }
  }

  /** Skipping candidates that are not files does not change the search. */
  lemma {:induction false} FirstExistingSkip(paths: seq<string>, isFile: string -> bool, i: nat)
    requires i <= |paths|
    requires forall k :: 0 <= k < i ==> !isFile(paths[k])
    ensures FirstExisting(paths, isFile) == FirstExisting(paths[i..], isFile)
  {
    if i > 0 {
      FirstExistingSkip(paths[1..], isFile, i - 1);
      assert paths[1..][i - 1..] == paths[i..];
    }
  }

  /** The pushes into `common_paths`, for the platform the binary was built for. */
  method CollectCommonPaths(env: Env, platform: Platform) returns (commonPaths: seq<string>)
    ensures commonPaths == CommonPaths(env, platform)
  {
    commonPaths := [];
    if platform.IsUnix() {
      commonPaths := commonPaths + [UsrLocalBinPath];
      commonPaths := commonPaths + [UsrBinPath];
      if platform == MacOS {
        commonPaths := commonPaths + [ChromeAppPath];
        commonPaths := commonPaths + [CellarPath];
        commonPaths := commonPaths + [HomebrewPath];
        if env.home.Some? {
          commonPaths := commonPaths + [env.home.value + UserApplicationsSuffix];
        }
      }
    }
    if platform == Windows {
      commonPaths := commonPaths + [ProgramFilesPath];
      commonPaths := commonPaths + [ProgramFilesX86Path];
      if env.userProfile.Some? {
        commonPaths := commonPaths + [env.userProfile.value + UserProfileSuffix];
      }
    }
  }

  /** The final loop of `detect_driver_path`: the first path that is a file, in order. */
  method SearchPaths(paths: seq<string>, isFile: string -> bool) returns (r: Result<string>)
    ensures r == FirstExisting(paths, isFile)
  {
    var i := 0;
    while i < |paths|
      invariant 0 <= i <= |paths|
      invariant FirstExisting(paths, isFile) == FirstExisting(paths[i..], isFile)
    {
      if isFile(paths[i]) {
        return Ok(paths[i]);
      }
      assert paths[i..][1..] == paths[i + 1..];
      i := i + 1;
    }
    return Err(Initialization(NotFoundMessage));
  }

  /**
   * `detect_driver_path`: the configured path when it is a file, then the
   * default driver path, then the common installation paths in order.
   */
  method DetectDriverPath(config: Config, env: Env, platform: Platform, isFile: string -> bool) returns (r: Result<string>)
    ensures r == FirstExisting(SearchOrder(config.chromedriverPath, env, platform), isFile)
  {
    ghost var order := SearchOrder(config.chromedriverPath, env, platform);
    var custom := CustomCandidates(config.chromedriverPath);
    if config.chromedriverPath.Some? {
      var customPath := config.chromedriverPath.value;
      if customPath != "" {
        if isFile(customPath) {
          return Ok(customPath);
        }
      }
    }
    var defaultDriverPath := DefaultDriverPath(env, platform);
    FirstExistingSkip(order, isFile, |custom|);
    assert order[|custom|..] == [defaultDriverPath] + CommonPaths(env, platform);
    if isFile(defaultDriverPath) {
      return Ok(defaultDriverPath);
    }
    FirstExistingSkip(order, isFile, |custom| + 1);
    assert order[|custom| + 1..] == CommonPaths(env, platform);

    var commonPaths := CollectCommonPaths(env, platform);
    r := SearchPaths(commonPaths, isFile);
  }

  /** A configured, non-empty path that is a file is used before anything else. */
  lemma CustomPathFirst(customPath: string, env: Env, platform: Platform, isFile: string -> bool)
    requires customPath != "" && isFile(customPath)
    ensures FirstExisting(SearchOrder(Some(customPath), env, platform), isFile) == Ok(customPath)
  {
    FirstExistingIsEarliest(SearchOrder(Some(customPath), env, platform), isFile, 0);
  }

  /**
   * An empty configured path is ignored, and a configured path that is not
   * a file only falls through: the search is then the one without it.
   */
  lemma UnusableCustomPathIgnored(customPath: string, env: Env, platform: Platform, isFile: string -> bool)
    requires customPath == "" || !isFile(customPath)
    ensures FirstExisting(SearchOrder(Some(customPath), env, platform), isFile) ==
      FirstExisting(SearchOrder(None, env, platform), isFile)
  {
    var order := SearchOrder(Some(customPath), env, platform);
    if customPath != "" {
      FirstExistingSkip(order, isFile, 1);
      assert order[1..] == SearchOrder(None, env, platform);
    }
  }

  /** Without a usable configured path, the default driver path is tried first. */
  lemma DefaultPathBeforeCommonPaths(env: Env, platform: Platform, isFile: string -> bool)
    requires isFile(DefaultDriverPath(env, platform))
    ensures FirstExisting(SearchOrder(None, env, platform), isFile) == Ok(DefaultDriverPath(env, platform))
  {
    FirstExistingIsEarliest(SearchOrder(None, env, platform), isFile, 0);
  }

  /** On Linux, `/usr/local/bin` is preferred to `/usr/bin`. */
  lemma LocalBinBeforeUsrBin(env: Env, isFile: string -> bool)
    requires !isFile(DefaultDriverPath(env, Linux)) && isFile(UsrLocalBinPath)
    ensures FirstExisting(SearchOrder(None, env, Linux), isFile) == Ok(UsrLocalBinPath)
  {
    FirstExistingIsEarliest(SearchOrder(None, env, Linux), isFile, 1);
  }

  /*
   * `logs`: the last lines of the log file.
   */

  /** What reading the log file gives. */
  datatype LogFile = LogMissing | LogUnreadable(message: string) | LogText(text: string)

  /** `s` has no occurrence of `c`. */
  predicate Lacks(s: string, c: char)
  {
    forall i :: 0 <= i < |s| ==> s[i] != c
  }

  /** Removes one carriage return ending a line that ended with `\r\n`. */
  function StripCarriageReturn(line: string): string
  {
    if |line| > 0 && line[|line| - 1] == '\r' then line[..|line| - 1] else line
  }

  /** The index of the first newline of `s`, or `|s|` when there is none. */
  function NewlineIndex(s: string): (k: nat)
    ensures k <= |s|
    ensures forall i :: 0 <= i < k ==> s[i] != '\n'
    ensures k < |s| ==> s[k] == '\n'
  {
    if s == [] || s[0] == '\n' then 0 else 1 + NewlineIndex(s[1..])
  }

  /**
   * `str::lines`: split at each `\n` or `\r\n`; a final line ending is
   * optional, so a trailing newline adds no empty line.
   */
  function Lines(s: string): (lines: seq<string>)
    ensures lines == [] <==> s == []
    ensures |lines| <= |s|
    decreases |s|
  {
    if s == [] then []
    else
      var k := NewlineIndex(s);
      if k == |s| then [s]
      else [StripCarriageReturn(s[..k])] + Lines(s[k + 1..])
  }

  /** `join("\n")`. */
  function Join(lines: seq<string>): (s: string)
    ensures lines != [] ==> StartsWith(s, lines[0])
  {
    if lines == [] then ""
    else if |lines| == 1 then lines[0]
    else lines[0] + "\n" + Join(lines[1..])
  }

  /** No line contains a newline. */
  lemma {:induction false} LinesHaveNoNewline(s: string)
    ensures forall i :: 0 <= i < |Lines(s)| ==> Lacks(Lines(s)[i], '\n')
  {
    if s != [] {
      var k := NewlineIndex(s);
      if k < |s| {
        LinesHaveNoNewline(s[k + 1..]);
        assert Lacks(s[..k], '\n');
      }
    }
  }

  /** The ending `Lines` drops: a final newline, if any. */
  function FinalNewline(s: string): string
  {
    if |s| > 0 && s[|s| - 1] == '\n' then "\n" else ""
  }

  lemma SplitAround(s: string, k: nat)
    requires k < |s|
    ensures s == s[..k] + [s[k]] + s[k + 1..]
  {
    assert s[..k] + [s[k]] == s[..k + 1];
  }

  /** Text with a line break splits into the first line and the lines of the rest. */
  lemma LinesOfBrokenText(s: string, k: nat)
    requires k == NewlineIndex(s) && k < |s| && Lacks(s, '\r')
    ensures Lines(s) == [s[..k]] + Lines(s[k + 1..])
    ensures s == s[..k] + ['\n'] + s[k + 1..]
    ensures Lacks(s[k + 1..], '\r')
  {
    var line := s[..k];
    if k > 0 {
      assert line[k - 1] == s[k - 1];
    }
    assert StripCarriageReturn(line) == line;
    SplitAround(s, k);
  }

  /**
   * Splitting text without carriage returns loses nothing: joining the
   * lines again gives back the text, up to a final newline.
   */
  lemma {:induction false} JoinLinesRestores(s: string)
    requires Lacks(s, '\r')
    ensures Join(Lines(s)) + FinalNewline(s) == s
  {
    if s != [] {
      var k := NewlineIndex(s);
      if k < |s| {
        var line, rest := s[..k], s[k + 1..];
        LinesOfBrokenText(s, k);
        JoinLinesRestores(rest);
        if rest == [] {
          assert Join(Lines(s)) == line;
        } else {
          assert Lines(rest) != [];
          assert Join(Lines(s)) == line + "\n" + Join(Lines(rest));
          assert FinalNewline(s) == FinalNewline(rest);
          assert Join(Lines(s)) + FinalNewline(s) == line + "\n" + (Join(Lines(rest)) + FinalNewline(rest));
        }
      }
    }
  }

  /** The lines `logs(n)` shows: the last `min(n, count)` of them. */
  function LogTail(n: nat, lines: seq<string>): (tail: seq<string>)
    ensures |tail| == if n < |lines| then n else |lines|
    ensures tail == lines[|lines| - |tail|..]
  {
    var shown := if n < |lines| then n else |lines|;
    var start := if |lines| >= shown then |lines| - shown else 0;
    lines[start..]
  }

  /**
   * `logs(n)`: a missing log file is an initialization error, a read
   * failure an I/O error; otherwise the last `n` lines, joined by newlines.
   */
  function Logs(n: nat, file: LogFile): (r: Result<string>)
    ensures r.Ok? <==> file.LogText?
  {
    match file
    case LogMissing => Err(Initialization("ChromeDriver log file not found"))
    case LogUnreadable(m) => Err(Io(m))
    case LogText(text) => Ok(Join(LogTail(n, Lines(text))))
  }

  /** A missing log file is an initialization error, whatever the count asked for. */
  lemma LogsOfMissingFile(n: nat)
    ensures Logs(n, LogMissing) == Err(Initialization("ChromeDriver log file not found"))
  {
  }

  /** A log file that cannot be read gives the read's I/O error. */
  lemma LogsOfUnreadableFile(n: nat, message: string)
    ensures Logs(n, LogUnreadable(message)) == Err(Io(message))
  {
  }

  /** Asking for no lines gives the empty string. */
  lemma LogsOfNoLines(text: string)
    ensures Logs(0, LogText(text)) == Ok("")
  {
    assert LogTail(0, Lines(text)) == [];
  }

  /** Asking for at least as many lines as there are gives all of them. */
  lemma LogsOfAllLines(n: nat, text: string)
    requires n >= |Lines(text)|
    ensures Logs(n, LogText(text)) == Ok(Join(Lines(text)))
  {
    assert LogTail(n, Lines(text)) == Lines(text);
  }

  /** Logs without carriage returns and shorter than `n` lines are shown as they are, but for a final newline. */
  lemma LogsOfShortFile(n: nat, text: string)
    requires n >= |Lines(text)| && Lacks(text, '\r')
    ensures Logs(n, LogText(text)).Ok?
    ensures Logs(n, LogText(text)).value + FinalNewline(text) == text
  {
    LogsOfAllLines(n, text);
    JoinLinesRestores(text);
  }

  /*
   * `status`: what the PID file says about the service.
   */

  /** What reading the PID file gives. */
  datatype PidFile = NoPidFile | PidUnreadable(message: string) | PidText(text: string)

  /** The answer of `ps -p <pid>`: it could not be run, or its exit status. */
  datatype PsAnswer = PsError(message: string) | PsExit(success: bool)

  /** The result of `status`, and whether it removed the PID file. */
  datatype StatusRun = StatusRun(result: Result<bool>, removedPidFile: bool)

  /** Unicode `White_Space`, which `str::trim` removes. */
  predicate IsWhitespace(c: char)
  {
    || ('\U{0009}' <= c <= '\U{000D}') || c == ' ' || c == '\U{0085}' || c == '\U{00A0}'
    || c == '\U{1680}' || ('\U{2000}' <= c <= '\U{200A}') || c == '\U{2028}' || c == '\U{2029}'
    || c == '\U{202F}' || c == '\U{205F}' || c == '\U{3000}'
  }

  /** `str::trim_start`. */
  function TrimStart(s: string): (t: string)
    ensures |t| <= |s| && t == s[|s| - |t|..]
    ensures |t| > 0 ==> !IsWhitespace(t[0])
    ensures forall i :: 0 <= i < |s| - |t| ==> IsWhitespace(s[i])
  {
    if s != [] && IsWhitespace(s[0]) then TrimStart(s[1..]) else s
  }

  /** `str::trim_end`. */
  function TrimEnd(s: string): (t: string)
    ensures |t| <= |s| && t == s[..|t|]
    ensures |t| > 0 ==> !IsWhitespace(t[|t| - 1])
    ensures forall i :: |t| <= i < |s| ==> IsWhitespace(s[i])
  {
    if s != [] && IsWhitespace(s[|s| - 1]) then TrimEnd(s[..|s| - 1]) else s
  }

  /** `str::trim`. */
  function Trim(s: string): (t: string)
    ensures |t| <= |s|
    ensures |t| > 0 ==> !IsWhitespace(t[0]) && !IsWhitespace(t[|t| - 1])
    ensures (forall i :: 0 <= i < |s| ==> IsWhitespace(s[i])) ==> t == []
  {
    TrimEnd(TrimStart(s))
  }

  const U32Limit: nat := 0x1_0000_0000

  predicate IsDigit(c: char)
  {
    '0' <= c <= '9'
  }

  /** Every character of `d` is a decimal digit. */
  predicate AllDigits(d: string)
  {
    forall i :: 0 <= i < |d| ==> IsDigit(d[i])
  }

  /** The value of a string of decimal digits. */
  function DigitsValue(d: string): nat
    requires AllDigits(d)
  {
    if d == [] then 0
    else DigitsValue(d[..|d| - 1]) * 10 + DigitValue(d[|d| - 1])
  }

  function DigitValue(c: char): nat
    requires IsDigit(c)
  {
    c as int - '0' as int
  }

  /**
   * `parse::<u32>`: an optional `+`, then at least one decimal digit, with
   * a value that fits in 32 bits.
   */
  function ParseU32(s: string): (r: Option<nat>)
    ensures r.Some? ==> r.value < U32Limit
  {
    var digits := if |s| > 0 && s[0] == '+' then s[1..] else s;
    if digits == [] || !AllDigits(digits) then None
    else
      var v := DigitsValue(digits);
      if v < U32Limit then Some(v) else None
  }

  /** `pid.to_string()`: the decimal digits of `n`, without sign or leading zeros. */
  function Decimal(n: nat): (s: string)
    ensures |s| > 0 && forall i :: 0 <= i < |s| ==> IsDigit(s[i])
  {
    var last := ['0' + (n % 10) as char];
    if n < 10 then last else Decimal(n / 10) + last
  }

  /** The digits of `n` have the value `n`. */
  lemma {:induction false} DecimalValue(n: nat)
    ensures DigitsValue(Decimal(n)) == n
  {
    var s := Decimal(n);
    if n >= 10 {
      DecimalValue(n / 10);
      assert s[..|s| - 1] == Decimal(n / 10);
    }
  }

  /** Parsing reads back any 32-bit value written out in decimal. */
  lemma ParseDecimal(n: nat)
    requires n < U32Limit
    ensures ParseU32(Decimal(n)) == Some(n)
  {
    DecimalValue(n);
  }

  /** Decimal digits are not white space, so trimming leaves them alone. */
  lemma TrimDecimal(n: nat)
    ensures Trim(Decimal(n)) == Decimal(n)
  {
    var s := Decimal(n);
    assert !IsWhitespace(s[0]);
    assert !IsWhitespace(s[|s| - 1]);
  }

  /**
   * `status`: no PID file means not running; a PID that does not parse, or
   * (on Unix) a process `ps` does not find, removes the stale PID file and
   * means not running; otherwise the service's responsiveness is the
   * answer. Read, `ps` and removal failures are I/O errors.
   */
  function Status(pidFile: PidFile, platform: Platform, ps: nat -> PsAnswer, removal: Option<string>, responsive: bool): (run: StatusRun)
    ensures pidFile.NoPidFile? ==> run == StatusRun(Ok(false), false)
    ensures run.removedPidFile ==> pidFile.PidText?
    ensures run.result == Ok(true) ==> responsive && pidFile.PidText? && ParseU32(Trim(pidFile.text)).Some?
  {
    match pidFile
    case NoPidFile => StatusRun(Ok(false), false)
    case PidUnreadable(m) => StatusRun(Err(Io(m)), false)
    case PidText(text) =>
      match ParseU32(Trim(text))
      case None => RemoveStale(removal)
      case Some(pid) =>
        if platform.IsUnix() then
          match ps(pid)
          case PsError(m) => StatusRun(Err(Io(m)), false)
          case PsExit(false) => RemoveStale(removal)
          case PsExit(true) => StatusRun(Ok(responsive), false)
        else StatusRun(Ok(responsive), false)
  }

  /** `fs::remove_file(&pid_file)?; return Ok(false)`. */
  function RemoveStale(removal: Option<string>): (run: StatusRun)
    ensures run.removedPidFile <==> run.result.Ok?
    ensures run.result != Ok(true)
    ensures removal.Some? ==> run.result == Err(Io(removal.value))
  {
    match removal
    case None => StatusRun(Ok(false), true)
    case Some(m) => StatusRun(Err(Io(m)), false)
  }

  /** A PID file whose contents do not parse is removed, and the service reported as not running. */
  lemma UnparsablePidRemoved(text: string, platform: Platform, ps: nat -> PsAnswer, responsive: bool)
    requires ParseU32(Trim(text)).None?
    ensures Status(PidText(text), platform, ps, None, responsive) == StatusRun(Ok(false), true)
  {
  }

  /** A PID file naming a process `ps` finds gives the service's responsiveness. */
  lemma LivePidIsRead(text: string, pid: nat, platform: Platform, ps: nat -> PsAnswer, removal: Option<string>, responsive: bool)
    requires ParseU32(Trim(text)) == Some(pid) && ps(pid) == PsExit(true)
    ensures Status(PidText(text), platform, ps, removal, responsive) == StatusRun(Ok(responsive), false)
  {
  }

  /**
   * A PID file as `start` writes it, naming a process `ps` finds, leaves
   * the answer to the service's responsiveness.
   */
  lemma WrittenPidIsRead(pid: nat, platform: Platform, ps: nat -> PsAnswer, removal: Option<string>, responsive: bool)
    requires pid < U32Limit && ps(pid) == PsExit(true)
    ensures Status(PidText(Decimal(pid)), platform, ps, removal, responsive) == StatusRun(Ok(responsive), false)
  {
    var text := Decimal(pid);
    TrimDecimal(pid);
    assert Trim(text) == text;
    ParseDecimal(pid);
    assert ParseU32(Trim(text)) == Some(pid);
    LivePidIsRead(text, pid, platform, ps, removal, responsive);
  }
}
