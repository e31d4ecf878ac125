# email-sleuth core, modelled in Dafny

email-sleuth finds and verifies professional email addresses. This project
models the parts of it that decide a verification's outcome without talking
to the network:

- the `SmtpVerificationResult` record and its four constructors;
- the application error type `AppError`: its `Display` text and its
  conversions from WebDriver errors;
- the default configuration and its field-by-field clone;
- the headless-browser helpers (`navigate_to`, `wait_and_type`,
  `wait_and_click`, `check_outcomes`);
- the Microsoft (Hotmail/Outlook) and Yahoo password-recovery probes built
  from those helpers;
- three pieces of the ChromeDriver service: the search for the driver
  executable, the tail of its log, and how `status` reads the PID file.

The remote browser is an oracle. A `Browser.WebDriver` object holds the
browser's fixed answer to every command (`reply`), the order in which page
elements rendered during the outcome race (`appeared`), and a `log` of every
command sent to it. Each helper and provider step is an imperative method
that sends commands on the driver. Its contract ties its result and the
commands it sent to a pure `Run` function: a result together with the list
of commands issued. The provider properties are proved as lemmas about those
functions: what is sent, in which order, when the flow stops, and which
outcome each page state gives.

The file system, the environment variables, the `ps` probe and the HTTP
responsiveness check of the ChromeDriver service are parameters too.

Modules: `Wrappers` (Option), `Errors`, `SmtpResult`, `Configuration`,
`Selectors` (the page elements the providers wait for), `Models`
(`FoundEmailData`), `Browser`, `Microsoft`, `Yahoo`, `ChromeDriver`.

Modelling choices:

- `?` on a `Result` is early return, and it is modelled as such:
  `Browser.AndThen`, `Browser.StepsRun`.
- Each provider's `perform_*_verification` is modelled as two methods, one
  for the form submission (`SubmitForm`) and one for the outcome
  (`AwaitOutcome`), which `Perform…Verification` runs in sequence, as the
  source does. The submission is specified as one run of six commands. The
  submission is proved equal to the three helpers in sequence
  (`SubmitRunHelpers`).
- The concurrent race of `check_outcomes` is modelled as a deterministic
  order of appearance. The reported outcome is that of the first rendered
  element some check waits for. Among checks for the same element, the
  first one listed wins.
- The source's `exists` field of `SmtpVerificationResult` is called
  `mailboxExists`, because `exists` is a Dafny keyword.
- Durations are whole milliseconds. The `(f32, f32)` sleep range is a pair
  of reals.
- A lettre SMTP `Code` is three decimal digits.
- src/core/models.rs is not part of this model. `FoundEmailData` carries the
  fields that the provider code fills in.

## Model

| member | source | states |
|---|---|---|
| SmtpResult.Conclusive | src/utils/smtp/result.rs:19-26 | the given existence, message and catch-all flag are kept; retry is never suggested |
| SmtpResult.InconclusiveRetry | src/utils/smtp/result.rs:29-36 | existence unknown, retry suggested, not catch-all, message kept |
| SmtpResult.InconclusiveNoRetry | src/utils/smtp/result.rs:39-46 | existence unknown, no retry, not catch-all, message kept |
| SmtpResult.CatchAll | src/utils/smtp/result.rs:49-56 | existence unknown, no retry, catch-all, message kept |
| SmtpResult.ConstructorsKeepInvariant | src/utils/smtp/result.rs:18-56 | every constructor's record suggests a retry only when existence is unknown and the domain is not catch-all |
| SmtpResult.InvariantRecordsAreConstructed | src/utils/smtp/result.rs:18-56 | conversely, each record keeping that invariant is built from its own fields by exactly one constructor |
| SmtpResult.KindOfConstructors | src/utils/smtp/result.rs:18-56 | the constructor that made a record can be recognised from the record |
| Errors.DisplayCarriesPayload | src/core/error.rs:10-115 | the display of a message-carrying error is its variant's label, ": ", then exactly the message |
| Errors.Label | src/core/error.rs:10-115 | each variant's label (the text before ": {0}" in its format) is at least eight characters long, so a display's first eight characters are its label's |
| Errors.Detail | src/core/error.rs:59-66 | a message-carrying variant's detail is its message; an SMTP command error's detail is 20 characters longer and holds the message between "Code=ddd, Message='" and the closing quote |
| Errors.DisplayStartsWithLabel | src/core/error.rs:10-115 | every character of the label starts the display at the same position |
| Errors.DisplaysDifferAt | src/core/error.rs:10-115 | two errors whose labels differ at a position both labels reach never display alike |
| Errors.SmtpOutcomesDisplayApart | src/core/error.rs:92-102 | temporary, permanent and inconclusive SMTP errors never display alike, whatever their messages |
| Errors.WebDriverFailuresDisplayApart | src/core/error.rs:104-114 | connection, command and blocked-verification errors never display alike |
| Errors.SmtpCommandDetailReadsBack | src/core/error.rs:59-66 | the code and the message of an SMTP command error can both be read back from its displayed detail |
| Errors.FromCmdError | src/core/error.rs:118-130 | both branches of the conversion give a WebDriver command error carrying the command error's text |
| Errors.FromNewSessionError | src/core/error.rs:132-136 | a failed session becomes a WebDriver connection error with the same text |
| Errors.ConversionsDisplay | src/core/error.rs:104-136 | the two converted errors display as "WebDriver Command Error: " and "WebDriver Connection Error: " followed by the text |
| Configuration.BuildDefault | src/core/config/mod.rs:50-144 | thresholds 4, 7 and 9, at most 5 alternatives, concurrency at least 1 and equal to the machine's parallelism, 2 attempts, the probe sender, checks off, no WebDriver/driver/config path, the default prefix set, user agent from the crate version |
| Configuration.Clone | src/core/config/mod.rs:153-178 | the clone equals the original in every field |
| Configuration.GenericPrefixListDistinct | src/core/config/mod.rs:68-105 | the listed generic prefixes are pairwise distinct |
| Configuration.DefaultGenericPrefixCount | src/core/config/mod.rs:68-108 | the default generic prefix set has exactly 36 members, among them "info", "support" and "ventures" |
| Configuration.DefaultThresholdsOrdered | src/core/config/mod.rs:131-141 | confidence threshold <= generic threshold <= early-termination threshold <= 10 |
| Browser.Lift | src/core/error.rs:118-130 | a command succeeds exactly when the browser answers done; a failure becomes a command error with its text |
| Browser.StepRun | src/verification/headless/utils/browser.rs:26-29 | one command is sent, and the step succeeds exactly when the browser accepts it |
| Browser.WebDriver.Send | src/verification/headless/utils/browser.rs:26-29 | one command is sent: the browser's answer to it is returned and the command is appended to the log |
| Browser.WebDriver.AwaitAll | src/verification/headless/utils/browser.rs:133 | the awaited waits are appended to the log, and the order in which elements rendered is returned |
| Browser.AndThenLeftIdentity | src/verification/headless/utils/browser.rs:80-90 | `?` after a successful run that sent nothing leaves the rest of the run unchanged |
| Browser.AndThenRightIdentity | src/verification/headless/utils/browser.rs:80-90 | a run followed by a successful run that sends nothing is unchanged, whether it failed or not |
| Browser.AndThenAssociative | src/verification/headless/utils/browser.rs:80-90 | grouping steps joined by `?` does not change the run |
| Browser.StepsRun | src/verification/headless/providers/microsoft.rs:114-138 | never more commands are sent than listed, and a successful run has sent all of them |
| Browser.StepsRunAllDone | src/verification/headless/providers/microsoft.rs:114-138 | when the browser accepts every command, all are sent and the run succeeds |
| Browser.StepsRunFirstFailure | src/verification/headless/providers/microsoft.rs:114-138 | the first rejected command ends the run with its error, after exactly the commands up to it |
| Browser.StepsRunOkIff | src/verification/headless/providers/microsoft.rs:114-138 | a run of commands succeeds if and only if every command is accepted |
| Browser.StepsRunSendsPrefix | src/verification/headless/providers/microsoft.rs:114-138 | the commands sent are always a prefix of the run's commands |
| Browser.StepsRunAgree | src/verification/headless/providers/microsoft.rs:114-138 | a run depends only on the browser's answers to its own commands |
| Browser.StepsRunStaysInSession | src/verification/headless/providers/microsoft.rs:114-138 | a run of in-session commands never sends a session command |
| Browser.StepsRunAppend | src/verification/headless/providers/microsoft.rs:114-138 | running two command lists one after the other, with early return, is running their concatenation |
| Browser.NavigateRun | src/verification/headless/utils/browser.rs:71-96 | navigation succeeds exactly when the load and the ready-wait both succeed; a failed load returns its error before any wait is sent |
| Browser.TypeRun | src/verification/headless/utils/browser.rs:44-61 | typing succeeds exactly when the wait and the keys succeed; no keys are sent when the wait fails |
| Browser.ClickRun | src/verification/headless/utils/browser.rs:18-34 | clicking succeeds exactly when the wait and the click succeed; no click when the wait fails |
| Browser.NavigateTo | src/verification/headless/utils/browser.rs:71-96 | the method's result and the commands it sends are those of the navigation run |
| Browser.WaitAndType | src/verification/headless/utils/browser.rs:44-61 | the method's result and the commands it sends are those of the typing run |
| Browser.WaitAndClick | src/verification/headless/utils/browser.rs:18-34 | the method's result and the commands it sends are those of the click run |
| Browser.Arm | src/verification/headless/utils/browser.rs:113-131 | one armed wait per check, in the checks' order, with the check's element and outcome and the shared timeout |
| Browser.Waits | src/verification/headless/utils/browser.rs:119-124 | one bounded wait command per armed future, for its element and timeout |
| Browser.FirstMatch | src/verification/headless/utils/browser.rs:113-136 | no armed wait matches an element if and only if no check waits for it |
| Browser.Winner | src/verification/headless/utils/browser.rs:133-136 | a reported outcome is the first check's for some element that rendered |
| Browser.WinnerNoneIff | src/verification/headless/utils/browser.rs:133-142 | the race reports nothing if and only if no awaited element rendered |
| Browser.WinnerIsEarliest | src/verification/headless/utils/browser.rs:133-136 | the reported outcome is that of the first check for the earliest rendered awaited element |
| Browser.WinnerIsArmed | src/verification/headless/utils/browser.rs:133-137 | a reported outcome belongs to an armed check whose element rendered |
| Browser.SelectFirst | src/verification/headless/utils/browser.rs:133-142 | the scan over rendered elements and armed waits returns the race's winner |
| Browser.RaceRun | src/verification/headless/utils/browser.rs:105-143 | the race never fails, and it sends one wait per check, with the check's element and the shared timeout, in the checks' order |
| Browser.CheckOutcomes | src/verification/headless/utils/browser.rs:105-143 | the method's result and the commands it sends are those of the race |
| Browser.RaceRunEarliest | src/verification/headless/utils/browser.rs:133-136 | when a check's element is the first awaited one to render, the race reports the first such check's outcome |
| Browser.RaceRunSilent | src/verification/headless/utils/browser.rs:138-141 | the race reports `None` if and only if no checked element rendered |
| Microsoft.Outcome | src/verification/headless/providers/microsoft.rs:164-199 | no winner gives no record; `true` gives confidence 7 and `false` confidence 0, with the input email, source "headless_hotmail", not generic, and the winner as status |
| Microsoft.SubmitRun | src/verification/headless/providers/microsoft.rs:113-138 | the submit succeeds if and only if the browser accepts each of its commands, and then it has sent all of them |
| Microsoft.OutcomeRun | src/verification/headless/providers/microsoft.rs:140-199 | the outcome step never fails; a record it returns is for the input email with source "headless_hotmail"; a CAPTCHA gives `Ok(None)` after the CAPTCHA wait alone |
| Microsoft.VerificationRun | src/verification/headless/providers/microsoft.rs:105-200 | the verification succeeds if and only if the submit does; a record it returns is for the input email |
| Microsoft.CheckRun | src/verification/headless/providers/microsoft.rs:20-57 | a successful check had its session opened; a session that fails to open gives the connection error with the browser's text |
| Microsoft.CheckRunOpen | src/verification/headless/providers/microsoft.rs:20-57 | with an open session, the check is the verification's result, after the session command, the verification's commands, and the close |
| Microsoft.SubmittedVerification | src/verification/headless/providers/microsoft.rs:105-200 | after a successful submit, the verification is the outcome step with the submit's commands before it |
| Microsoft.OutcomeWaits | src/verification/headless/providers/microsoft.rs:140-164 | without a CAPTCHA, the outcome step sends the CAPTCHA wait then the four indicator waits in their listed order, and gives no record exactly when the race reports nothing |
| Microsoft.SubmitRunHelpers | src/verification/headless/providers/microsoft.rs:113-138 | the submit run is navigate, type, click in sequence, each with early return |
| Microsoft.SubmitFailureEndsFlow | src/verification/headless/providers/microsoft.rs:114-138 | a failing submit step returns its error, and neither the later steps, the CAPTCHA probe nor the race is sent |
| Microsoft.CaptchaIsInconclusive | src/verification/headless/providers/microsoft.rs:140-151 | a CAPTCHA after the submit gives `Ok(None)` whatever rendered, and no indicator is awaited |
| Microsoft.EarliestIndicatorDecides | src/verification/headless/providers/microsoft.rs:155-192 | with no CAPTCHA, the earliest rendered indicator decides: the two existence indicators give confidence 7, the two error messages confidence 0 |
| Microsoft.SilentPageIsInconclusive | src/verification/headless/providers/microsoft.rs:153-198 | with no CAPTCHA, the result is `Ok(None)` if and only if none of the four indicators rendered; all four are awaited, in their listed order |
| Microsoft.VerificationStaysInSession | src/verification/headless/providers/microsoft.rs:105-200 | the verification never opens or closes a session itself |
| Microsoft.SessionAlwaysClosed | src/verification/headless/providers/microsoft.rs:20-57 | a session that fails to open is a connection error with nothing else sent; an open one is opened first and closed last, and the check returns the verification's result |
| Microsoft.CloseAnswerIgnored | src/verification/headless/providers/microsoft.rs:37-41 | the browser's answer to the close has no effect on the check |
| Microsoft.SubmitForm | src/verification/headless/providers/microsoft.rs:113-138 | the method's result and the commands it sends are those of the submit run |
| Microsoft.AwaitOutcome | src/verification/headless/providers/microsoft.rs:140-199 | the method's result and the commands it sends are those of the CAPTCHA gate and the race |
| Microsoft.PerformMicrosoftVerification | src/verification/headless/providers/microsoft.rs:105-200 | the method's result and the commands it sends are those of the verification run |
| Microsoft.CheckHotmailHeadless | src/verification/headless/providers/microsoft.rs:20-57 | the method's result and the commands it sends are those of the session-wrapped check |
| Yahoo.Outcome | src/verification/headless/providers/yahoo.rs:147-181 | no winner gives no record; `true` gives confidence 8 and `false` confidence 0, with the input email, source "headless_yahoo", not generic, and the winner as status |
| Yahoo.SubmitRun | src/verification/headless/providers/yahoo.rs:110-135 | the submit succeeds if and only if the browser accepts each of its commands, and then it has sent all of them |
| Yahoo.OutcomeRun | src/verification/headless/providers/yahoo.rs:139-181 | the outcome step never fails and awaits one indicator per check; a record it returns is for the input email with source "headless_yahoo" |
| Yahoo.VerificationRun | src/verification/headless/providers/yahoo.rs:102-182 | the verification succeeds if and only if the submit does; a record it returns is for the input email |
| Yahoo.CheckRun | src/verification/headless/providers/yahoo.rs:21-57 | a successful check had its session opened; a session that fails to open gives the connection error with the browser's text |
| Yahoo.CheckRunOpen | src/verification/headless/providers/yahoo.rs:21-57 | with an open session, the check is the verification's result, after the session command, the verification's commands, and the close |
| Yahoo.SubmittedVerification | src/verification/headless/providers/yahoo.rs:102-182 | after a successful submit, the verification is the race with the submit's commands before it |
| Yahoo.OutcomeWaits | src/verification/headless/providers/yahoo.rs:139-147 | the outcome step sends the five indicator waits in their listed order, and gives no record exactly when the race reports nothing |
| Yahoo.SubmitRunHelpers | src/verification/headless/providers/yahoo.rs:110-135 | the submit run is navigate, type, click in sequence, each with early return |
| Yahoo.SubmitFailureEndsFlow | src/verification/headless/providers/yahoo.rs:111-135 | a failing submit step returns its error, and neither the later steps nor the race is sent |
| Yahoo.EarliestIndicatorDecides | src/verification/headless/providers/yahoo.rs:139-176 | the earliest rendered indicator decides: the three existence indicators give confidence 8, the error and disabled notices confidence 0 |
| Yahoo.RecaptchaMeansExists | src/verification/headless/providers/yahoo.rs:139-162 | a reCAPTCHA rendered first gives the existing-account record with confidence 8 |
| Yahoo.SilentPageIsInconclusive | src/verification/headless/providers/yahoo.rs:139-181 | the result is `Ok(None)` if and only if none of the five indicators rendered; all five are awaited, in their listed order |
| Yahoo.VerificationStaysInSession | src/verification/headless/providers/yahoo.rs:102-182 | the verification never opens or closes a session itself |
| Yahoo.SessionAlwaysClosed | src/verification/headless/providers/yahoo.rs:21-57 | a session that fails to open is a connection error with nothing else sent; an open one is opened first and closed last, and the check returns the verification's result |
| Yahoo.CloseAnswerIgnored | src/verification/headless/providers/yahoo.rs:37-41 | the browser's answer to the close has no effect on the check |
| Yahoo.SubmitForm | src/verification/headless/providers/yahoo.rs:110-135 | the method's result and the commands it sends are those of the submit run |
| Yahoo.AwaitOutcome | src/verification/headless/providers/yahoo.rs:139-181 | the method's result and the commands it sends are those of the race |
| Yahoo.PerformYahooVerification | src/verification/headless/providers/yahoo.rs:102-182 | the method's result and the commands it sends are those of the verification run |
| Yahoo.CheckYahooHeadless | src/verification/headless/providers/yahoo.rs:21-57 | the method's result and the commands it sends are those of the session-wrapped check |
| ChromeDriver.HomeDir | src/service/chromedriver.rs:10 | `$HOME` when it is set, else "." |
| ChromeDriver.DefaultDriverPath | src/service/chromedriver.rs:10-20 | the driver path lies under `<home>/.email-sleuth/drivers` and ends with `chromedriver` |
| ChromeDriver.CommonPaths | src/service/chromedriver.rs:48-88 | on Unix the list starts with /usr/local/bin/chromedriver then /usr/bin/chromedriver; Linux has these two, macOS six with a home directory and five without, Windows three with a user profile and two without |
| ChromeDriver.SearchOrder | src/service/chromedriver.rs:26-88 | the usable custom path comes first, then the default driver path, then the common paths as the suffix |
| ChromeDriver.FirstExisting | src/service/chromedriver.rs:90-100 | a returned path is a file; a failure is the not-found initialization error |
| ChromeDriver.FirstExistingIsEarliest | src/service/chromedriver.rs:90-96 | when `paths[k]` is the first path that is a file, the search returns it |
| ChromeDriver.FirstExistingFails | src/service/chromedriver.rs:90-100 | the search fails if and only if no path is a file, and then with the not-found initialization error |
| ChromeDriver.FirstExistingFound | src/service/chromedriver.rs:90-96 | a returned path is one of the candidates, and it is a file |
| ChromeDriver.CollectCommonPaths | src/service/chromedriver.rs:48-88 | the pushes give the platform's common paths in order: the Unix pair, the macOS extras with `$HOME/Applications`, or the Windows pair with the user-profile path |
| ChromeDriver.SearchPaths | src/service/chromedriver.rs:90-100 | the loop returns the first path that is a file, else the not-found error |
| ChromeDriver.DetectDriverPath | src/service/chromedriver.rs:26-101 | the result is the first file among the usable custom path, the default driver path and the common paths, in that order, else the not-found error |
| ChromeDriver.CustomPathFirst | src/service/chromedriver.rs:27-32 | a non-empty configured path that is a file is returned before anything else |
| ChromeDriver.UnusableCustomPathIgnored | src/service/chromedriver.rs:27-40 | an empty configured path, or one that is not a file, leaves the search as if none were configured |
| ChromeDriver.DefaultPathBeforeCommonPaths | src/service/chromedriver.rs:42-46 | without a configured path, an existing default driver path wins over every common path |
| ChromeDriver.LocalBinBeforeUsrBin | src/service/chromedriver.rs:54-55 | on Linux, /usr/local/bin is preferred to /usr/bin |
| ChromeDriver.Lines | src/service/chromedriver.rs:320 | text has no lines exactly when it is empty, and never more lines than characters |
| ChromeDriver.Join | src/service/chromedriver.rs:325 | joining lines starts with the first line |
| ChromeDriver.LinesHaveNoNewline | src/service/chromedriver.rs:320 | no line of the log contains a newline |
| ChromeDriver.JoinLinesRestores | src/service/chromedriver.rs:320-325 | for text without carriage returns, joining its lines with newlines gives back the text, up to a final newline |
| ChromeDriver.LogTail | src/service/chromedriver.rs:322-325 | the lines shown are the last min(n, count) lines |
| ChromeDriver.LogsOfNoLines | src/service/chromedriver.rs:322-326 | asking for no lines gives "" |
| ChromeDriver.LogsOfAllLines | src/service/chromedriver.rs:322-326 | asking for at least as many lines as there are gives all of them, joined by newlines |
| ChromeDriver.LogsOfShortFile | src/service/chromedriver.rs:319-326 | a short log without carriage returns is shown as it is, except for a final newline |
| ChromeDriver.Logs | src/service/chromedriver.rs:310-327 | the logs are returned if and only if the log file exists and can be read |
| ChromeDriver.LogsOfMissingFile | src/service/chromedriver.rs:313-317 | a missing log file gives the initialization error "ChromeDriver log file not found" |
| ChromeDriver.LogsOfUnreadableFile | src/service/chromedriver.rs:319 | a log file that cannot be read gives the read's I/O error |
| ChromeDriver.TrimStart | src/service/chromedriver.rs:273 | the result is a suffix of the input, and only white space was removed before it |
| ChromeDriver.TrimEnd | src/service/chromedriver.rs:273 | the result is a prefix of the input, and only white space was removed after it |
| ChromeDriver.Trim | src/service/chromedriver.rs:273 | trimming never lengthens the text, leaves no white space at either end, and empties text that is all white space |
| ChromeDriver.ParseU32 | src/service/chromedriver.rs:273 | a parsed PID fits in 32 bits |
| ChromeDriver.Decimal | src/service/chromedriver.rs:181 | the decimal text of a number is non-empty and all digits |
| ChromeDriver.ParseDecimal | src/service/chromedriver.rs:181 | parsing reads back any 32-bit number written in decimal |
| ChromeDriver.TrimDecimal | src/service/chromedriver.rs:273 | trimming leaves decimal text unchanged |
| ChromeDriver.Status | src/service/chromedriver.rs:264-307 | no PID file gives `Ok(false)` with nothing removed; only a PID file can be removed; `Ok(true)` needs a parsable PID and a responsive service |
| ChromeDriver.LivePidIsRead | src/service/chromedriver.rs:272-306 | a PID file whose trimmed text parses, for a process `ps` finds, gives the service's responsiveness and removes nothing |
| ChromeDriver.RemoveStale | src/service/chromedriver.rs:275-278 | the PID file counts as removed exactly when the status succeeds; a stale file never gives `Ok(true)`; a failed removal gives its I/O error |
| ChromeDriver.UnparsablePidRemoved | src/service/chromedriver.rs:273-279 | a PID file that does not parse is removed, and the service reported as not running |
| ChromeDriver.WrittenPidIsRead | src/service/chromedriver.rs:272-306 | a PID file holding a PID in decimal, for a process that `ps` finds, gives the service's responsiveness |

## Left out

- The network, the operating system and the clock are not modelled: `create_client` and its capability JSON, fantoccini's transport, the HTTP `is_responsive` probe, `ps` and `kill`. They appear only as oracle answers.
- The 300 ms pauses, the `Instant` timing of a check, and all `tracing` logging are not modelled; none of them changes a result.
- `start`, `stop` and `restart` are not modelled: they spawn, signal and poll processes.
- `default_paths` creating its directories is not modelled, and neither is `get_random_sleep_duration` (randomness) or the `Debug` implementation of `Config`.
- src/core/config/file.rs is not part of this model.
- Browser.CheckOutcomes: the futures really run concurrently, and a wait can fail for reasons other than its timeout. The model takes the order in which elements rendered as given, and it treats every failed wait as dropping out of the race, as `select_ok` does. `select_ok` panics on an empty list of futures, so the method requires at least one check. The pure `Browser.RaceRun`, `Browser.RaceRunEarliest` and `Browser.RaceRunSilent` also accept an empty list, where they give `Ok(None)` with nothing sent; neither provider ever races an empty list.
- Errors: the payloads of errors converted from foreign libraries (`io::Error`, `reqwest::Error`, `ResolveError`, lettre's and anyhow's errors) are their display strings.
- Errors.Label: the contract bounds every label's length only; the 25 label texts themselves are the function's body, and the display lemmas read them off it.
- Errors.DisplayCarriesPayload: `Display` is proved to be label + ": " + message for each variant, and to tell apart the SMTP outcome family and the WebDriver failure family. It is not proved injective across all 25 variants.
- Configuration.BuildDefault: the regex is kept as its pattern string; compiling it is not modelled.
- ChromeDriver.Status: the platform is Linux, macOS or Windows. A target that is neither Unix nor Windows is not modelled.
- ChromeDriver.DetectDriverPath: a path's existence and being a regular file are one oracle, `isFile`. Paths are strings, and `PathBuf::join` is modelled as inserting the platform separator.
- `Lines` follows current Rust `str::lines`: a line ends at `\n`, and a `\r` right before that `\n` is dropped. A bare `\r` at the very end of the text is kept.
