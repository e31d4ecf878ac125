/**
 * Yahoo Mail verification through Yahoo's password recovery flow
 * (src/verification/headless/providers/yahoo.rs). Unlike the Microsoft
 * flow there is no separate CAPTCHA gate: a reCAPTCHA is itself one of the
 * indicators that the account exists.
 */
module Yahoo {

  import opened Wrappers
  import opened Errors
  import opened Selectors
  import opened Models
  import opened Browser

  const ResetUrl: string := "https://login.yahoo.com/forgot"
  const PageLoadTimeout: Millis := 20_000
  const ElementWaitTimeout: Millis := 15_000

  /** The outcome indicators and the existence each implies. */
  const OutcomeChecks: seq<(Locator, bool)> := [
    (YahooExistsRecaptcha, true),
    (YahooExistsVerificationCode, true),
    (YahooExistsChallengeSelector, true),
    (YahooNotExistsError, false),
    (YahooAccountDisabled, false)]

  const Source: string := "headless_yahoo"
  const ExistsMessage: string := "Verified via Yahoo password recovery flow (options/code/captcha shown)"
  const NotExistsMessage: string := "Non-existent or disabled per Yahoo password recovery flow"

  /** Maps the race's result to the record the flow returns. */
  function Outcome(email: string, found: Option<bool>): (r: Option<FoundEmailData>)
    ensures r.None? <==> found.None?
    ensures r.Some? ==> r.value.email == email && r.value.source == Source
    ensures r.Some? ==> !r.value.isGeneric && r.value.verificationStatus == found
    ensures found == Some(true) ==> r.value.confidence == 8
    ensures found == Some(false) ==> r.value.confidence == 0
  {
    match found
    case None => None
    case Some(true) =>
      Some(FoundEmailData(email, 8, Source, false, Some(true), ExistsMessage))
    case Some(false) =>
      Some(FoundEmailData(email, 0, Source, false, Some(false), NotExistsMessage))
  }

  /** The commands of opening the reset page, entering the address and submitting it. */
  function NavigateCommands(): seq<Command>
  {
    [Goto(ResetUrl), WaitFor(YahooEmailInput, PageLoadTimeout)]
  }

  function TypeCommands(email: string): seq<Command>
  {
    [WaitFor(YahooEmailInput, ElementWaitTimeout), SendKeys(YahooEmailInput, email)]
  }

  function ClickCommands(): seq<Command>
  {
    [WaitFor(YahooSubmitButton, ElementWaitTimeout), Click(YahooSubmitButton)]
  }

  function SubmitCommands(email: string): seq<Command>
  {
    NavigateCommands() + (TypeCommands(email) + ClickCommands())
  }

  /** Opening the reset page, entering the address and submitting it, each step's error returned at once. */
  function SubmitRun(reply: Command -> Reply, email: string): (run: Run<()>)
    ensures run.result.Ok? <==> SubmitSucceeds(reply, email)
    ensures run.result.Ok? ==> run.issued == SubmitCommands(email)
  {
    StepsRunOkIff(reply, SubmitCommands(email));
    StepsRun(reply, SubmitCommands(email))
  }

  /** The browser accepted every command of the submit. */
  predicate SubmitSucceeds(reply: Command -> Reply, email: string)
  {
    forall i :: 0 <= i < |SubmitCommands(email)| ==> reply(SubmitCommands(email)[i]).Done?
  }

  /** The submit run is the three browser helpers in sequence. */
  lemma SubmitRunHelpers(reply: Command -> Reply, email: string)
    ensures SubmitRun(reply, email) ==
      AndThen(NavigateRun(reply, ResetUrl, YahooEmailInput, PageLoadTimeout),
        AndThen(TypeRun(reply, YahooEmailInput, email, ElementWaitTimeout),
          ClickRun(reply, YahooSubmitButton, ElementWaitTimeout)))
  {
    StepsRunAppend(reply, NavigateCommands(), TypeCommands(email) + ClickCommands());
    StepsRunAppend(reply, TypeCommands(email), ClickCommands());
    StepsRunPair(reply, Goto(ResetUrl), WaitFor(YahooEmailInput, PageLoadTimeout));
    StepsRunPair(reply, WaitFor(YahooEmailInput, ElementWaitTimeout), SendKeys(YahooEmailInput, email));
    StepsRunPair(reply, WaitFor(YahooSubmitButton, ElementWaitTimeout), Click(YahooSubmitButton));
  }

  /** What follows a successful submit: the race of the indicators. */
  function OutcomeRun(appeared: seq<Locator>, email: string): (run: Run<Option<FoundEmailData>>)
    ensures run.result.Ok?
    ensures run.result.value.Some? ==> run.result.value.value.email == email && run.result.value.value.source == Source
    ensures |run.issued| == |OutcomeChecks|
  {
    var race := RaceRun(appeared, OutcomeChecks, ElementWaitTimeout);
    Run(Ok(Outcome(email, race.result.value)), race.issued)
  }

  /** `perform_yahoo_verification`. */
  function VerificationRun(reply: Command -> Reply, appeared: seq<Locator>, email: string): (run: Run<Option<FoundEmailData>>)
    ensures run.result.Ok? <==> SubmitSucceeds(reply, email)
    ensures run.result.Ok? && run.result.value.Some? ==> run.result.value.value.email == email
  {
    AndThen(SubmitRun(reply, email), OutcomeRun(appeared, email))
  }

  /** `check_yahoo_headless`: open a session, verify, and always close it. */
  function CheckRun(reply: Command -> Reply, appeared: seq<Locator>, email: string, webdriverUrl: string): (run: Run<Option<FoundEmailData>>)
    ensures run.result.Ok? ==> reply(NewSession(webdriverUrl)).Done?
    ensures reply(NewSession(webdriverUrl)).Failed? ==> run.result == Err(WebDriverConnection(reply(NewSession(webdriverUrl)).message))
  {
    match reply(NewSession(webdriverUrl))
    case Failed(m) => Run(Err(FromNewSessionError(m)), [NewSession(webdriverUrl)])
    case Done =>
      var v := VerificationRun(reply, appeared, email);
      Run(v.result, [NewSession(webdriverUrl)] + v.issued + [CloseSession])
  }

  /**
   * A failing step of the submit ends the flow with that step's error: the
   * commands after it and the outcome race are never sent.
   */
  lemma SubmitFailureEndsFlow(reply: Command -> Reply, appeared: seq<Locator>, email: string, k: nat)
    requires k < |SubmitCommands(email)| && reply(SubmitCommands(email)[k]).Failed?
    requires forall i :: 0 <= i < k ==> reply(SubmitCommands(email)[i]).Done?
    ensures VerificationRun(reply, appeared, email) ==
      Run(Err(FantocciniCmd(reply(SubmitCommands(email)[k]).message)), SubmitCommands(email)[..k + 1])
  {
    StepsRunFirstFailure(reply, SubmitCommands(email), k);
  }

  /**
   * The earliest rendered indicator decides: a reCAPTCHA, a verification
   * code prompt or a challenge selector means the account exists
   * (confidence 8), an error message or a disabled-account notice that it
   * does not (confidence 0).
   */
  lemma EarliestIndicatorDecides(reply: Command -> Reply, appeared: seq<Locator>, email: string, j: nat, i: nat)
    requires SubmitSucceeds(reply, email)
    requires j < |appeared| && i < |OutcomeChecks| && OutcomeChecks[i].0 == appeared[j]
    requires forall m, k :: 0 <= m < j && 0 <= k < |OutcomeChecks| ==> OutcomeChecks[k].0 != appeared[m]
    ensures VerificationRun(reply, appeared, email).result == Ok(Outcome(email, Some(OutcomeChecks[i].1)))
    ensures VerificationRun(reply, appeared, email).result.value.value.confidence == if i < 3 then 8 else 0
  {
    StepsRunAllDone(reply, SubmitCommands(email));
    RaceRunEarliest(appeared, OutcomeChecks, ElementWaitTimeout, j, i);
  }

  /** A reCAPTCHA shown first counts as proof that the account exists. */
  lemma RecaptchaMeansExists(reply: Command -> Reply, appeared: seq<Locator>, email: string)
    requires SubmitSucceeds(reply, email) && |appeared| > 0 && appeared[0] == YahooExistsRecaptcha
    ensures VerificationRun(reply, appeared, email).result ==
      Ok(Some(FoundEmailData(email, 8, Source, false, Some(true), ExistsMessage)))
  {
    EarliestIndicatorDecides(reply, appeared, email, 0, 0);
  }

  /** Once the submit succeeded, the verification is the outcome race with the submit's commands before it. */
  lemma SubmittedVerification(reply: Command -> Reply, appeared: seq<Locator>, email: string)
    requires SubmitSucceeds(reply, email)
    ensures VerificationRun(reply, appeared, email) ==
      Run(OutcomeRun(appeared, email).result, SubmitCommands(email) + OutcomeRun(appeared, email).issued)
  {
    var submit := SubmitRun(reply, email);
    assert submit.result.Ok? && submit.issued == SubmitCommands(email);
  }

  /** The outcome race awaits the five indicators, in the order they are listed. */
  lemma OutcomeWaits(appeared: seq<Locator>, email: string)
    ensures OutcomeRun(appeared, email).issued ==
      [WaitFor(YahooExistsRecaptcha, ElementWaitTimeout), WaitFor(YahooExistsVerificationCode, ElementWaitTimeout),
       WaitFor(YahooExistsChallengeSelector, ElementWaitTimeout), WaitFor(YahooNotExistsError, ElementWaitTimeout),
       WaitFor(YahooAccountDisabled, ElementWaitTimeout)]
    ensures OutcomeRun(appeared, email).result.value.None? <==>
      RaceRun(appeared, OutcomeChecks, ElementWaitTimeout).result.value.None?
  {
  }

  /**
   * The check is inconclusive exactly when none of the five indicators
   * rendered; every indicator is awaited either way.
   */
  lemma SilentPageIsInconclusive(reply: Command -> Reply, appeared: seq<Locator>, email: string)
    requires SubmitSucceeds(reply, email)
    ensures VerificationRun(reply, appeared, email).result == Ok(None) <==>
      forall k :: 0 <= k < |OutcomeChecks| ==> OutcomeChecks[k].0 !in appeared
    ensures VerificationRun(reply, appeared, email).issued ==
      SubmitCommands(email) +
      [WaitFor(YahooExistsRecaptcha, ElementWaitTimeout), WaitFor(YahooExistsVerificationCode, ElementWaitTimeout),
       WaitFor(YahooExistsChallengeSelector, ElementWaitTimeout), WaitFor(YahooNotExistsError, ElementWaitTimeout),
       WaitFor(YahooAccountDisabled, ElementWaitTimeout)]
  {
    SubmittedVerification(reply, appeared, email);
    OutcomeWaits(appeared, email);
    RaceRunSilent(appeared, OutcomeChecks, ElementWaitTimeout);
  }

  /** The verification never sends a session command of its own. */
  lemma VerificationStaysInSession(reply: Command -> Reply, appeared: seq<Locator>, email: string)
    ensures forall i :: 0 <= i < |VerificationRun(reply, appeared, email).issued| ==>
      InSession(VerificationRun(reply, appeared, email).issued[i])
  {
    StepsRunStaysInSession(reply, SubmitCommands(email));
  }

  /**
   * A session that cannot be opened is reported as a connection error and
   * nothing else is sent. An open session is opened first and closed last,
   * with no session command in between, and the check returns the
   * verification's result whatever the close answers.
   */
  lemma SessionAlwaysClosed(reply: Command -> Reply, appeared: seq<Locator>, email: string, webdriverUrl: string)
    ensures reply(NewSession(webdriverUrl)).Failed? ==>
      CheckRun(reply, appeared, email, webdriverUrl) ==
        Run(Err(WebDriverConnection(reply(NewSession(webdriverUrl)).message)), [NewSession(webdriverUrl)])
    ensures reply(NewSession(webdriverUrl)).Done? ==>
      var run := CheckRun(reply, appeared, email, webdriverUrl);
      && 2 <= |run.issued| && run.issued[0] == NewSession(webdriverUrl)
      && run.issued[|run.issued| - 1] == CloseSession
      && (forall i :: 0 < i < |run.issued| - 1 ==> InSession(run.issued[i]))
      && run.result == VerificationRun(reply, appeared, email).result
  {
    VerificationStaysInSession(reply, appeared, email);
    var v := VerificationRun(reply, appeared, email);
    var issued := [NewSession(webdriverUrl)] + v.issued + [CloseSession];
    assert forall i :: 0 < i < |issued| - 1 ==> issued[i] == v.issued[i - 1];
  }

  /** The browser's answer to the close has no effect on the check. */
  lemma CloseAnswerIgnored(reply: Command -> Reply, reply': Command -> Reply, appeared: seq<Locator>, email: string, webdriverUrl: string)
    requires forall c :: c != CloseSession ==> reply(c) == reply'(c)
    ensures CheckRun(reply, appeared, email, webdriverUrl) == CheckRun(reply', appeared, email, webdriverUrl)
  {
    StepsRunAgree(reply, reply', SubmitCommands(email));
  }

  /** The first half of `perform_yahoo_verification`: load, type, submit. */
  method SubmitForm(driver: WebDriver, email: string) returns (r: Result<()>)
    modifies driver
    ensures r == SubmitRun(driver.reply, email).result
    ensures driver.log == old(driver.log) + SubmitRun(driver.reply, email).issued
  {
    SubmitRunHelpers(driver.reply, email);
    r := NavigateTo(driver, ResetUrl, YahooEmailInput, PageLoadTimeout);
    if r.Err? {
      return;
    }
    r := WaitAndType(driver, YahooEmailInput, email, ElementWaitTimeout);
    if r.Err? {
      return;
    }
    r := WaitAndClick(driver, YahooSubmitButton, ElementWaitTimeout);
  }

  /** The second half: the race of the indicators. */
  method AwaitOutcome(driver: WebDriver, email: string) returns (r: Result<Option<FoundEmailData>>)
    modifies driver
    ensures r == OutcomeRun(driver.appeared, email).result
    ensures driver.log == old(driver.log) + OutcomeRun(driver.appeared, email).issued
  {
    // `check_outcomes` never fails, so its `?` never returns early.
    var raced := CheckOutcomes(driver, OutcomeChecks, ElementWaitTimeout);
    return Ok(Outcome(email, raced.value));
  }

  method PerformYahooVerification(driver: WebDriver, email: string) returns (r: Result<Option<FoundEmailData>>)
    modifies driver
    ensures r == VerificationRun(driver.reply, driver.appeared, email).result
    ensures driver.log == old(driver.log) + VerificationRun(driver.reply, driver.appeared, email).issued
  {
    var submitted := SubmitForm(driver, email);
    if submitted.Err? {
      return Err(submitted.error);
    }
    r := AwaitOutcome(driver, email);
  }

  /** An open session runs the verification between the open and the close. */
  lemma CheckRunOpen(reply: Command -> Reply, appeared: seq<Locator>, email: string, webdriverUrl: string)
    requires reply(NewSession(webdriverUrl)).Done?
    ensures CheckRun(reply, appeared, email, webdriverUrl) ==
      Run(VerificationRun(reply, appeared, email).result,
        [NewSession(webdriverUrl)] + VerificationRun(reply, appeared, email).issued + [CloseSession])
  {
  }

  method CheckYahooHeadless(driver: WebDriver, email: string, webdriverUrl: string) returns (r: Result<Option<FoundEmailData>>)
    modifies driver
    ensures r == CheckRun(driver.reply, driver.appeared, email, webdriverUrl).result
    ensures driver.log == old(driver.log) + CheckRun(driver.reply, driver.appeared, email, webdriverUrl).issued
  {
    var session := driver.Send(NewSession(webdriverUrl));
    if session.Failed? {
      assert CheckRun(driver.reply, driver.appeared, email, webdriverUrl) ==
        Run(Err(FromNewSessionError(session.message)), [NewSession(webdriverUrl)]);
      return Err(FromNewSessionError(session.message));
    }
    r := PerformYahooVerification(driver, email);
    ghost var v := VerificationRun(driver.reply, driver.appeared, email);
    var closed := driver.Send(CloseSession);
    AppendInOrder(old(driver.log), NewSession(webdriverUrl), v.issued, CloseSession);
    CheckRunOpen(driver.reply, driver.appeared, email, webdriverUrl);
  }
}
