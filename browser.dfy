/**
 * The WebDriver session as the headless providers drive it, and the browser
 * helpers of src/verification/headless/utils/browser.rs.
 *
 * The remote browser is an oracle: `reply` gives its answer to each command
 * (the same command always gets the same answer) and `appeared` lists the
 * page elements that rendered during the outcome race, in the order they
 * rendered within the wait timeout. The driver's `log` records every command
 * sent to it, which is how the model states what a flow did and did not do.
 */
module Browser {

  import opened Wrappers
  import opened Errors
  import opened Selectors

  /** A wait bound, in milliseconds. */
  type Millis = nat

  datatype Command =
    | NewSession(url: string)
    | Goto(url: string)
    | WaitFor(locator: Locator, timeout: Millis)
    | SendKeys(locator: Locator, text: string)
    | Click(locator: Locator)
    | CloseSession

  /** The browser's answer: success, or a command error with its text. */
  datatype Reply = Done | Failed(message: string)

  class WebDriver {
    const reply: Command -> Reply
    const appeared: seq<Locator>
    var log: seq<Command>

    constructor (reply: Command -> Reply, appeared: seq<Locator>)
      ensures this.reply == reply && this.appeared == appeared && log == []
    {
      this.reply := reply;
      this.appeared := appeared;
      log := [];
    }

    /** Sends one command and returns the browser's answer to it. */
    method Send(c: Command) returns (r: Reply)
      modifies this
      ensures r == reply(c) && log == old(log) + [c]
    {
      r := reply(c);
      log := log + [c];
    }

    /**
     * Runs the waits of an outcome race side by side and returns the order
     * in which their elements rendered.
     */
    method AwaitAll(waits: seq<Command>) returns (order: seq<Locator>)
      modifies this
      ensures order == appeared && log == old(log) + waits
    {
      order := appeared;
      log := log + waits;
    }
  }

  /** The outcome of a flow: its result and the commands it sent, in order. */
  datatype Run<T> = Run(result: Result<T>, issued: seq<Command>)

  /** A command error becomes an `AppError` through `From<CmdError>`. */
  function Lift(r: Reply): (res: Result<()>)
    ensures res.Ok? <==> r.Done?
    ensures r.Failed? ==> res == Err(FantocciniCmd(r.message))
  {
    match r
    case Done => Ok(())
    case Failed(m) => Err(FromCmdError(m))
  }

  /** One command, its error propagated as by `?`. */
  function StepRun(reply: Command -> Reply, c: Command): (run: Run<()>)
    ensures run.issued == [c]
    ensures run.result.Ok? <==> reply(c).Done?
  {
    Run(Lift(reply(c)), [c])
  }

  /** Sequencing with early return: `next` runs only when `first` succeeded. */
  function AndThen<T>(first: Run<()>, next: Run<T>): Run<T>
  {
    if first.result.Err? then Run(Err(first.result.error), first.issued)
    else Run(next.result, first.issued + next.issued)
  }

  /** A run that sends nothing and succeeds leaves what follows it unchanged. */
  lemma AndThenLeftIdentity<T>(next: Run<T>)
    ensures AndThen(Run(Ok(()), []), next) == next
  {
    assert [] + next.issued == next.issued;
  }

  /** Following a run by one that sends nothing and succeeds changes nothing. */
  lemma AndThenRightIdentity(first: Run<()>)
    ensures AndThen(first, Run(Ok(()), [])) == first
  {
    assert first.issued + [] == first.issued;
    if first.result.Err? {
      assert first.result == Err(first.result.error);
    } else {
      var u: () := first.result.value;
      assert u == ();
      assert first.result == Ok(u);
    }
  }

  /**
   * Commands sent one after another, each error returned at once as by `?`:
   * nothing after the first failing command is sent.
   */
  function StepsRun(reply: Command -> Reply, cs: seq<Command>): (run: Run<()>)
    ensures |run.issued| <= |cs|
    ensures run.result.Ok? ==> run.issued == cs
    decreases |cs|
  {
    if cs == [] then Run(Ok(()), [])
    else AndThen(StepRun(reply, cs[0]), StepsRun(reply, cs[1..]))
  }

  /** When every command succeeds, all of them are sent and the run succeeds. */
  lemma {:induction false} StepsRunAllDone(reply: Command -> Reply, cs: seq<Command>)
    requires forall i :: 0 <= i < |cs| ==> reply(cs[i]).Done?
    ensures StepsRun(reply, cs) == Run(Ok(()), cs)
  {
    if cs != [] {
      StepsRunAllDone(reply, cs[1..]);
    }
  }

  /**
   * When `cs[k]` is the first command to fail, the run returns its error and
   * has sent exactly `cs[..k + 1]`.
   */
  lemma {:induction false} StepsRunFirstFailure(reply: Command -> Reply, cs: seq<Command>, k: nat)
    requires k < |cs| && reply(cs[k]).Failed?
    requires forall i :: 0 <= i < k ==> reply(cs[i]).Done?
    ensures StepsRun(reply, cs) == Run(Err(FantocciniCmd(reply(cs[k]).message)), cs[..k + 1])
  {
    if k > 0 {
      StepsRunFirstFailure(reply, cs[1..], k - 1);
      assert cs[..k + 1] == [cs[0]] + cs[1..][..k];
    }
  }

  /** A run of commands succeeds exactly when every one of them succeeds. */
  lemma {:induction false} StepsRunOkIff(reply: Command -> Reply, cs: seq<Command>)
    ensures StepsRun(reply, cs).result.Ok? <==> forall i :: 0 <= i < |cs| ==> reply(cs[i]).Done?
  {
    if cs != [] {
      StepsRunOkIff(reply, cs[1..]);
      assert forall i :: 1 <= i < |cs| ==> cs[i] == cs[1..][i - 1];
    }
  }

  /** What a run sends is always a prefix of its commands. */
  lemma {:induction false} StepsRunSendsPrefix(reply: Command -> Reply, cs: seq<Command>)
    ensures |StepsRun(reply, cs).issued| <= |cs|
    ensures StepsRun(reply, cs).issued == cs[..|StepsRun(reply, cs).issued|]
  {
    if cs != [] {
      StepsRunSendsPrefix(reply, cs[1..]);
    }
  }

  /** A run depends only on the browser's answers to the commands it may send. */
  lemma {:induction false} StepsRunAgree(reply: Command -> Reply, reply': Command -> Reply, cs: seq<Command>)
    requires forall i :: 0 <= i < |cs| ==> reply(cs[i]) == reply'(cs[i])
    ensures StepsRun(reply, cs) == StepsRun(reply', cs)
  {
    if cs != [] {
      StepsRunAgree(reply, reply', cs[1..]);
    }
  }

  /** Two commands in a row, as each helper below sends them. */
  lemma StepsRunPair(reply: Command -> Reply, c: Command, d: Command)
    ensures StepsRun(reply, [c, d]) == AndThen(StepRun(reply, c), StepRun(reply, d))
  {
    assert [c, d][1..] == [d];
    assert StepsRun(reply, [d]) == AndThen(StepRun(reply, d), StepsRun(reply, []));
    assert StepsRun(reply, [d]) == StepRun(reply, d);
  }

  /** A command sent inside an open session: neither opening nor closing one. */
  predicate InSession(c: Command)
  {
    !c.NewSession? && !c.CloseSession?
  }

  /** A run of in-session commands sends only in-session commands. */
  lemma {:induction false} StepsRunStaysInSession(reply: Command -> Reply, cs: seq<Command>)
    requires forall i :: 0 <= i < |cs| ==> InSession(cs[i])
    ensures forall i :: 0 <= i < |StepsRun(reply, cs).issued| ==> InSession(StepsRun(reply, cs).issued[i])
  {
    StepsRunSendsPrefix(reply, cs);
  }

  /** Appending a session's open, body and close to a log, one after another. */
  lemma AppendInOrder(log: seq<Command>, open: Command, body: seq<Command>, close: Command)
    ensures log + [open] + body + [close] == log + ([open] + body + [close])
  {
  }

  /** Concatenation of command lists is associative. */
  lemma AppendAssociative(a: seq<Command>, b: seq<Command>, c: seq<Command>)
    ensures a + (b + c) == a + b + c
  {
  }

  /** `AndThen` is associative. */
  lemma AndThenAssociative<T>(x: Run<()>, y: Run<()>, z: Run<T>)
    ensures AndThen(x, AndThen(y, z)) == AndThen(AndThen(x, y), z)
  {
    if x.result.Ok? && y.result.Ok? {
      assert x.issued + (y.issued + z.issued) == (x.issued + y.issued) + z.issued;
    }
  }

  /** Sequencing two runs of commands is one run of their concatenation. */
  lemma {:induction false} StepsRunAppend(reply: Command -> Reply, a: seq<Command>, b: seq<Command>)
    ensures StepsRun(reply, a + b) == AndThen(StepsRun(reply, a), StepsRun(reply, b))
  {
    if a == [] {
      assert a + b == b;
    } else {
      assert (a + b)[1..] == a[1..] + b;
      StepsRunAppend(reply, a[1..], b);
      AndThenAssociative(StepRun(reply, a[0]), StepsRun(reply, a[1..]), StepsRun(reply, b));
    }
  }

  /**
   * `navigate_to`: load the page, then wait for the element that shows it
   * is ready. A failed load returns before any wait is issued.
   */
  function NavigateRun(reply: Command -> Reply, url: string, ready: Locator, timeout: Millis): (run: Run<()>)
    ensures run.result.Ok? <==> reply(Goto(url)).Done? && reply(WaitFor(ready, timeout)).Done?
    ensures reply(Goto(url)).Failed? ==>
      run == Run(Err(FantocciniCmd(reply(Goto(url)).message)), [Goto(url)])
    ensures reply(Goto(url)).Done? ==> run.issued == [Goto(url), WaitFor(ready, timeout)]
    ensures reply(Goto(url)).Done? && reply(WaitFor(ready, timeout)).Failed? ==>
      run.result == Err(FantocciniCmd(reply(WaitFor(ready, timeout)).message))
  {
    AndThen(StepRun(reply, Goto(url)), StepRun(reply, WaitFor(ready, timeout)))
  }

  /** `wait_and_type`: wait for the input, then type into it; no typing when the wait fails. */
  function TypeRun(reply: Command -> Reply, input: Locator, text: string, timeout: Millis): (run: Run<()>)
    ensures run.result.Ok? <==> reply(WaitFor(input, timeout)).Done? && reply(SendKeys(input, text)).Done?
    ensures reply(WaitFor(input, timeout)).Failed? ==>
      run == Run(Err(FantocciniCmd(reply(WaitFor(input, timeout)).message)), [WaitFor(input, timeout)])
    ensures reply(WaitFor(input, timeout)).Done? ==>
      run.issued == [WaitFor(input, timeout), SendKeys(input, text)]
  {
    AndThen(StepRun(reply, WaitFor(input, timeout)), StepRun(reply, SendKeys(input, text)))
  }

  /** `wait_and_click`: wait for the element, then click it; no click when the wait fails. */
  function ClickRun(reply: Command -> Reply, target: Locator, timeout: Millis): (run: Run<()>)
    ensures run.result.Ok? <==> reply(WaitFor(target, timeout)).Done? && reply(Click(target)).Done?
    ensures reply(WaitFor(target, timeout)).Failed? ==>
      run == Run(Err(FantocciniCmd(reply(WaitFor(target, timeout)).message)), [WaitFor(target, timeout)])
    ensures reply(WaitFor(target, timeout)).Done? ==>
      run.issued == [WaitFor(target, timeout), Click(target)]
  {
    AndThen(StepRun(reply, WaitFor(target, timeout)), StepRun(reply, Click(target)))
  }

  method NavigateTo(driver: WebDriver, url: string, ready: Locator, timeout: Millis) returns (r: Result<()>)
    modifies driver
    ensures r == NavigateRun(driver.reply, url, ready, timeout).result
    ensures driver.log == old(driver.log) + NavigateRun(driver.reply, url, ready, timeout).issued
  {
    var loaded := driver.Send(Goto(url));
    if loaded.Failed? {
      return Err(FromCmdError(loaded.message));
    }
    var found := driver.Send(WaitFor(ready, timeout));
    if found.Failed? {
      return Err(FromCmdError(found.message));
    }
    return Ok(());
  }

  method WaitAndType(driver: WebDriver, input: Locator, text: string, timeout: Millis) returns (r: Result<()>)
    modifies driver
    ensures r == TypeRun(driver.reply, input, text, timeout).result
    ensures driver.log == old(driver.log) + TypeRun(driver.reply, input, text, timeout).issued
  {
    var found := driver.Send(WaitFor(input, timeout));
    if found.Failed? {
      return Err(FromCmdError(found.message));
    }
    var typed := driver.Send(SendKeys(input, text));
    if typed.Failed? {
      return Err(FromCmdError(typed.message));
    }
    return Ok(());
  }

  method WaitAndClick(driver: WebDriver, target: Locator, timeout: Millis) returns (r: Result<()>)
    modifies driver
    ensures r == ClickRun(driver.reply, target, timeout).result
    ensures driver.log == old(driver.log) + ClickRun(driver.reply, target, timeout).issued
  {
    var found := driver.Send(WaitFor(target, timeout));
    if found.Failed? {
      return Err(FromCmdError(found.message));
    }
    var clicked := driver.Send(Click(target));
    if clicked.Failed? {
      return Err(FromCmdError(clicked.message));
    }
    return Ok(());
  }

  /*
   * The outcome race of `check_outcomes`.
   */

  /** One armed indicator wait: the element, the outcome it implies, and its bound. */
  datatype Pending<T> = Pending(locator: Locator, outcome: T, timeout: Millis)

  /** The waits `check_outcomes` arms, one per check, in the checks' order. */
  function Arm<T>(checks: seq<(Locator, T)>, timeout: Millis): (fs: seq<Pending<T>>)
    ensures |fs| == |checks|
    ensures forall i :: 0 <= i < |fs| ==> fs[i].locator == checks[i].0 && fs[i].outcome == checks[i].1
    ensures forall i :: 0 <= i < |fs| ==> fs[i].timeout == timeout
  {
    if checks == [] then []
    else Arm(checks[..|checks| - 1], timeout) + [Pending(checks[|checks| - 1].0, checks[|checks| - 1].1, timeout)]
  }

  /** The wait command each armed future sends. */
  function Waits<T>(fs: seq<Pending<T>>): (ws: seq<Command>)
    ensures |ws| == |fs|
    ensures forall i :: 0 <= i < |fs| ==> ws[i] == WaitFor(fs[i].locator, fs[i].timeout)
  {
    if fs == [] then [] else Waits(fs[..|fs| - 1]) + [WaitFor(fs[|fs| - 1].locator, fs[|fs| - 1].timeout)]
  }

  /** The outcome of the earliest armed wait for element `l`, if any waits for it. */
  function FirstMatch<T>(fs: seq<Pending<T>>, l: Locator): (r: Option<T>)
    ensures r.None? <==> forall k :: 0 <= k < |fs| ==> fs[k].locator != l
  {
    if fs == [] then None
    else if fs[0].locator == l then Some(fs[0].outcome)
    else
      assert forall k :: 1 <= k < |fs| ==> fs[k] == fs[1..][k - 1];
      FirstMatch(fs[1..], l)
  }

  /**
   * The race's result: the outcome of the wait whose element rendered first;
   * among waits for the same element, the one armed first. `None` when no
   * awaited element rendered.
   */
  function Winner<T>(fs: seq<Pending<T>>, order: seq<Locator>): (r: Option<T>)
    ensures r.Some? ==> exists j :: 0 <= j < |order| && FirstMatch(fs, order[j]) == r
  {
    if order == [] then None
    else match FirstMatch(fs, order[0])
      case Some(v) => Some(v)
      case None => Winner(fs, order[1..])
  }

  lemma {:induction false} FirstMatchAt<T>(fs: seq<Pending<T>>, l: Locator, i: nat)
    requires i < |fs| && fs[i].locator == l
    requires forall k :: 0 <= k < i ==> fs[k].locator != l
    ensures FirstMatch(fs, l) == Some(fs[i].outcome)
  {
    if i > 0 {
      FirstMatchAt(fs[1..], l, i - 1);
    }
  }

  lemma {:induction false} FirstMatchNone<T>(fs: seq<Pending<T>>, l: Locator)
    ensures FirstMatch(fs, l).None? <==> forall k :: 0 <= k < |fs| ==> fs[k].locator != l
  {
    if fs != [] {
      FirstMatchNone(fs[1..], l);
      assert forall k :: 1 <= k < |fs| ==> fs[k] == fs[1..][k - 1];
    }
  }

  /** The race reports nothing exactly when none of the awaited elements rendered. */
  lemma {:induction false} WinnerNoneIff<T>(fs: seq<Pending<T>>, order: seq<Locator>)
    ensures Winner(fs, order).None? <==> forall k :: 0 <= k < |fs| ==> fs[k].locator !in order
  {
    if order != [] {
      FirstMatchNone(fs, order[0]);
      WinnerNoneIff(fs, order[1..]);
      assert forall l :: l in order <==> l == order[0] || l in order[1..];
    }
  }

  /**
   * The reference definition of the winner. If element `order[j]` is the
   * first rendered element that some wait is armed for, and `fs[i]` is the
   * first wait armed for it, the race returns `fs[i]`'s outcome.
   */
  lemma {:induction false} WinnerIsEarliest<T>(fs: seq<Pending<T>>, order: seq<Locator>, j: nat, i: nat)
    requires j < |order| && i < |fs| && fs[i].locator == order[j]
    requires forall k :: 0 <= k < i ==> fs[k].locator != order[j]
    requires forall m, k :: 0 <= m < j && 0 <= k < |fs| ==> fs[k].locator != order[m]
    ensures Winner(fs, order) == Some(fs[i].outcome)
  {
    if j == 0 {
      FirstMatchAt(fs, order[0], i);
    } else {
      FirstMatchNone(fs, order[0]);
      WinnerIsEarliest(fs, order[1..], j - 1, i);
    }
  }

  /** A reported outcome is the outcome of some armed wait whose element rendered. */
  lemma {:induction false} WinnerIsArmed<T>(fs: seq<Pending<T>>, order: seq<Locator>)
    requires Winner(fs, order).Some?
    ensures exists k :: 0 <= k < |fs| && fs[k].outcome == Winner(fs, order).value && fs[k].locator in order
  {
    var l := order[0];
    if FirstMatch(fs, l).Some? {
      FirstMatchSome(fs, l);
    } else {
      WinnerIsArmed(fs, order[1..]);
      var k :| 0 <= k < |fs| && fs[k].outcome == Winner(fs, order[1..]).value && fs[k].locator in order[1..];
      assert fs[k].locator in order;
    }
  }

  lemma {:induction false} FirstMatchSome<T>(fs: seq<Pending<T>>, l: Locator)
    requires FirstMatch(fs, l).Some?
    ensures exists k :: 0 <= k < |fs| && fs[k].locator == l && fs[k].outcome == FirstMatch(fs, l).value
  {
    if fs[0].locator != l {
      FirstMatchSome(fs[1..], l);
      var k :| 0 <= k < |fs[1..]| && fs[1..][k].locator == l && fs[1..][k].outcome == FirstMatch(fs[1..], l).value;
      assert fs[k + 1] == fs[1..][k];
    }
  }

  /**
   * `select_ok` over the armed waits: scan the rendered elements in order and
   * return the outcome of the first wait armed for one of them.
   */
  method SelectFirst<T>(fs: seq<Pending<T>>, order: seq<Locator>) returns (r: Option<T>)
    ensures r == Winner(fs, order)
  {
    var j := 0;
    while j < |order|
      invariant 0 <= j <= |order|
      invariant Winner(fs, order[j..]) == Winner(fs, order)
    {
      var i := 0;
      while i < |fs|
        invariant 0 <= i <= |fs|
        invariant forall k :: 0 <= k < i ==> fs[k].locator != order[j]
      {
        if fs[i].locator == order[j] {
          FirstMatchAt(fs, order[j], i);
          return Some(fs[i].outcome);
        }
        i := i + 1;
      }
      FirstMatchNone(fs, order[j]);
      assert order[j..][1..] == order[j + 1..];
      j := j + 1;
    }
    return None;
  }

  /** The commands and result of `check_outcomes`: it never fails. */
  function RaceRun<T>(appeared: seq<Locator>, checks: seq<(Locator, T)>, timeout: Millis): (run: Run<Option<T>>)
    ensures run.result.Ok?
    ensures |run.issued| == |checks|
    ensures forall i :: 0 <= i < |checks| ==> run.issued[i] == WaitFor(checks[i].0, timeout)
  {
    var fs := Arm(checks, timeout);
    Run(Ok(Winner(fs, appeared)), Waits(fs))
  }

  /**
   * `check_outcomes`: arm one bounded wait per check, all with the same
   * timeout, run them together and report the outcome of the first to see
   * its element. A wait that times out only drops out of the race.
   * `select_ok` panics on an empty list of futures, so at least one check
   * is required.
   */
  method CheckOutcomes<T>(driver: WebDriver, checks: seq<(Locator, T)>, timeout: Millis) returns (r: Result<Option<T>>)
    requires checks != []
    modifies driver
    ensures r == RaceRun(driver.appeared, checks, timeout).result
    ensures driver.log == old(driver.log) + RaceRun(driver.appeared, checks, timeout).issued
  {
    var futures: seq<Pending<T>> := [];
    for i := 0 to |checks|
      invariant futures == Arm(checks[..i], timeout)
    {
      var (locator, outcome) := checks[i];
      assert checks[..i + 1][..i] == checks[..i];
      futures := futures + [Pending(locator, outcome, timeout)];
    }
    assert checks[..|checks|] == checks;
    var order := driver.AwaitAll(Waits(futures));
    var winner := SelectFirst(futures, order);
    r := Ok(winner);
  }

  /**
   * The race's result by the reference definition: when `appeared[j]` is the
   * first rendered element any check waits for, and `checks[i]` is the first
   * check for it, the race reports `checks[i]`'s outcome.
   */
  lemma RaceRunEarliest<T>(appeared: seq<Locator>, checks: seq<(Locator, T)>, timeout: Millis, j: nat, i: nat)
    requires j < |appeared| && i < |checks| && checks[i].0 == appeared[j]
    requires forall k :: 0 <= k < i ==> checks[k].0 != appeared[j]
    requires forall m, k :: 0 <= m < j && 0 <= k < |checks| ==> checks[k].0 != appeared[m]
    ensures RaceRun(appeared, checks, timeout).result == Ok(Some(checks[i].1))
  {
    WinnerIsEarliest(Arm(checks, timeout), appeared, j, i);
  }

  /** The race reports nothing exactly when no checked element rendered. */
  lemma RaceRunSilent<T>(appeared: seq<Locator>, checks: seq<(Locator, T)>, timeout: Millis)
    ensures RaceRun(appeared, checks, timeout).result == Ok(None) <==>
      forall k :: 0 <= k < |checks| ==> checks[k].0 !in appeared
  {
    var fs := Arm(checks, timeout);
    WinnerNoneIff(fs, appeared);
    assert forall k :: 0 <= k < |checks| ==> fs[k].locator == checks[k].0;
  }
}
