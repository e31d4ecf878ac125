/**
 * The application error type `AppError`, its display strings and the two
 * conversions from WebDriver client errors (src/core/error.rs).
 *
 * Errors raised by foreign libraries (io, serde_json, url, reqwest,
 * trust_dns, lettre, anyhow) carry their own display text, which the model
 * keeps as an opaque string payload.
 */
module Errors {

  import opened Wrappers

  /** A decimal digit. */
  type Digit = d: int | 0 <= d <= 9

  /**
   * An SMTP reply code as the mail library represents it: a severity, a
   * category and a detail digit; it displays as the three digits in that
   * order. The model allows any decimal digit in each place.
   */
  datatype SmtpCode = SmtpCode(severity: Digit, category: Digit, detail: Digit)

  datatype AppError =
    | Config(message: string)
    | Initialization(message: string)
    | Io(message: string)
    | Json(message: string)
    | UrlParse(message: string)
    | Request(message: string)
    | HtmlParse(message: string)
    | Dns(message: string)
    | NxDomain(message: string)
    | NoDnsRecords(message: string)
    | DnsTimeout(message: string)
    | Smtp(message: string)
    | SmtpCommand(code: SmtpCode, message: string)
    | SmtpTls(message: string)
    | AddrParse(message: string)
    | Task(message: string)
    | Generic(message: string)
    | InsufficientInput(message: string)
    | DomainExtraction(message: string)
    | SmtpTemporaryFailure(message: string)
    | SmtpPermanentFailure(message: string)
    | SmtpInconclusive(message: string)
    | WebDriverConnection(message: string)
    | VerificationBlocked(message: string)
    | FantocciniCmd(message: string)

  /** `crate::core::error::Result<T>`. */
  datatype Result<+T> = Ok(value: T) | Err(error: AppError)

  /**
   * The text before the first colon of each variant's display format; the
   * shortest is "IO Error", so the first eight characters of a display are
   * always its label's.
   */
  function Label(e: AppError): (l: string)
    ensures |l| >= 8
  {
    match e
    case Config(_) => "Configuration Error"
    case Initialization(_) => "Initialization Error"
    case Io(_) => "IO Error"
    case Json(_) => "JSON Error"
    case UrlParse(_) => "URL Parsing Error"
    case Request(_) => "HTTP Request Error"
    case HtmlParse(_) => "HTML Parsing Error"
    case Dns(_) => "DNS Resolution Error"
    case NxDomain(_) => "Domain Not Found (NXDOMAIN)"
    case NoDnsRecords(_) => "No DNS Records Found (MX/A)"
    case DnsTimeout(_) => "DNS Timeout for domain"
    case Smtp(_) => "SMTP Error"
    case SmtpCommand(_, _) => "SMTP Command Error"
    case SmtpTls(_) => "SMTP STARTTLS Error"
    case AddrParse(_) => "Address Parsing Error"
    case Task(_) => "Task Execution Error"
    case Generic(_) => "Generic Error"
    case InsufficientInput(_) => "Insufficient Input Data"
    case DomainExtraction(_) => "Failed to extract domain from URL"
    case SmtpTemporaryFailure(_) => "SMTP Temporary Failure"
    case SmtpPermanentFailure(_) => "SMTP Permanent Failure"
    case SmtpInconclusive(_) => "SMTP Inconclusive"
    case WebDriverConnection(_) => "WebDriver Connection Error"
    case VerificationBlocked(_) => "Verification Blocked"
    case FantocciniCmd(_) => "WebDriver Command Error"
  }

  function DigitChar(d: Digit): char
  {
    "0123456789"[d]
  }

  /** The three-digit rendering of an SMTP reply code. */
  function CodeText(c: SmtpCode): string
  {
    [DigitChar(c.severity), DigitChar(c.category), DigitChar(c.detail)]
  }

  /** What follows "<name>: " in the display of `e`. */
  function Detail(e: AppError): (d: string)
    ensures !e.SmtpCommand? ==> d == e.message
    ensures e.SmtpCommand? ==> |d| == |e.message| + 20 && d[19..|d| - 1] == e.message
  {
    if e.SmtpCommand? then "Code=" + CodeText(e.code) + ", Message='" + e.message + "'"
    else e.message
  }

  /** The `Display` text of an error, as its `#[error(...)]` format writes it. */
  function Display(e: AppError): string
  {
    Label(e) + ": " + Detail(e)
  }

  /** The payload of a string-carrying error is everything after "<label>: ". */
  lemma DisplayCarriesPayload(e: AppError)
    requires !e.SmtpCommand?
    ensures Display(e)[..|Label(e)| + 2] == Label(e) + ": "
    ensures Display(e)[|Label(e)| + 2..] == e.message
  {
  }

  /** The first characters of a display are those of its label. */
  lemma DisplayStartsWithLabel(e: AppError, k: nat)
    requires k < |Label(e)|
    ensures Display(e)[k] == Label(e)[k]
  {
    assert Display(e)[..|Label(e)| + 2] == Label(e) + ": ";
    assert (Label(e) + ": ")[k] == Label(e)[k];
  }

  /** Two errors whose labels differ at a position both reach never display alike. */
  lemma DisplaysDifferAt(e: AppError, f: AppError, k: nat)
    requires k < |Label(e)| && k < |Label(f)| && Label(e)[k] != Label(f)[k]
    ensures Display(e) != Display(f)
  {
    DisplayStartsWithLabel(e, k);
    DisplayStartsWithLabel(f, k);
  }

  /** The three SMTP verification outcomes never display alike. */
  lemma SmtpOutcomesDisplayApart(a: string, b: string, c: string)
    ensures Display(SmtpTemporaryFailure(a)) != Display(SmtpPermanentFailure(b))
    ensures Display(SmtpTemporaryFailure(a)) != Display(SmtpInconclusive(c))
    ensures Display(SmtpPermanentFailure(b)) != Display(SmtpInconclusive(c))
  {
    var t, p, i := SmtpTemporaryFailure(a), SmtpPermanentFailure(b), SmtpInconclusive(c);
    assert Label(t)[5] == 'T' && Label(p)[5] == 'P' && Label(i)[5] == 'I';
    DisplaysDifferAt(t, p, 5);
    DisplaysDifferAt(t, i, 5);
    DisplaysDifferAt(p, i, 5);
  }

  /**
   * A failed connection to the WebDriver endpoint, a failed browser command
   * and a blocked verification never display alike.
   */
  lemma WebDriverFailuresDisplayApart(a: string, b: string, c: string)
    ensures Display(WebDriverConnection(a)) != Display(FantocciniCmd(b))
    ensures Display(WebDriverConnection(a)) != Display(VerificationBlocked(c))
    ensures Display(FantocciniCmd(b)) != Display(VerificationBlocked(c))
  {
    var n, m, v := WebDriverConnection(a), FantocciniCmd(b), VerificationBlocked(c);
    assert Label(n)[12] == 'n' && Label(m)[12] == 'm' && Label(n)[0] == 'W' && Label(m)[0] == 'W' && Label(v)[0] == 'V';
    DisplaysDifferAt(n, m, 12);
    DisplaysDifferAt(n, v, 0);
    DisplaysDifferAt(m, v, 0);
  }

  function DigitOf(c: char): Option<Digit>
  {
    if '0' <= c <= '9' then Some((c as int - '0' as int) as Digit) else None
  }

  /** Reads the code and the message back out of an SMTP command error's detail. */
  function ReadCommandDetail(d: string): Option<(SmtpCode, string)>
  {
    if |d| < 20 || d[..5] != "Code=" || d[8..19] != ", Message='" || d[|d| - 1] != '\'' then None
    else
      match (DigitOf(d[5]), DigitOf(d[6]), DigitOf(d[7]))
      case (Some(a), Some(b), Some(c)) => Some((SmtpCode(a, b, c), d[19..|d| - 1]))
      case _ => None
  }

  /**
   * The SMTP command error shows the server's code and message so that
   * both can be read back from its detail text.
   */
  lemma SmtpCommandDetailReadsBack(code: SmtpCode, m: string)
    ensures ReadCommandDetail(Detail(SmtpCommand(code, m))) == Some((code, m))
  {
  }

  /** True when `p` is a prefix of `s`. */
  predicate StartsWith(s: string, p: string)
  {
    |p| <= |s| && s[..|p|] == p
  }

  /** Rust's `str::contains` for a string pattern. */
  predicate Contains(s: string, p: string)
    decreases |s|
  {
    StartsWith(s, p) || (s != [] && Contains(s[1..], p))
  }

  /**
   * `From<CmdError>`: both branches of the source's test build the same
   * variant, so every browser command failure, including an intercepted or
   * non-interactable click, becomes `FantocciniCmd` with the error's text.
   */
  function FromCmdError(message: string): (e: AppError)
    ensures e.FantocciniCmd? && e.message == message
  {
    if Contains(message, "element click intercepted") || Contains(message, "element is not interactable") then
      FantocciniCmd(message)
    else
      FantocciniCmd(message)
  }

  /** `From<NewSessionError>`: a failed session becomes `WebDriverConnection`. */
  function FromNewSessionError(message: string): (e: AppError)
    ensures e.WebDriverConnection? && e.message == message
  {
    WebDriverConnection(message)
  }

  /** How the two conversions read once displayed. */
  lemma ConversionsDisplay(message: string)
    ensures Display(FromCmdError(message)) == "WebDriver Command Error: " + message
    ensures Display(FromNewSessionError(message)) == "WebDriver Connection Error: " + message
  {
    var cmd, session := FromCmdError(message), FromNewSessionError(message);
    assert cmd == FantocciniCmd(message) && session == WebDriverConnection(message);
    assert Label(cmd) == "WebDriver Command Error";
    assert Label(session) == "WebDriver Connection Error";
  }
}
