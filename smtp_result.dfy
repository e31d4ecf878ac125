/**
 * `SmtpVerificationResult` and its four constructors
 * (src/utils/smtp/result.rs).
 */
module SmtpResult {

  import opened Wrappers

  /**
   * The outcome of one SMTP verification attempt: `mailboxExists` (the source's `exists`) is `Some(true)`
   * for an existing mailbox, `Some(false)` for a rejected one and `None` when
   * the attempt was inconclusive.
   */
  datatype SmtpVerificationResult = SmtpVerificationResult(
    mailboxExists: Option<bool>,
    message: string,
    shouldRetry: bool,
    isCatchAll: bool)

  /** A definite answer; never worth retrying. */
  function Conclusive(mailboxExists: bool, message: string, isCatchAll: bool): (r: SmtpVerificationResult)
    ensures r.mailboxExists == Some(mailboxExists) && r.message == message
    ensures !r.shouldRetry && r.isCatchAll == isCatchAll
  {
    SmtpVerificationResult(Some(mailboxExists), message, false, isCatchAll)
  }

  /** No answer, and a later attempt may get one. */
  function InconclusiveRetry(message: string): (r: SmtpVerificationResult)
    ensures r.mailboxExists == None && r.message == message
    ensures r.shouldRetry && !r.isCatchAll
  {
    SmtpVerificationResult(None, message, true, false)
  }

  /** No answer, and retrying will not help. */
  function InconclusiveNoRetry(message: string): (r: SmtpVerificationResult)
    ensures r.mailboxExists == None && r.message == message
    ensures !r.shouldRetry && !r.isCatchAll
  {
    SmtpVerificationResult(None, message, false, false)
  }

  /** The domain accepts every address, so nothing was learned about this one. */
  function CatchAll(message: string): (r: SmtpVerificationResult)
    ensures r.mailboxExists == None && r.message == message
    ensures !r.shouldRetry && r.isCatchAll
  {
    SmtpVerificationResult(None, message, false, true)
  }

  /**
   * The invariant the four constructors keep: a retry is suggested only for
   * an inconclusive attempt on a domain not known to be catch-all.
   */
  predicate RetryOnlyWhenUndecided(r: SmtpVerificationResult)
  {
    r.shouldRetry ==> r.mailboxExists == None && !r.isCatchAll
  }

  /** The constructor that builds records shaped like `r`. */
  datatype Kind = KConclusive | KInconclusiveRetry | KInconclusiveNoRetry | KCatchAll

  function KindOf(r: SmtpVerificationResult): (k: Kind)
    requires RetryOnlyWhenUndecided(r)
  {
    if r.mailboxExists.Some? then KConclusive
    else if r.shouldRetry then KInconclusiveRetry
    else if r.isCatchAll then KCatchAll
    else KInconclusiveNoRetry
  }

  /** Applies the constructor of kind `k` to the fields it takes from `r`. */
  function Rebuild(k: Kind, r: SmtpVerificationResult): SmtpVerificationResult
  {
    match k
    case KConclusive => Conclusive(r.mailboxExists.GetOr(false), r.message, r.isCatchAll)
    case KInconclusiveRetry => InconclusiveRetry(r.message)
    case KInconclusiveNoRetry => InconclusiveNoRetry(r.message)
    case KCatchAll => CatchAll(r.message)
  }

  /** Every constructor keeps the invariant. */
  lemma ConstructorsKeepInvariant(mailboxExists: bool, message: string, isCatchAll: bool)
    ensures RetryOnlyWhenUndecided(Conclusive(mailboxExists, message, isCatchAll))
    ensures RetryOnlyWhenUndecided(InconclusiveRetry(message))
    ensures RetryOnlyWhenUndecided(InconclusiveNoRetry(message))
    ensures RetryOnlyWhenUndecided(CatchAll(message))
  {
  }

  /**
   * Conversely, every record that keeps the invariant is what exactly one
   * constructor builds from the record's own fields: the four constructors
   * cover the invariant's records and nothing else.
   */
  lemma InvariantRecordsAreConstructed(r: SmtpVerificationResult)
    requires RetryOnlyWhenUndecided(r)
    ensures Rebuild(KindOf(r), r) == r
    ensures forall k :: Rebuild(k, r) == r ==> k == KindOf(r)
  {
  }

  /** Each constructor's kind is recognised from the record it builds. */
  lemma KindOfConstructors(mailboxExists: bool, message: string, isCatchAll: bool)
    ensures KindOf(Conclusive(mailboxExists, message, isCatchAll)) == KConclusive
    ensures KindOf(InconclusiveRetry(message)) == KInconclusiveRetry
    ensures KindOf(InconclusiveNoRetry(message)) == KInconclusiveNoRetry
    ensures KindOf(CatchAll(message)) == KCatchAll
  {
  }
}
