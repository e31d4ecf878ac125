/**
 * The runtime configuration record, its defaults and its field-wise copy
 * (src/core/config/mod.rs).
 */
module Configuration {

  import opened Wrappers

  type U8 = x: int | 0 <= x < 0x100
  type U32 = x: int | 0 <= x < 0x1_0000_0000
  type USize = x: int | 0 <= x < 0x1_0000_0000_0000_0000

  /** A `std::time::Duration`, in milliseconds. */
  type Millis = nat

  datatype Config = Config(
    requestTimeout: Millis,
    /** Lower and upper bound, in seconds, of the pause between requests. */
    sleepBetweenRequests: (real, real),
    userAgent: string,
    dnsTimeout: Millis,
    dnsServers: seq<string>,
    smtpTimeout: Millis,
    smtpSenderEmail: string,
    maxVerificationAttempts: U32,
    commonPagesToScrape: seq<string>,
    /** The source pattern of the compiled address regex. */
    emailRegex: string,
    genericEmailPrefixes: set<string>,
    confidenceThreshold: U8,
    genericConfidenceThreshold: U8,
    maxAlternatives: USize,
    maxConcurrency: USize,
    enableApiChecks: bool,
    enableHeadlessChecks: bool,
    webdriverUrl: Option<string>,
    chromedriverPath: Option<string>,
    earlyTerminationThreshold: U8,
    loadedConfigPath: Option<string>)

  /** The pages scraped by default, in the order they are tried. */
  const CommonPages: seq<string> := [
    "/contact", "/contact-us", "/contactus", "/contact_us",
    "/about", "/about-us", "/aboutus", "/about_us",
    "/team", "/our-team", "/our_team", "/meet-the-team",
    "/people", "/staff", "/company"]

  /** The local parts that mark an address as generic, as the source lists them. */
  const GenericPrefixList: seq<string> := [
    "info", "contact", "hello", "help", "support", "admin", "office", "sales", "press",
    "media", "marketing", "jobs", "careers", "hiring", "privacy", "security", "legal", "membership",
    "team", "people", "general", "feedback", "enquiries", "inquiries", "mail", "email", "pitch",
    "invest", "investors", "ir", "webmaster", "newsletter", "apply", "partner", "partners", "ventures"]

  /** The list as the set the configuration holds; a repeated entry would collapse. */
  const DefaultGenericPrefixes: set<string> := set p | p in GenericPrefixList

  const EmailRegexPattern: string := "\\b[A-Za-z0-9._%+-]+@[A-Za-z0-9.-]+\\.[A-Z|a-z]{2,}\\b"

  const DefaultDnsServers: seq<string> := ["8.8.8.8", "8.8.4.4", "1.1.1.1", "1.0.0.1"]

  /**
   * `build_default`. The crate version baked into the user agent and the
   * machine's available parallelism (`None` when it cannot be queried) are
   * the two facts it takes from its environment.
   */
  function BuildDefault(crateVersion: string, parallelism: Option<USize>): (c: Config)
    ensures c.confidenceThreshold == 4 && c.genericConfidenceThreshold == 7
    ensures c.earlyTerminationThreshold == 9 && c.maxAlternatives == 5
    ensures c.maxConcurrency >= 1
    ensures parallelism.Some? && parallelism.value >= 1 ==> c.maxConcurrency == parallelism.value
    ensures c.maxVerificationAttempts == 2 && c.smtpSenderEmail == "verify-probe@example.com"
    ensures !c.enableHeadlessChecks && !c.enableApiChecks
    ensures c.webdriverUrl == None && c.chromedriverPath == None && c.loadedConfigPath == None
    ensures c.genericEmailPrefixes == DefaultGenericPrefixes
    ensures c.userAgent == "email-sleuth-core/" + crateVersion
  {
    var available := match parallelism case Some(n) => n case None => 1;
    Config(
      requestTimeout := 10_000,
      sleepBetweenRequests := (0.1, 0.5),
      userAgent := "email-sleuth-core/" + crateVersion,
      dnsTimeout := 5_000,
      dnsServers := DefaultDnsServers,
      smtpTimeout := 5_000,
      smtpSenderEmail := "verify-probe@example.com",
      maxVerificationAttempts := 2,
      commonPagesToScrape := CommonPages,
      emailRegex := EmailRegexPattern,
      genericEmailPrefixes := DefaultGenericPrefixes,
      confidenceThreshold := 4,
      genericConfidenceThreshold := 7,
      maxAlternatives := 5,
      maxConcurrency := if available >= 1 then available else 1,
      enableApiChecks := false,
      enableHeadlessChecks := false,
      webdriverUrl := None,
      chromedriverPath := None,
      earlyTerminationThreshold := 9,
      loadedConfigPath := None)
  }

  /** `Clone for Config`: a field-by-field copy, which is the same record. */
  function Clone(c: Config): (d: Config)
    ensures d == c
  {
    Config(
      requestTimeout := c.requestTimeout,
      sleepBetweenRequests := c.sleepBetweenRequests,
      userAgent := c.userAgent,
      dnsTimeout := c.dnsTimeout,
      dnsServers := c.dnsServers,
      smtpTimeout := c.smtpTimeout,
      smtpSenderEmail := c.smtpSenderEmail,
      maxVerificationAttempts := c.maxVerificationAttempts,
      commonPagesToScrape := c.commonPagesToScrape,
      emailRegex := c.emailRegex,
      genericEmailPrefixes := c.genericEmailPrefixes,
      confidenceThreshold := c.confidenceThreshold,
      genericConfidenceThreshold := c.genericConfidenceThreshold,
      maxAlternatives := c.maxAlternatives,
      maxConcurrency := c.maxConcurrency,
      enableApiChecks := c.enableApiChecks,
      enableHeadlessChecks := c.enableHeadlessChecks,
      webdriverUrl := c.webdriverUrl,
      chromedriverPath := c.chromedriverPath,
      earlyTerminationThreshold := c.earlyTerminationThreshold,
      loadedConfigPath := c.loadedConfigPath)
  }

  /** No two entries of `s` are equal. */
  predicate Distinct<T(==)>(s: seq<T>)
  {
    forall i, j :: 0 <= i < j < |s| ==> s[i] != s[j]
  }

  lemma {:induction false} DistinctElementsCount<T>(s: seq<T>)
    requires Distinct(s)
    ensures |set x | x in s| == |s|
  {
    if s != [] {
      var rest := s[1..];
      assert Distinct(rest) by {
        forall i, j | 0 <= i < j < |rest| ensures rest[i] != rest[j] {
          assert rest[i] == s[i + 1] && rest[j] == s[j + 1];
        }
      }
      DistinctElementsCount(rest);
      assert (set x | x in s) == {s[0]} + (set x | x in rest);
      assert s[0] !in (set x | x in rest) by {
        forall i | 0 <= i < |rest| ensures rest[i] != s[0] {
          assert rest[i] == s[i + 1];
        }
      }
    }
  }

  // Distinctness of the prefix list, checked in three parts to keep each proof small.
  lemma FirstHalfDistinct()
    ensures forall i, j :: 0 <= i < j < 18 ==> GenericPrefixList[i] != GenericPrefixList[j]
  {
  }

  lemma SecondHalfDistinct()
    ensures forall i, j :: 18 <= i < j < 36 ==> GenericPrefixList[i] != GenericPrefixList[j]
  {
  }

  lemma HalvesDistinct()
    ensures forall i, j :: 0 <= i < 18 <= j < 36 ==> GenericPrefixList[i] != GenericPrefixList[j]
  {
  }

  lemma GenericPrefixListDistinct()
    ensures Distinct(GenericPrefixList)
  {
    FirstHalfDistinct();
    SecondHalfDistinct();
    HalvesDistinct();
  }

  /** The default generic prefix set has exactly 36 members: the list repeats none. */
  lemma DefaultGenericPrefixCount()
    ensures |DefaultGenericPrefixes| == 36
    ensures "info" in DefaultGenericPrefixes && "support" in DefaultGenericPrefixes
    ensures "ventures" in DefaultGenericPrefixes
  {
    GenericPrefixListDistinct();
    DistinctElementsCount(GenericPrefixList);
    assert GenericPrefixList[0] == "info" && GenericPrefixList[4] == "support";
    assert GenericPrefixList[35] == "ventures";
  }

  /**
   * The default thresholds are ordered: a result good enough to stop early
   * clears both acceptance thresholds, and all three lie on the 0 to 10
   * confidence scale.
   */
  lemma DefaultThresholdsOrdered(crateVersion: string, parallelism: Option<USize>)
    ensures var c := BuildDefault(crateVersion, parallelism);
      c.confidenceThreshold <= c.genericConfidenceThreshold <= c.earlyTerminationThreshold <= 10
  {
  }
}
