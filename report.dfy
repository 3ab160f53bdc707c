/**
 * The report `analyze_website` builds, and the analysis itself: the four checks
 * run in a fixed order (cookies, banner, buttons, policy link), each one adding
 * its points to the compliance score and its finding to the summary.
 */
module Report {
  import opened Wrappers
  import opened Keywords
  import opened Checks

  /** One line of the summary, tagged instead of worded. */
  datatype Finding =
    | CookiesOk
    | CookiesProblem(cookieCount: nat)
    | BannerMentioned
    | BannerMissing
    | RejectButtonFound
    | RejectButtonMissing
    | PolicyLinkFound(url: string)
    | PolicyLinkMissing

  /** The check a finding reports on. */
  datatype Topic = CookieTopic | BannerTopic | RejectTopic | PolicyTopic

  function TopicOf(f: Finding): Topic {
    match f
    case CookiesOk | CookiesProblem(_) => CookieTopic
    case BannerMentioned | BannerMissing => BannerTopic
    case RejectButtonFound | RejectButtonMissing => RejectTopic
    case PolicyLinkFound(_) | PolicyLinkMissing => PolicyTopic
  }

  function Topics(fs: seq<Finding>): seq<Topic> {
    seq(|fs|, i requires 0 <= i < |fs| => TopicOf(fs[i]))
  }

  lemma TopicsAppend(fs: seq<Finding>, f: Finding)
    ensures Topics(fs + [f]) == Topics(fs) + [TopicOf(f)]
  {
  }

  /** `scan_results`: an entry is `None` while its key is absent from the dictionary. */
  datatype ScanResults = ScanResults(
    initialCookiesCheck: Option<CookieCheck>,
    cookieBannerFound: Option<bool>,
    bannerButtons: Option<ButtonCheck>,
    policyLinkFound: Option<bool>,
    policyLinkUrl: Option<string>)

  const NoScanResults := ScanResults(None, None, None, None, None)

  /** Why a run stopped early: the page has no `<body>`, or `urljoin` raised
      while resolving the policy anchor's `href`. */
  datatype Failure = MissingBody | UrlJoinRaised

  /** The result dictionary: `url`, `scan_results`, `compliance_score`, `summary`
      and, when the run failed, `error`. */
  datatype Report = Report(
    url: string,
    scanResults: ScanResults,
    complianceScore: int,
    summary: seq<Finding>,
    error: Option<Failure>)

  function CookieFinding(c: CookieCheck): Finding {
    if CookiesPass(c) then CookiesOk else CookiesProblem(c.cookiesFoundOnLoad)
  }

  function BannerFinding(found: bool): Finding {
    if found then BannerMentioned else BannerMissing
  }

  /** Only the reject button is reported; an accept button earns points silently. */
  function RejectFinding(rejectFound: bool): Finding {
    if rejectFound then RejectButtonFound else RejectButtonMissing
  }

  function PolicyFinding(link: Option<string>): Finding {
    if LinkIsTruthy(link) then PolicyLinkFound(link.value) else PolicyLinkMissing
  }

  /** The points that the recorded scan results are worth. */
  function EarnedPoints(s: ScanResults): nat {
    (if s.initialCookiesCheck.Some? then CookiePoints(s.initialCookiesCheck.value) else 0)
    + (if s.cookieBannerFound.Some? then BannerPoints(s.cookieBannerFound.value) else 0)
    + (if s.bannerButtons.Some? then ButtonPoints(s.bannerButtons.value) else 0)
    + (if s.policyLinkFound.Some? then PolicyPoints(s.policyLinkFound.value) else 0)
  }

  /** The summary topics that the recorded scan results call for, in check order. */
  function RecordedTopics(s: ScanResults): seq<Topic> {
    (if s.initialCookiesCheck.Some? then [CookieTopic] else [])
    + (if s.cookieBannerFound.Some? then [BannerTopic] else [])
    + (if s.bannerButtons.Some? then [RejectTopic] else [])
    + (if s.policyLinkFound.Some? then [PolicyTopic] else [])
  }

  /** The finding says what the scan results record for its check. */
  predicate Agrees(f: Finding, s: ScanResults) {
    match f
    case CookiesOk => s.initialCookiesCheck.Some? && CookiesPass(s.initialCookiesCheck.value)
    case CookiesProblem(n) =>
      s.initialCookiesCheck.Some? && !CookiesPass(s.initialCookiesCheck.value)
      && n == s.initialCookiesCheck.value.cookiesFoundOnLoad
    case BannerMentioned => s.cookieBannerFound == Some(true)
    case BannerMissing => s.cookieBannerFound == Some(false)
    case RejectButtonFound => s.bannerButtons.Some? && s.bannerButtons.value.rejectFound
    case RejectButtonMissing => s.bannerButtons.Some? && !s.bannerButtons.value.rejectFound
    case PolicyLinkFound(u) => s.policyLinkFound == Some(true) && s.policyLinkUrl == Some(u)
    case PolicyLinkMissing => s.policyLinkFound == Some(false)
  }

  /** A report whose score is exactly what its scan results earn, whose summary
      has one finding per recorded check in check order, each saying what its
      check recorded, and which carries a policy URL exactly when it says a
      policy link was found. */
  predicate WellFormed(r: Report) {
    && r.complianceScore == EarnedPoints(r.scanResults)
    && Topics(r.summary) == RecordedTopics(r.scanResults)
    && (forall k | 0 <= k < |r.summary| :: Agrees(r.summary[k], r.scanResults))
    && (r.scanResults.policyLinkUrl.Some? <==> r.scanResults.policyLinkFound == Some(true))
  }

  // Which checks have run, in the order `analyze_website` runs them.
  predicate CookiesRecorded(s: ScanResults) {
    s == NoScanResults.(initialCookiesCheck := s.initialCookiesCheck) && s.initialCookiesCheck.Some?
  }

  predicate BannerRecorded(s: ScanResults) {
    s.initialCookiesCheck.Some? && s.cookieBannerFound.Some?
    && s.bannerButtons.None? && s.policyLinkFound.None? && s.policyLinkUrl.None?
  }

  predicate ButtonsRecorded(s: ScanResults) {
    s.initialCookiesCheck.Some? && s.cookieBannerFound.Some? && s.bannerButtons.Some?
    && s.policyLinkFound.None? && s.policyLinkUrl.None?
  }

  /** What a run of the analyzer produces, stated as a whole: on a page with a
      body, all four checks with the sum of their points and one finding each; on
      a page without one, the cookie check alone and the error; when `urljoin`
      raises, the first three checks and the error. */
  function Analysis(url: string, cookies: seq<Cookie>, doc: Document, config: KeywordConfig,
                    urlJoin: (string, string) -> Option<string>): Report
  {
    var check := InitialCookieCheck(cookies, config.trackerMarkers);
    match doc.body
    case None =>
      Report(url, NoScanResults.(initialCookiesCheck := Some(check)), CookiePoints(check),
             [CookieFinding(check)], Some(MissingBody))
    case Some(text) =>
      var banner := BannerFound(text, config.banner);
      var buttons := CheckButtons(doc.clickables, config.accept, config.reject);
      match PolicyLink(url, doc.anchors, config.policy, urlJoin)
      case JoinRaised =>
        Report(url,
               ScanResults(Some(check), Some(banner), Some(buttons), None, None),
               CookiePoints(check) + BannerPoints(banner) + ButtonPoints(buttons),
               [CookieFinding(check), BannerFinding(banner), RejectFinding(buttons.rejectFound)],
               Some(UrlJoinRaised))
      case Completed(link) =>
        var found := LinkIsTruthy(link);
        Report(url,
               ScanResults(Some(check), Some(banner), Some(buttons), Some(found), if found then link else None),
               CookiePoints(check) + BannerPoints(banner) + ButtonPoints(buttons) + PolicyPoints(found),
               [CookieFinding(check), BannerFinding(banner), RejectFinding(buttons.rejectFound), PolicyFinding(link)],
               None)
  }

  /** The result dictionary while `analyze_website` fills it in. */
  class ReportBuilder {
    const url: string
    const keywords: KeywordConfig
    var scanResults: ScanResults
    var complianceScore: int
    var summary: seq<Finding>
    var error: Option<Failure>

    function Snapshot(): Report
      reads this
    {
      Report(url, scanResults, complianceScore, summary, error)
    }

    ghost predicate Valid()
      reads this
    {
      WellFormed(Snapshot())
    }

    constructor (url: string, keywords: KeywordConfig)
      ensures Valid()
      ensures this.keywords == keywords
      ensures Snapshot() == Report(url, NoScanResults, 0, [], None)
    {
      this.url := url;
      this.keywords := keywords;
      scanResults := NoScanResults;
      complianceScore := 0;
      summary := [];
      error := None;
    }

    /** Step 1: the cookies present on load. */
    method CheckInitialCookies(cookies: seq<Cookie>)
      requires Valid() && scanResults == NoScanResults
      modifies this
      ensures Valid() && CookiesRecorded(scanResults)
      ensures var check := InitialCookieCheck(cookies, keywords.trackerMarkers);
        && scanResults == old(scanResults).(initialCookiesCheck := Some(check))
        && complianceScore == old(complianceScore) + CookiePoints(check)
        && summary == old(summary) + [CookieFinding(check)]
        && error == old(error)
    {
      var nonEssential := AnyTrackingCookie(cookies, keywords.trackerMarkers, 0);
      var check := CookieCheck(|cookies|, nonEssential, CookieNames(cookies));
      scanResults := scanResults.(initialCookiesCheck := Some(check));
      if !nonEssential && |cookies| < 5 {
        complianceScore := complianceScore + CookieWeight;
        summary := summary + [CookiesOk];
      } else {
        summary := summary + [CookiesProblem(|cookies|)];
      }
      TopicsAppend(old(summary), CookieFinding(check));
    }

    /** Step 2: banner keywords anywhere in the lowered body text. */
    method CheckBanner(bodyText: string)
      requires Valid() && CookiesRecorded(scanResults)
      modifies this
      ensures Valid() && BannerRecorded(scanResults)
      ensures var found := BannerFound(bodyText, keywords.banner);
        && scanResults == old(scanResults).(cookieBannerFound := Some(found))
        && complianceScore == old(complianceScore) + BannerPoints(found)
        && summary == old(summary) + [BannerFinding(found)]
        && error == old(error)
    {
      var found := BannerFound(bodyText, keywords.banner);
      scanResults := scanResults.(cookieBannerFound := Some(found));
      if found {
        complianceScore := complianceScore + BannerWeight;
        summary := summary + [BannerMentioned];
      } else {
        summary := summary + [BannerMissing];
      }
      TopicsAppend(old(summary), BannerFinding(found));
    }

    /** Step 3: accept and reject keywords in the texts of links and buttons. */
    method CheckButtonTexts(clickables: seq<string>)
      requires Valid() && BannerRecorded(scanResults)
      modifies this
      ensures Valid() && ButtonsRecorded(scanResults)
      ensures var buttons := CheckButtons(clickables, keywords.accept, keywords.reject);
        && scanResults == old(scanResults).(bannerButtons := Some(buttons))
        && complianceScore == old(complianceScore) + ButtonPoints(buttons)
        && summary == old(summary) + [RejectFinding(buttons.rejectFound)]
        && error == old(error)
    {
      var buttons := CheckButtons(clickables, keywords.accept, keywords.reject);
      scanResults := scanResults.(bannerButtons := Some(buttons));
      if buttons.acceptFound {
        complianceScore := complianceScore + AcceptWeight;
      }
      if buttons.rejectFound {
        complianceScore := complianceScore + RejectWeight;
        summary := summary + [RejectButtonFound];
      } else {
        summary := summary + [RejectButtonMissing];
      }
      TopicsAppend(old(summary), RejectFinding(buttons.rejectFound));
    }

    /** Step 4: the first anchor that names a policy, resolved against the page
        URL. When `urljoin` raises, nothing is recorded and `raised` is set, for
        the caller to take the `except` branch. */
    method CheckPolicyLink(anchors: seq<Anchor>, urlJoin: (string, string) -> Option<string>)
      returns (raised: bool)
      requires Valid() && ButtonsRecorded(scanResults)
      modifies this
      ensures Valid()
      ensures raised <==> PolicyLink(url, anchors, keywords.policy, urlJoin) == JoinRaised
      ensures raised ==> scanResults == old(scanResults) && complianceScore == old(complianceScore)
                         && summary == old(summary) && error == old(error)
      ensures !raised ==>
        var link := PolicyLink(url, anchors, keywords.policy, urlJoin).link;
        var found := LinkIsTruthy(link);
        && scanResults == old(scanResults).(policyLinkFound := Some(found),
                                            policyLinkUrl := if found then link else None)
        && complianceScore == old(complianceScore) + PolicyPoints(found)
        && summary == old(summary) + [PolicyFinding(link)]
        && error == old(error)
    {
      var outcome := FindPolicyLink(url, anchors, keywords.policy, urlJoin);
      if outcome.JoinRaised? {
        return true;
      }
      raised := false;
      var link := outcome.link;
      var found := link.Some? && link.value != "";
      scanResults := scanResults.(policyLinkFound := Some(found));
      if found {
        scanResults := scanResults.(policyLinkUrl := link);
        complianceScore := complianceScore + PolicyWeight;
        summary := summary + [PolicyLinkFound(link.value)];
      } else {
        summary := summary + [PolicyLinkMissing];
      }
      TopicsAppend(old(summary), PolicyFinding(link));
    }

    /** The `except` branch: record the error; what is already recorded stays. */
    method Fail(failure: Failure)
      requires Valid()
      modifies this
      ensures Valid()
      ensures error == Some(failure)
      ensures scanResults == old(scanResults) && complianceScore == old(complianceScore)
      ensures summary == old(summary)
    {
      error := Some(failure);
    }
  }

  /** `analyze_website`, given what the browser captured: the cookies on load
      and the parsed page. `urlJoin` stands for `urllib.parse.urljoin`, with
      `None` for the exception it raises on a malformed URL. */
  method AnalyzeWebsite(url: string, cookies: seq<Cookie>, doc: Document, config: KeywordConfig,
                        urlJoin: (string, string) -> Option<string>)
    returns (report: Report)
    ensures report == Analysis(url, cookies, doc, config, urlJoin)
    ensures WellFormed(report)
  {
    var builder := new ReportBuilder(url, config);
    builder.CheckInitialCookies(cookies);
    match doc.body {
      case None =>
        builder.Fail(MissingBody);
      case Some(text) =>
        builder.CheckBanner(text);
        builder.CheckButtonTexts(doc.clickables);
        var raised := builder.CheckPolicyLink(doc.anchors, urlJoin);
        if raised {
          builder.Fail(UrlJoinRaised);
        }
    }
    report := builder.Snapshot();
  }
}
