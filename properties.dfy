/** What the analysis promises, proved about its specification `Analysis`. */
module Properties {
  import opened Wrappers
  import opened Text
  import opened Keywords
  import opened Checks
  import opened Report

  // ------------------------------------------------------------ the score

  /** The cookie check earns 40 points exactly when no cookie name contains a
      tracker marker and there are fewer than 5 cookies; otherwise it earns 0. */
  lemma CookieContribution(cookies: seq<Cookie>, markers: seq<string>)
    ensures var points := CookiePoints(InitialCookieCheck(cookies, markers));
      && (points == 40 <==> (forall i | 0 <= i < |cookies| :: !IsTrackingName(cookies[i].name, markers)) && |cookies| < 5)
      && (points == 40 || points == 0)
  {
  }

  /** Every report the analysis produces is well formed: its score is what its
      scan results earn, and its summary follows the recorded checks in order,
      each finding saying what its check recorded. */
  lemma AnalysisIsWellFormed(url: string, cookies: seq<Cookie>, doc: Document, config: KeywordConfig,
                             urlJoin: (string, string) -> Option<string>)
    ensures WellFormed(Analysis(url, cookies, doc, config, urlJoin))
  {
  }

  /** A well-formed report scores between 0 and 100, in steps of 5. */
  lemma ScoreBounds(r: Report)
    requires WellFormed(r)
    ensures 0 <= r.complianceScore <= 100
    ensures r.complianceScore % 5 == 0
  {
  }

  /** On a page with a body the score is the sum of the five contributions,
      each counted once: 40 for clean cookies, 15 for a banner, 10 for an accept
      button, 25 for a reject button and 10 for a policy link. */
  lemma ScoreComposition(url: string, cookies: seq<Cookie>, doc: Document, config: KeywordConfig,
                         urlJoin: (string, string) -> Option<string>)
    requires doc.body.Some?
    ensures var r := Analysis(url, cookies, doc, config, urlJoin);
      r.complianceScore ==
        (if (forall i | 0 <= i < |cookies| :: !IsTrackingName(cookies[i].name, config.trackerMarkers))
            && |cookies| < 5 then 40 else 0)
        + (if TextMatches(doc.body.value, config.banner) then 15 else 0)
        + (if exists j | 0 <= j < |doc.clickables| :: TextMatches(doc.clickables[j], config.accept) then 10 else 0)
        + (if exists j | 0 <= j < |doc.clickables| :: TextMatches(doc.clickables[j], config.reject) then 25 else 0)
        + (if PolicyLink(url, doc.anchors, config.policy, urlJoin).Completed?
              && LinkIsTruthy(PolicyLink(url, doc.anchors, config.policy, urlJoin).link) then 10 else 0)
  {
  }

  // ---------------------------------------------------------------- cookies

  /** Adding a cookie anywhere in the snapshot adds one to the count, never
      clears the tracker flag and never raises the cookie contribution; adding a
      cookie with a tracker name makes the contribution 0. */
  lemma {:induction false} AddingCookieNeverRaisesContribution(cookies: seq<Cookie>, c: Cookie, pos: nat, markers: seq<string>)
    requires pos <= |cookies|
    ensures var before := InitialCookieCheck(cookies, markers);
      var after := InitialCookieCheck(cookies[..pos] + [c] + cookies[pos..], markers);
      && after.cookiesFoundOnLoad == before.cookiesFoundOnLoad + 1
      && (before.nonEssentialLikelyPresent ==> after.nonEssentialLikelyPresent)
      && CookiePoints(after) <= CookiePoints(before)
      && (IsTrackingName(c.name, markers) ==> CookiePoints(after) == 0)
  {
    var grown := cookies[..pos] + [c] + cookies[pos..];
    assert grown[pos] == c;
    if exists i | 0 <= i < |cookies| :: IsTrackingName(cookies[i].name, markers) {
      var i :| 0 <= i < |cookies| && IsTrackingName(cookies[i].name, markers);
      var k := if i < pos then i else i + 1;
      assert grown[k] == cookies[i];
    }
  }

  /** Cookie names are matched as they are, without lowering. */
  lemma CookieNamesAreCaseSensitive()
    ensures IsTrackingName("_ga", TrackerMarkers)
    ensures !IsTrackingName("_GA", TrackerMarkers)
    ensures IsTrackingName("_fbp", TrackerMarkers)
    ensures !IsTrackingName("_FBP", TrackerMarkers)
  {
  }

  // ---------------------------------------------------------------- buttons

  /** A button labelled in capitals still counts as an accept button. */
  lemma UpperCaseAcceptButton()
    ensures CheckButtons(["ACCEPT ALL"], AcceptKeywords, RejectKeywords).acceptFound
  {
  }

  /** Matching is by substring: "ok" inside "Cookies" makes an accept button. */
  lemma OkInsideWordCountsAsAccept()
    ensures CheckButtons(["Cookies"], AcceptKeywords, RejectKeywords).acceptFound
  {
  }

  /** An accept button earns 10 points and adds no finding: two pages that
      differ only in whether some link or button accepts have the same summary
      and scores 10 apart. */
  lemma AcceptEarnsPointsButNoFinding(url: string, cookies: seq<Cookie>, doc: Document, doc': Document,
                                      config: KeywordConfig, urlJoin: (string, string) -> Option<string>)
    requires doc.body.Some? && doc'.body == doc.body && doc'.anchors == doc.anchors
    requires CheckButtons(doc.clickables, config.accept, config.reject).rejectFound
             == CheckButtons(doc'.clickables, config.accept, config.reject).rejectFound
    requires !CheckButtons(doc.clickables, config.accept, config.reject).acceptFound
    requires CheckButtons(doc'.clickables, config.accept, config.reject).acceptFound
    ensures var r := Analysis(url, cookies, doc, config, urlJoin);
      var r' := Analysis(url, cookies, doc', config, urlJoin);
      r'.summary == r.summary && r'.complianceScore == r.complianceScore + 10
  {
  }

  // ------------------------------------------------------------ policy link

  /** The policy link comes from the first anchor, in document order, whose
      text names a policy; it is recorded only when the resolved URL is not
      empty, and when resolving it raises, the run ends with the error and no
      policy entry. With no such anchor nothing is recorded. */
  lemma PolicyLinkIsFirstMatch(url: string, cookies: seq<Cookie>, doc: Document, config: KeywordConfig,
                               urlJoin: (string, string) -> Option<string>, i: nat)
    requires doc.body.Some?
    requires i < |doc.anchors| && IsPolicyAnchor(doc.anchors[i], config.policy)
    requires forall j | 0 <= j < i :: !IsPolicyAnchor(doc.anchors[j], config.policy)
    ensures var r := Analysis(url, cookies, doc, config, urlJoin);
      var s := r.scanResults;
      match urlJoin(url, doc.anchors[i].href)
      case None => s.policyLinkFound == None && s.policyLinkUrl == None && r.error == Some(UrlJoinRaised)
      case Some(resolved) =>
        && s.policyLinkFound == Some(resolved != "")
        && s.policyLinkUrl == (if resolved != "" then Some(resolved) else None)
        && r.error == None
  {
  }

  lemma NoPolicyAnchorNoLink(url: string, cookies: seq<Cookie>, doc: Document, config: KeywordConfig,
                             urlJoin: (string, string) -> Option<string>)
    requires doc.body.Some?
    requires forall j | 0 <= j < |doc.anchors| :: !IsPolicyAnchor(doc.anchors[j], config.policy)
    ensures var r := Analysis(url, cookies, doc, config, urlJoin);
      r.scanResults.policyLinkFound == Some(false) && r.scanResults.policyLinkUrl == None && r.error == None
  {
  }

  // ---------------------------------------------------------------- summary

  /** The summary has one finding per check in check order: cookies, banner,
      reject button, policy link; without a body only the cookie finding; when
      `urljoin` raises, no policy finding. */
  lemma SummaryOrder(url: string, cookies: seq<Cookie>, doc: Document, config: KeywordConfig,
                     urlJoin: (string, string) -> Option<string>)
    ensures var r := Analysis(url, cookies, doc, config, urlJoin);
      Topics(r.summary) ==
        if doc.body.None? then [CookieTopic]
        else if PolicyLink(url, doc.anchors, config.policy, urlJoin) == JoinRaised
        then [CookieTopic, BannerTopic, RejectTopic]
        else [CookieTopic, BannerTopic, RejectTopic, PolicyTopic]
  {
  }

  /** The summary is a function of the scan results: two well-formed reports
      that record the same scan results have the same summary, finding for
      finding. */
  lemma {:induction false} SummaryDeterminedByScanResults(r: Report, r': Report)
    requires WellFormed(r) && WellFormed(r') && r.scanResults == r'.scanResults
    ensures r.summary == r'.summary
  {
    assert |r.summary| == |Topics(r.summary)| == |Topics(r'.summary)| == |r'.summary|;
    forall k | 0 <= k < |r.summary|
      ensures r.summary[k] == r'.summary[k]
    {
      assert Topics(r.summary)[k] == Topics(r'.summary)[k];
      assert Agrees(r.summary[k], r.scanResults) && Agrees(r'.summary[k], r.scanResults);
    }
  }

  // ------------------------------------------------------------- the error

  /** A run ends without an error exactly when the page has a body and the
      policy search does not raise. */
  lemma ErrorCases(url: string, cookies: seq<Cookie>, doc: Document, config: KeywordConfig,
                   urlJoin: (string, string) -> Option<string>)
    ensures var r := Analysis(url, cookies, doc, config, urlJoin);
      && (r.error == None <==> doc.body.Some? && PolicyLink(url, doc.anchors, config.policy, urlJoin) != JoinRaised)
      && (r.error == Some(MissingBody) <==> doc.body.None?)
  {
  }

  /** When `urljoin` raises on the policy anchor's `href`, the run records the
      error and keeps what the first three checks recorded: their scan
      results, their three findings and their points, at most 90 in all. The
      policy entries are absent. */
  lemma UrlJoinRaisedKeepsEarlierChecks(url: string, cookies: seq<Cookie>, doc: Document, config: KeywordConfig,
                                        urlJoin: (string, string) -> Option<string>)
    requires doc.body.Some? && PolicyLink(url, doc.anchors, config.policy, urlJoin) == JoinRaised
    ensures var r := Analysis(url, cookies, doc, config, urlJoin);
      var check := InitialCookieCheck(cookies, config.trackerMarkers);
      var banner := BannerFound(doc.body.value, config.banner);
      var buttons := CheckButtons(doc.clickables, config.accept, config.reject);
      && r.error == Some(UrlJoinRaised)
      && r.scanResults == ScanResults(Some(check), Some(banner), Some(buttons), None, None)
      && r.summary == [CookieFinding(check), BannerFinding(banner), RejectFinding(buttons.rejectFound)]
      && r.complianceScore == CookiePoints(check) + BannerPoints(banner) + ButtonPoints(buttons)
      && r.complianceScore <= 90
  {
  }

  /** Without a body the run records the error, and keeps what the cookie check
      already recorded: its scan result, its finding and its points. Nothing
      of the other three checks appears. */
  lemma MissingBodyKeepsCookieCheck(url: string, cookies: seq<Cookie>, doc: Document, config: KeywordConfig,
                                    urlJoin: (string, string) -> Option<string>)
    requires doc.body.None?
    ensures var r := Analysis(url, cookies, doc, config, urlJoin);
      var check := InitialCookieCheck(cookies, config.trackerMarkers);
      && r.error == Some(MissingBody)
      && r.scanResults == NoScanResults.(initialCookiesCheck := Some(check))
      && r.summary == [CookieFinding(check)]
      && r.complianceScore == CookiePoints(check)
  {
  }

  // -------------------------------------------------------------- scenarios

  /** Two session cookies and a page with nothing to find: 40 points. */
  lemma ScenarioCleanCookiesOnly(url: string, urlJoin: (string, string) -> Option<string>)
    ensures var r := Analysis(url, [Cookie("session_id", "1", "example.com"), Cookie("csrf_token", "2", "example.com")],
                              Document(Some("Welcome"), [], []), Default, urlJoin);
      && r.complianceScore == 40
      && r.scanResults.cookieBannerFound == Some(false)
      && r.scanResults.bannerButtons == Some(ButtonCheck(false, false))
      && r.scanResults.policyLinkFound == Some(false)
      && r.error == None
  {
    SessionCookiesAreClean();
    WelcomeIsNoBanner();
  }

  /** Neither `session_id` nor `csrf_token` contains a tracker fragment. */
  lemma SessionCookiesAreClean()
    ensures !IsTrackingName("session_id", TrackerMarkers)
    ensures !IsTrackingName("csrf_token", TrackerMarkers)
  {
  }

  /** "Welcome" contains no banner keyword. */
  lemma WelcomeIsNoBanner()
    ensures !BannerFound("Welcome", BannerKeywords)
  {
  }

  /** A snapshot with a `_ga` cookie earns no cookie points. */
  lemma GaCookieEarnsNothing(cookies: seq<Cookie>, k: nat)
    requires k < |cookies| && cookies[k].name == "_ga"
    ensures InitialCookieCheck(cookies, Default.trackerMarkers).nonEssentialLikelyPresent
    ensures CookiePoints(InitialCookieCheck(cookies, Default.trackerMarkers)) == 0
  {
    assert IsTrackingName(cookies[k].name, Default.trackerMarkers) by {
      ContainsAnyAt("_ga", TrackerMarkers, 0, 1);
    }
  }

  /** Body text that speaks of cookies counts as a banner. */
  lemma CookieTextIsBanner()
    ensures BannerFound("We use cookie files", Default.banner)
  {
    ContainsAnyAt(Lower("We use cookie files"), BannerKeywords, 0, 7);
  }

  /** "Accept All" and "Reject All" buttons are found as accept and reject buttons. */
  lemma AcceptAndRejectButtons()
    ensures CheckButtons(["Accept All", "Reject All", "Privacy Policy"], Default.accept, Default.reject)
            == ButtonCheck(true, true)
  {
    var clickables := ["Accept All", "Reject All", "Privacy Policy"];
    assert TextMatches(clickables[0], Default.accept) by {
      ContainsAnyAt(Lower("Accept All"), AcceptKeywords, 0, 0);
    }
    assert TextMatches(clickables[1], Default.reject) by {
      ContainsAnyAt(Lower("Reject All"), RejectKeywords, 0, 0);
    }
  }

  /** A "Privacy Policy" anchor names a policy. */
  lemma PrivacyPolicyAnchor(href: string)
    ensures IsPolicyAnchor(Anchor(href, "Privacy Policy"), Default.policy)
  {
    ContainsAnyAt(Lower("Privacy Policy"), PolicyKeywords, 1, 0);
  }

  /** Six cookies, one of them `_ga`, a banner, accept and reject buttons and
      a privacy-policy anchor: 0 + 15 + 10 + 25 + 10 = 60 points. */
  lemma ScenarioFullBannerWithTracker(cookies: seq<Cookie>, k: nat, doc: Document, urlJoin: (string, string) -> Option<string>)
    requires |cookies| == 6 && k < 6 && cookies[k].name == "_ga"
    requires doc == Document(Some("We use cookie files"),
                             ["Accept All", "Reject All", "Privacy Policy"],
                             [Anchor("/privacy", "Privacy Policy")])
    requires urlJoin("https://example.com/", "/privacy") == Some("https://example.com/privacy")
    ensures var r := Analysis("https://example.com/", cookies, doc, Default, urlJoin);
      && r.complianceScore == 60
      && r.scanResults.initialCookiesCheck.value.nonEssentialLikelyPresent
      && r.scanResults.bannerButtons == Some(ButtonCheck(true, true))
      && r.scanResults.policyLinkUrl == Some("https://example.com/privacy")
  {
    GaCookieEarnsNothing(cookies, k);
    CookieTextIsBanner();
    AcceptAndRejectButtons();
    PrivacyPolicyAnchor("/privacy");
    assert FirstPolicyAnchor(doc.anchors, Default.policy, 0) == Some(0);
  }

  /** Of two anchors that both name a policy, the first one in document order
      gives the link; the second one names a policy too. */
  lemma ScenarioTwoPolicyAnchors(url: string, first: string, second: string, resolved: string,
                                 urlJoin: (string, string) -> Option<string>)
    requires urlJoin(url, first) == Some(resolved) && resolved != ""
    ensures var r := Analysis(url, [], Document(Some(""), [], [Anchor(first, "Privacy Policy"), Anchor(second, "Cookie Policy")]),
                              Default, urlJoin);
      r.scanResults.policyLinkUrl == Some(resolved)
    ensures IsPolicyAnchor(Anchor(second, "Cookie Policy"), Default.policy)
  {
    var anchors := [Anchor(first, "Privacy Policy"), Anchor(second, "Cookie Policy")];
    PrivacyPolicyAnchor(first);
    ContainsAnyAt(Lower("Cookie Policy"), PolicyKeywords, 2, 0);
    assert FirstPolicyAnchor(anchors, Default.policy, 0) == Some(0);
  }

  /** The same page as in `ScenarioFullBannerWithTracker`, with no cookies and
      a policy `href` that `urljoin` rejects: the error is recorded after the
      banner and button checks, which keep their 50 points. */
  lemma ScenarioPolicyHrefRaises(doc: Document, urlJoin: (string, string) -> Option<string>)
    requires doc == Document(Some("We use cookie files"),
                             ["Accept All", "Reject All", "Privacy Policy"],
                             [Anchor("http://[x/privacy", "Privacy Policy")])
    requires urlJoin("https://example.com/", "http://[x/privacy") == None
    ensures var r := Analysis("https://example.com/", [], doc, Default, urlJoin);
      && r.error == Some(UrlJoinRaised)
      && r.complianceScore == 90
      && r.scanResults.bannerButtons == Some(ButtonCheck(true, true))
      && r.scanResults.policyLinkFound == None
      && |r.summary| == 3
  {
    CookieTextIsBanner();
    AcceptAndRejectButtons();
    PrivacyPolicyAnchor("http://[x/privacy");
    assert FirstPolicyAnchor(doc.anchors, Default.policy, 0) == Some(0);
  }

  /** A page without a body: the error is recorded, yet the cookie check of an
      empty snapshot keeps its 40 points and its finding. */
  lemma ScenarioMissingBody(url: string, urlJoin: (string, string) -> Option<string>)
    ensures var r := Analysis(url, [], Document(None, [], []), Default, urlJoin);
      && r.error == Some(MissingBody)
      && r.complianceScore == 40
      && r.summary == [CookiesOk]
      && r.scanResults.cookieBannerFound == None
      && r.scanResults.bannerButtons == None
      && r.scanResults.policyLinkFound == None
  {
  }
}
