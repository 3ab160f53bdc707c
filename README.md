# Cookie-consent compliance analyzer: a Dafny model

The analyzer gives a heuristic score for how a single web page handles cookie
consent. A headless browser captures the cookies present three seconds after
the page loads, plus the rendered HTML. Four checks then run over that
snapshot, in this order:

1. **Initial cookies.** Does any cookie name contain `ga`, `fbp` or
   `analytics`? Are there fewer than 5 cookies? Worth 40 points when no name
   matches and there are fewer than 5 cookies.
2. **Banner.** Does the lowered body text contain a banner keyword? Worth 15
   points.
3. **Buttons.** Does the lowered text of any link or button contain an accept
   keyword? Worth 10 points. A reject keyword? Worth 25 points.
4. **Policy link.** Find the first `<a href>` whose lowered text contains a
   policy keyword and resolve its `href` against the page URL. Worth 10 points.

Each check records an entry in `scan_results` and adds one finding to the
summary. The accept test is the exception: it adds points but no finding. A
page without `<body>` ends the run with an `error`, and so does an exception
from `urljoin` while the policy link is resolved. Whatever the earlier checks
have already recorded stays in the report.

The model is split into six modules:

- `Text` (`text.dfy`): `str.lower()`, Python's substring test `kw in t`, and
  `any(kw in t for kw in kws)`. `Lower` maps `LowerChar` over the string; its
  contract says the length is kept, no upper-case letter is left and every
  other character is unchanged. The substring tests are executable recursive
  predicates, and lemmas characterise them as "some keyword occurs at some
  index".
- `Keywords` (`keywords.dfy`): the four keyword lists and the tracker-name
  fragments, exactly as the analyzer defines them. The checks take these lists
  as a `KeywordConfig` value. `Keywords.Default` holds the analyzer's own lists.
  Passing them as a value keeps the proofs about arbitrary pages from unfolding
  the literal lists.
- `Checks` (`checks.dfy`): the browser snapshot as values (`Cookie`,
  `Document`, `Anchor`) and the four checks. The policy search is a method with
  a loop that stops at the first match, proved against the specification
  function `FirstPolicyAnchor`.
- `Report` (`report.dfy`): the result dictionary as a class, `ReportBuilder`.
  Its methods update `scanResults`, `complianceScore`, `summary` and `error`
  one step at a time, and each keeps the invariant `WellFormed`. The function
  `Analysis` states the whole run declaratively. The method `AnalyzeWebsite`
  runs the steps in the analyzer's order and is proved equal to `Analysis`.
- `Properties` (`properties.dfy`): properties of the analysis, proved about
  `Analysis`.
- `Wrappers` (`wrappers.dfy`): `Option`.

Three details of the code decide what a report can look like, and the model
keeps each of them:

- **Missing body.** The cookie check writes `initial_cookies_check`, its
  summary line and its 0 or 40 points before `soup.body is None` raises
  (script.py:51-69). The `except` branch only adds `error` (script.py:113-114).
  The report therefore keeps the cookie check (`MissingBodyKeepsCookieCheck`,
  `ScenarioMissingBody`).
- **`urljoin` raising.** `urljoin(url, a['href'])` runs inside the `try`
  (script.py:102). When it raises, for example on an `href` with an unclosed
  IPv6 bracket, the banner and button entries, their points and their three
  summary lines are already recorded, and `policy_link_found` is never written
  (`UrlJoinRaisedKeepsEarlierChecks`, `ScenarioPolicyHrefRaises`).
- **`policy_link_found`.** It is `bool(policy_link)`, so a resolved URL that is
  the empty string counts as "not found" (`Checks.LinkIsTruthy`,
  `PolicyLinkIsFirstMatch`).

## Model

| member | source | states |
|---|---|---|
| `Text.LowerChar` | script.py:71 | lowering leaves no upper-case letter and changes a character exactly when it is an upper-case letter |
| `Text.Lower` | script.py:71 | `s.lower()` has the same length as `s`, contains no upper-case letter, and keeps every character that is not an upper-case letter |
| `Text.MatchesFromIsSliceEquality` | script.py:74 | the character-by-character comparison holds exactly when the stretch of text equals the rest of the keyword |
| `Text.ContainsFromIsOccurrence` | script.py:74 | scanning from index `i` finds exactly the occurrences of `kw` at or after `i` |
| `Text.ContainsIsOccurrence` | script.py:74 | `kw in t` holds exactly when `kw` occurs at some index of `t` |
| `Text.ContainsAnyFromIsSome` | script.py:74 | `any(kw in t for kw in kws)` holds exactly when some keyword of the list is in `t` |
| `Text.Contains` | script.py:48 | `kw in t`: characterised by `Text.ContainsIsOccurrence` |
| `Text.ContainsAny` | script.py:74 | `any(kw in t for kw in kws)`: characterised by `Text.ContainsAnyFromIsSome` |
| `Text.LoweredMatchIsStretch` | script.py:84-85 | both directions of case-insensitive matching: the lowered text contains a keyword exactly when some stretch of the original text lowers to that keyword |
| `Text.CaseInsensitiveMatch` | script.py:84-85 | a stretch of the text that lowers to a keyword, whatever its letter case, makes the lowered text match |
| `Checks.TextMatches` | script.py:84-85 | `kw in text.lower()` for some keyword: the lowered text contains one of the keywords, which `Text.LoweredMatchIsStretch` reads as "some stretch of the text lowers to a keyword" |
| `Checks.IsTrackingName` | script.py:48 | a cookie name contains `ga`, `fbp` or `analytics` (the tracker fragments), compared without lowering; `Properties.CookieNamesAreCaseSensitive` shows the difference |
| `Checks.AnyTrackingCookie` | script.py:47-50 | the flag is true exactly when some cookie name contains a tracker fragment |
| `Checks.CookieNames` | script.py:54 | `details` has one entry per cookie, the i-th being the i-th cookie's name |
| `Checks.InitialCookieCheck` | script.py:51-55 | `cookies_found_on_load` is the snapshot length; `non_essential_cookies_likely_present` holds exactly when some name contains `ga`, `fbp` or `analytics`; `details` lists the names in snapshot order |
| `Checks.CookiesPass` | script.py:56 | the cookie check passes when no name looks like a tracker and there are fewer than 5 cookies; its points are stated by `Properties.CookieContribution` |
| `Checks.CookiePoints` | script.py:56-57 | 40 points when the cookie check passes, 0 otherwise; stated over the snapshot by `Properties.CookieContribution` |
| `Checks.BannerFound` | script.py:71-74 | `has_banner`: the lowered body text contains a banner keyword; the keyword-occurrence reading is `Text.ContainsAnyFromIsSome` |
| `Checks.BannerPoints` | script.py:76-77 | 15 points when a banner keyword was found, 0 otherwise |
| `Checks.AnyElementMatches` | script.py:84-85 | true exactly when some element's lowered text contains a keyword |
| `Checks.CheckButtons` | script.py:83-90 | `accept_button_found` and `reject_button_found` are two independent tests: does some link or button text contain an accept keyword, or a reject keyword |
| `Checks.ButtonPoints` | script.py:91-93 | 10 points for an accept button plus 25 for a reject button, each counted independently |
| `Checks.IsPolicyAnchor` | script.py:101 | the anchor's lowered text contains a policy keyword |
| `Checks.FirstPolicyAnchor` | script.py:100-103 | returns the index of the first anchor whose text names a policy, with no policy anchor before it; returns nothing exactly when no anchor names a policy |
| `Checks.FirstPolicyAnchorIs` | script.py:100-103 | an anchor that names a policy, with none before it, is the one the search stops at |
| `Checks.Resolve` | script.py:102 | `urljoin(url, a['href'])`: the joined URL, or the exception `urljoin` raises, as the outcome of the search |
| `Checks.PolicyLink` | script.py:99-103 | the search ends with no link exactly when no anchor names a policy; otherwise its outcome is that of resolving the `href` of the first anchor that names one: the joined URL, or the exception `urljoin` raised |
| `Checks.FindPolicyLink` | script.py:99-103 | the loop that breaks at the first policy anchor returns that anchor's `href` joined to the page URL, or the exception `urljoin` raised, and returns no link exactly when no anchor names a policy |
| `Checks.LinkIsTruthy` | script.py:105-106 | `bool(policy_link)`: a link was found and is not the empty string |
| `Checks.PolicyPoints` | script.py:106-108 | 10 points when `bool(policy_link)` holds, 0 otherwise |
| `Report.CookieFinding` | script.py:56-60 | the cookie summary line: good when the check passes, otherwise a problem that reports the cookie count |
| `Report.BannerFinding` | script.py:76-80 | the banner summary line: mentioned or missing |
| `Report.RejectFinding` | script.py:91-96 | the button summary line, which reports only the reject button |
| `Report.PolicyFinding` | script.py:105-111 | the policy summary line: found, with the URL, exactly when `bool(policy_link)` holds |
| `Report.Agrees` | script.py:56-111 | each summary line says what its check recorded in `scan_results`; part of `WellFormed`, which `Report.AnalyzeWebsite` and `Properties.AnalysisIsWellFormed` establish |
| `Report.Analysis` | script.py:44-114 | the whole run: without a body, the cookie check and the error; when `urljoin` raises, the first three checks and the error; otherwise all four checks, the sum of their points and their four findings. Its properties are the `Properties` lemmas |
| `Report.ReportBuilder.constructor` | script.py:17-22 | the report starts with the URL, empty scan results, score 0, an empty summary and no error |
| `Report.ReportBuilder.CheckInitialCookies` | script.py:44-60 | records the cookie check, adds 0 or 40 points and appends the cookie finding; the report stays well formed |
| `Report.ReportBuilder.CheckBanner` | script.py:71-80 | records `cookie_banner_found`, adds 15 points when it is true and appends the banner finding |
| `Report.ReportBuilder.CheckButtonTexts` | script.py:83-96 | records `banner_buttons`, adds 10 for accept and 25 for reject, and appends only the reject finding |
| `Report.ReportBuilder.CheckPolicyLink` | script.py:99-111 | records `policy_link_found` and, only when it is true, `policy_link_url`; adds 10 points and appends the policy finding; when `urljoin` raises it reports that and changes nothing |
| `Report.ReportBuilder.Fail` | script.py:113-114 | sets `error` and leaves the scan results, score and summary as they were |
| `Report.AnalyzeWebsite` | script.py:44-114 | running the four steps in order, stopping with the error when there is no body or when `urljoin` raises, produces exactly `Analysis`, and the result is well formed |
| `Properties.CookieContribution` | script.py:56-57 | the cookie check earns 40 exactly when no cookie name contains a tracker fragment and there are fewer than 5 cookies; otherwise it earns 0 |
| `Properties.AnalysisIsWellFormed` | script.py:56-114 | every report's score equals the points its scan results earn; its summary has one finding per recorded check, in check order, each saying what its check recorded; and it carries a policy URL exactly when a policy link was found |
| `Properties.ScoreBounds` | script.py:57-108 | a well-formed report scores between 0 and 100, in multiples of 5 |
| `Properties.ScoreComposition` | script.py:56-108 | on a page with a body, the score is 40 (clean cookies) + 15 (banner) + 10 (accept) + 25 (reject) + 10 (policy link), each term counted at most once and stated in terms of the page |
| `Properties.AddingCookieNeverRaisesContribution` | script.py:47-57 | inserting a cookie anywhere raises the count by one, never clears the tracker flag and never raises the cookie points; inserting a tracker-named cookie drops them to 0 |
| `Properties.CookieNamesAreCaseSensitive` | script.py:48 | `_ga` and `_fbp` are tracker names while `_GA` and `_FBP` are not: cookie names are not lowered |
| `Properties.UpperCaseAcceptButton` | script.py:84 | a button reading "ACCEPT ALL" is found as an accept button |
| `Properties.OkInsideWordCountsAsAccept` | script.py:84 | a button reading "Cookies" is found as an accept button, because "ok" occurs inside the word |
| `Properties.AcceptEarnsPointsButNoFinding` | script.py:91-96 | two pages that differ only in whether an accept button exists have the same summary and scores 10 apart |
| `Properties.PolicyLinkIsFirstMatch` | script.py:99-114 | with a body present, the link comes from the first policy anchor in document order; it is recorded, with `found` true, exactly when the joined URL is not empty; when joining raises, the error is set and no policy entry is recorded |
| `Properties.NoPolicyAnchorNoLink` | script.py:99-111 | with no policy anchor, `policy_link_found` is false, no URL is recorded and the run ends without error |
| `Properties.SummaryOrder` | script.py:58-114 | with a body, the summary reports cookies, banner, reject button and policy link, in that order, less the policy line when `urljoin` raises; without a body it holds the cookie finding alone |
| `Properties.SummaryDeterminedByScanResults` | script.py:56-111 | two well-formed reports with the same scan results have the same summary: each summary line is fixed by what its check recorded |
| `Properties.ErrorCases` | script.py:68-114 | the run ends without `error` exactly when the page has a body and `urljoin` does not raise; the missing-body error exactly when there is no body |
| `Properties.UrlJoinRaisedKeepsEarlierChecks` | script.py:44-114 | when `urljoin` raises, `error` is set; the cookie, banner and button entries, their three findings and their points (at most 90) remain; the policy entries are absent |
| `Properties.MissingBodyKeepsCookieCheck` | script.py:51-69 | without a body, `error` is set; the cookie check, its finding and its points remain; the banner, button and policy entries are absent |
| `Properties.GaCookieEarnsNothing` | script.py:47-60 | a snapshot containing a `_ga` cookie is flagged and earns no cookie points |
| `Properties.CookieTextIsBanner` | script.py:74 | body text "We use cookie files" counts as a banner |
| `Properties.AcceptAndRejectButtons` | script.py:84-85 | buttons "Accept All" and "Reject All" are found as accept and reject buttons |
| `Properties.PrivacyPolicyAnchor` | script.py:101 | an anchor reading "Privacy Policy" names a policy |
| `Properties.SessionCookiesAreClean` | script.py:47-50 | the names `session_id` and `csrf_token` contain none of `ga`, `fbp`, `analytics` |
| `Properties.WelcomeIsNoBanner` | script.py:74 | body text "Welcome" contains no banner keyword |
| `Properties.ScenarioCleanCookiesOnly` | script.py:44-111 | cookies `session_id` and `csrf_token` on a page with nothing to find: score 40, and every other check false |
| `Properties.ScenarioFullBannerWithTracker` | script.py:44-111 | six cookies including `_ga`, a banner, accept and reject buttons, and a "Privacy Policy" link to `/privacy` on `https://example.com/`: score 60, with the resolved policy URL |
| `Properties.ScenarioPolicyHrefRaises` | script.py:44-114 | no cookies, a banner, both buttons and a "Privacy Policy" anchor whose `href` `http://[x/privacy` makes `urljoin` raise: the error is set, the score is 90, the buttons are recorded, `policy_link_found` is absent and the summary has three lines |
| `Properties.ScenarioTwoPolicyAnchors` | script.py:100-103 | of two anchors, "Privacy Policy" and then "Cookie Policy", both of which name a policy, the first one gives the link |
| `Properties.ScenarioMissingBody` | script.py:56-69 | an empty snapshot on a page without a body: the error is set, and the score is still 40 with the cookie finding alone |

## Left out

- Browser control is not modelled: Chrome options, the 20-second load timeout, `driver.get`, the 3-second wait and `driver.quit` (script.py:24-42, 115-118). They are I/O. The cookie snapshot and the parsed page are parameters of `AnalyzeWebsite`, and a browser failure is not modelled as an error. The only exceptions modelled inside the `try` are the missing body and `urljoin` raising.
- HTML parsing is not modelled: `BeautifulSoup`, `soup.body`, `find_all` and `get_text`. These are library calls. `Checks.Document` gives their results directly: the optional body text, the texts of all `a`/`button` elements, and the `(href, text)` pairs of anchors that have an `href`, each in document order.
- `urljoin` is a function-valued parameter `urlJoin` with no definition, returning `None` where `urljoin` raises. Which URLs it resolves to what, and which inputs make it raise, are not modelled: relative-reference resolution (section 5.2 of RFC 3986) is left out, and no relative-resolution example such as `../terms` against `https://example.com/en/cookies` is modelled.
- `Text.LowerChar`: does not model full Unicode `str.lower()`. It lowers ASCII A-Z, Latin-1 À-Þ (except ×), Cyrillic U+0400-U+042F and Ґ. It leaves every other character unchanged, including upper-case letters of other scripts and the characters that Python lowers to two characters.
- The keyword lists are passed to the checks as a `KeywordConfig` value instead of being read as module globals. `AnalyzeWebsite` with `Keywords.Default` uses the analyzer's own lists.
- Summary messages are tagged `Finding` values, not the Ukrainian sentences. The error is a `Failure` tag, `MissingBody` or `UrlJoinRaised`. It is not the message that the `except` branch builds from the exception's text (script.py:114).
- The `__main__` block is not modelled: the fixed target URL, the report file name derived from the host, JSON writing and printing (script.py:122-138). The JSON key order is not modelled either, because `ScanResults` is a record.
- No proof shows that the keyword constants are lower-case. The case-insensitivity lemma is stated for any stretch of text that lowers to a keyword.
