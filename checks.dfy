/**
 * The four checks of the cookie-consent analyzer, over an abstract snapshot of
 * the browser: the cookies present three seconds after load, and the parsed
 * page reduced to what the checks read from it.
 */
module Checks {
  import opened Wrappers
  import opened Text

  /** A browser cookie. Only the name is read by the analyzer. */
  datatype Cookie = Cookie(name: string, value: string, domain: string)

  /** An `<a>` element that has an `href` attribute, with its text content. */
  datatype Anchor = Anchor(href: string, text: string)

  /** The parsed page: the text of `<body>` (absent when the page has no body),
      the text of every `<a>` and `<button>` element in document order, and the
      anchors that carry an `href`, in document order. */
  datatype Document = Document(body: Option<string>, clickables: seq<string>, anchors: seq<Anchor>)

  /** `scan_results['initial_cookies_check']`. */
  datatype CookieCheck = CookieCheck(cookiesFoundOnLoad: nat, nonEssentialLikelyPresent: bool, details: seq<string>)

  /** `scan_results['banner_buttons']`. */
  datatype ButtonCheck = ButtonCheck(acceptFound: bool, rejectFound: bool)

  // Points each check contributes to the compliance score.
  const CookieWeight := 40
  const BannerWeight := 15
  const AcceptWeight := 10
  const RejectWeight := 25
  const PolicyWeight := 10

  /** The lowered text contains one of the keywords. */
  predicate TextMatches(text: string, kws: seq<string>) {
    ContainsAny(Lower(text), kws)
  }

  // ---------------------------------------------------------------- cookies

  /** A cookie name that looks like an analytics or advertising cookie. The
      test is case-sensitive: cookie names are not lowered. */
  predicate IsTrackingName(name: string, markers: seq<string>) {
    ContainsAny(name, markers)
  }

  /** Some cookie at index `from` or later has a tracking name. */
  function AnyTrackingCookie(cookies: seq<Cookie>, markers: seq<string>, from: nat): (r: bool)
    ensures r <==> exists i | from <= i < |cookies| :: IsTrackingName(cookies[i].name, markers)
    decreases |cookies| - from
  {
    if from >= |cookies| then false
    else IsTrackingName(cookies[from].name, markers) || AnyTrackingCookie(cookies, markers, from + 1)
  }

  /** The cookie names, in snapshot order. */
  function CookieNames(cookies: seq<Cookie>): (names: seq<string>)
    ensures |names| == |cookies|
    ensures forall i | 0 <= i < |cookies| :: names[i] == cookies[i].name
  {
    if cookies == [] then [] else [cookies[0].name] + CookieNames(cookies[1..])
  }

  /** The record the initial-cookie check stores: how many cookies, whether any
      looks like a tracker, and their names. */
  function InitialCookieCheck(cookies: seq<Cookie>, markers: seq<string>): (r: CookieCheck)
    ensures r.cookiesFoundOnLoad == |cookies|
    ensures r.nonEssentialLikelyPresent <==> exists i | 0 <= i < |cookies| :: IsTrackingName(cookies[i].name, markers)
    ensures |r.details| == |cookies|
    ensures forall i | 0 <= i < |cookies| :: r.details[i] == cookies[i].name
  {
    CookieCheck(|cookies|, AnyTrackingCookie(cookies, markers, 0), CookieNames(cookies))
  }

  /** The cookie check passes: no tracker-like cookie and fewer than 5 cookies. */
  predicate CookiesPass(c: CookieCheck) {
    !c.nonEssentialLikelyPresent && c.cookiesFoundOnLoad < 5
  }

  function CookiePoints(c: CookieCheck): nat {
    if CookiesPass(c) then CookieWeight else 0
  }

  // ----------------------------------------------------------------- banner

  /** The lowered body text mentions one of the banner keywords. */
  predicate BannerFound(bodyText: string, kws: seq<string>) {
    TextMatches(bodyText, kws)
  }

  function BannerPoints(found: bool): nat {
    if found then BannerWeight else 0
  }

  // ---------------------------------------------------------------- buttons

  /** Some element text at index `from` or later, lowered, contains a keyword. */
  function AnyElementMatches(texts: seq<string>, kws: seq<string>, from: nat): (r: bool)
    ensures r <==> exists j | from <= j < |texts| :: TextMatches(texts[j], kws)
    decreases |texts| - from
  {
    if from >= |texts| then false
    else TextMatches(texts[from], kws) || AnyElementMatches(texts, kws, from + 1)
  }

  /** The button check over the texts of all links and buttons: accept and
      reject are two independent existence tests over the whole page. */
  function CheckButtons(clickables: seq<string>, accept: seq<string>, reject: seq<string>): (r: ButtonCheck)
    ensures r.acceptFound <==> exists j | 0 <= j < |clickables| :: TextMatches(clickables[j], accept)
    ensures r.rejectFound <==> exists j | 0 <= j < |clickables| :: TextMatches(clickables[j], reject)
  {
    ButtonCheck(AnyElementMatches(clickables, accept, 0), AnyElementMatches(clickables, reject, 0))
  }

  function ButtonPoints(b: ButtonCheck): nat {
    (if b.acceptFound then AcceptWeight else 0) + (if b.rejectFound then RejectWeight else 0)
  }

  // ------------------------------------------------------------ policy link

  /** The lowered anchor text contains a policy keyword. */
  predicate IsPolicyAnchor(a: Anchor, kws: seq<string>) {
    TextMatches(a.text, kws)
  }

  /** The index of the first policy anchor at index `from` or later. */
  function FirstPolicyAnchor(anchors: seq<Anchor>, kws: seq<string>, from: nat): (r: Option<nat>)
    ensures r.None? <==> forall j | from <= j < |anchors| :: !IsPolicyAnchor(anchors[j], kws)
    ensures r.Some? ==> from <= r.value < |anchors| && IsPolicyAnchor(anchors[r.value], kws)
    ensures r.Some? ==> forall j | from <= j < r.value :: !IsPolicyAnchor(anchors[j], kws)
    decreases |anchors| - from
  {
    if from >= |anchors| then None
    else if IsPolicyAnchor(anchors[from], kws) then Some(from)
    else FirstPolicyAnchor(anchors, kws, from + 1)
  }

  /** An anchor that names a policy, with none before it, is the first one. */
  lemma FirstPolicyAnchorIs(anchors: seq<Anchor>, kws: seq<string>, i: nat)
    requires i < |anchors| && IsPolicyAnchor(anchors[i], kws)
    requires forall j | 0 <= j < i :: !IsPolicyAnchor(anchors[j], kws)
    ensures FirstPolicyAnchor(anchors, kws, 0) == Some(i)
  {
  }

  /** How the policy search ends: with the link it found, if any, or with the
      exception `urljoin` raised while resolving the first policy anchor. */
  datatype PolicySearch = Completed(link: Option<string>) | JoinRaised

  /** `urljoin` applied to one `href`; `None` stands for the exception it raises. */
  function Resolve(pageUrl: string, href: string, urlJoin: (string, string) -> Option<string>): PolicySearch {
    match urlJoin(pageUrl, href)
    case None => JoinRaised
    case Some(u) => Completed(Some(u))
  }

  /** The policy search as a whole: no link when no anchor names a policy;
      otherwise the first anchor that does decides the outcome, by resolving its
      `href` against the page URL. */
  function PolicyLink(pageUrl: string, anchors: seq<Anchor>, kws: seq<string>,
                      urlJoin: (string, string) -> Option<string>): (r: PolicySearch)
    ensures r == Completed(None) <==> forall j | 0 <= j < |anchors| :: !IsPolicyAnchor(anchors[j], kws)
    ensures r != Completed(None) ==>
      exists i | 0 <= i < |anchors| ::
        && IsPolicyAnchor(anchors[i], kws)
        && (forall j | 0 <= j < i :: !IsPolicyAnchor(anchors[j], kws))
        && r == Resolve(pageUrl, anchors[i].href, urlJoin)
  {
    match FirstPolicyAnchor(anchors, kws, 0)
    case None => Completed(None)
    case Some(i) => Resolve(pageUrl, anchors[i].href, urlJoin)
  }

  /** The search loop over the anchors: stops at the first anchor whose text
      contains a policy keyword and resolves its `href`; an exception from
      `urljoin` leaves the loop with no link. */
  method FindPolicyLink(pageUrl: string, anchors: seq<Anchor>, kws: seq<string>,
                        urlJoin: (string, string) -> Option<string>)
    returns (outcome: PolicySearch)
    ensures outcome == PolicyLink(pageUrl, anchors, kws, urlJoin)
    ensures outcome == Completed(None) <==> forall j | 0 <= j < |anchors| :: !IsPolicyAnchor(anchors[j], kws)
  {
    var link: Option<string> := None;
    var i := 0;
    while i < |anchors|
      invariant 0 <= i <= |anchors|
      invariant forall j | 0 <= j < i :: !IsPolicyAnchor(anchors[j], kws)
      invariant link == None
    {
      if IsPolicyAnchor(anchors[i], kws) {
        FirstPolicyAnchorIs(anchors, kws, i);
        var joined := urlJoin(pageUrl, anchors[i].href);
        if joined.None? {
          return JoinRaised;
        }
        link := joined;
        break;
      }
      i := i + 1;
    }
    outcome := Completed(link);
  }

  /** Python's `bool(policy_link)`: a link was found and is not the empty string. */
  predicate LinkIsTruthy(link: Option<string>) {
    link.Some? && link.value != ""
  }

  function PolicyPoints(found: bool): nat {
    if found then PolicyWeight else 0
  }
}
