/** The analyzer's keyword lists. The checks take them as a configuration
    value; `Default` holds the lists the analyzer ships with. All its keywords
    are lower-case, because they are matched against lowered text. */
module Keywords {
  /** The keyword lists, one per role. `trackerMarkers` are matched against
      cookie names as they are; the others against lowered page text. */
  datatype KeywordConfig = KeywordConfig(
    banner: seq<string>,
    accept: seq<string>,
    reject: seq<string>,
    policy: seq<string>,
    trackerMarkers: seq<string>)

  /** Words whose presence anywhere in the page body counts as a consent banner. */
  const BannerKeywords: seq<string> :=
    ["cookie", "consent", "privacy", "gdpr", "рекомендації", "файли cookie"]

  /** Words that mark a link or button as accepting cookies. */
  const AcceptKeywords: seq<string> :=
    ["accept", "agree", "ok", "allow all", "прийняти", "погоджуюсь", "дозволити всі"]

  /** Words that mark a link or button as rejecting cookies. */
  const RejectKeywords: seq<string> :=
    ["reject", "decline", "deny", "necessary only", "відхилити", "відмовитись"]

  /** Words that mark a link as leading to the privacy or cookie policy. */
  const PolicyKeywords: seq<string> :=
    ["privacy & cookies", "privacy policy", "cookie policy", "політика приватності",
     "політика конфіденційності", "умови використання сайту", "політика cookie",
     "угода користувача", "персональні дані"]

  /** Fragments of cookie names set by analytics and advertising tools. */
  const TrackerMarkers: seq<string> := ["ga", "fbp", "analytics"]

  const Default: KeywordConfig :=
    KeywordConfig(BannerKeywords, AcceptKeywords, RejectKeywords, PolicyKeywords, TrackerMarkers)
}
