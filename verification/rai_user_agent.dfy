/** Model of `useragent.go`, the root package `useragent`.

    Its `uaRegex` has six captures: the OS part is matched directly as
    ASCII letters, one space, then ASCII digits, so no second validation
    pass is needed and every failure is the single "failed to parse ua"
    error. */
module RaiUserAgent {
  import opened Text
  import opened Results
  import opened Frame

  datatype UserAgent = UserAgent(
    appName: String,
    appVersion: String,
    deviceModel: String,
    osName: String,
    osVersion: String,
    retailer: String)

  /** The five-field skeleton of a record: OS name and version share the
      fourth field, separated by one space. */
  function CapturesOf(ua: UserAgent): Captures {
    Captures(ua.appName, ua.appVersion, ua.deviceModel, ua.osName + " " + ua.osVersion, ua.retailer)
  }

  /** The six capture classes of `uaRegex`: `[^/]+`, the dotted version,
      `[^,]+`, `[a-zA-Z]+`, `\d+` and `[^\)]+`. */
  predicate FieldsMatch(ua: UserAgent) {
    && IsRunWithout(ua.appName, '/')
    && IsDottedVersion(ua.appVersion)
    && IsRunWithout(ua.deviceModel, ',')
    && IsLetters(ua.osName)
    && IsDigits(ua.osVersion)
    && IsRunWithout(ua.retailer, ')')
  }

  /** `uaRegex` matches the whole of `s`, with captures `ua`. */
  predicate RegexMatches(s: String, ua: UserAgent) {
    Render(CapturesOf(ua)) == s && FieldsMatch(ua)
  }

  /** `Parse` of `useragent.go`. On success the record is the grammar's
      reading of `s`, so all six fields are non-empty; on failure the error
      carries the input and there is no record. */
  function Parse(s: String): (r: Result<UserAgent>)
    ensures r.Ok? ==> RegexMatches(s, r.value)
    ensures r.Ok? ==> |r.value.appName| > 0 && |r.value.appVersion| > 0 && |r.value.deviceModel| > 0
    ensures r.Ok? ==> |r.value.osName| > 0 && |r.value.osVersion| > 0 && |r.value.retailer| > 0
    ensures r.Err? ==> r.error == NoMatch(s)
  {
    match Scan(s)
    case None => Err(NoMatch(s))
    case Some(c) =>
      match Cut(c.os, " ")
      case None => Err(NoMatch(s))
      case Some((name, version)) =>
        var ua := UserAgent(c.app, c.version, c.device, name, version, c.trailing);
        if FieldsMatch(ua) then
          DottedVersionShape(ua.appVersion);
          Ok(ua)
        else Err(NoMatch(s))
  }

  /** The skeleton of a record the grammar accepts has delimited fields. */
  lemma MatchIsDelimited(ua: UserAgent)
    requires FieldsMatch(ua)
    ensures Delimited(CapturesOf(ua))
  {
    DottedVersionShape(ua.appVersion);
    LettersHaveNo(ua.osName, ',');
    DigitsHaveNo(ua.osVersion, ',');
  }

  /** Completeness: every text the grammar accepts parses to that record. */
  lemma ParseComplete(s: String, ua: UserAgent)
    requires RegexMatches(s, ua)
    ensures Parse(s) == Ok(ua)
  {
    MatchIsDelimited(ua);
    ScanFinds(CapturesOf(ua));
    LettersHaveNo(ua.osName, ' ');
    CutFinds(ua.osName, " ", ua.osVersion);
  }

  /** The grammar reads a text in at most one way. */
  lemma RegexMatchUnique(s: String, ua1: UserAgent, ua2: UserAgent)
    requires RegexMatches(s, ua1) && RegexMatches(s, ua2)
    ensures ua1 == ua2
  {
    ParseComplete(s, ua1);
    ParseComplete(s, ua2);
  }

  /** Parse fails exactly on the texts the grammar rejects. */
  lemma ParseFailsIff(s: String)
    ensures Parse(s).Err? <==> forall ua :: !RegexMatches(s, ua)
  {
    if Parse(s).Err? {
      forall ua
        ensures !RegexMatches(s, ua)
      {
        if RegexMatches(s, ua) {
          ParseComplete(s, ua);
        }
      }
    }
  }
}
