/** Model of `useragent/useragent.go`, package `useragent` in its own
    directory: `ParseUserAgent` and its inverse `FormatUserAgent`.

    Its pattern is stricter about the app name (`[\w\s\.]+`) and looser
    about the version (`[\d\.]+`, any run of digits and dots), and it keeps
    the OS field whole in `OSVersion`. */
module XUserAgent {
  import opened Text
  import opened Results
  import opened Frame

  datatype UserAgent = UserAgent(
    appName: String,
    versionName: String,
    deviceModel: String,
    osVersion: String,
    retailer: String)

  /** `[\w\s\.]+` */
  predicate IsAppName(s: String) {
    |s| > 0 && forall i :: 0 <= i < |s| ==> IsWordChar(s[i]) || IsSpace(s[i]) || s[i] == '.'
  }

  /** `[\d\.]+` */
  predicate IsVersionName(s: String) {
    |s| > 0 && forall i :: 0 <= i < |s| ==> IsDigit(s[i]) || s[i] == '.'
  }

  /** Every field is in its capture class. */
  predicate WellFormed(ua: UserAgent) {
    && IsAppName(ua.appName)
    && IsVersionName(ua.versionName)
    && IsRunWithout(ua.deviceModel, ',')
    && IsRunWithout(ua.osVersion, ',')
    && IsRunWithout(ua.retailer, ')')
  }

  function CapturesOf(ua: UserAgent): Captures {
    Captures(ua.appName, ua.versionName, ua.deviceModel, ua.osVersion, ua.retailer)
  }

  /** `FormatUserAgent`: `fmt.Sprintf("%s/%s (%s, %s, %s)", ...)`. When no
      field holds the delimiter that ends it, the text can be taken apart
      again into exactly those five fields. */
  function FormatUserAgent(ua: UserAgent): (r: String)
    ensures Delimited(CapturesOf(ua)) ==> Scan(r) == Some(CapturesOf(ua))
  {
    var r := ua.appName + "/" + ua.versionName + " (" + ua.deviceModel + ", " + ua.osVersion + ", " + ua.retailer + ")";
    ScanFindsDelimited(CapturesOf(ua));
    r
  }

  lemma ScanFindsDelimited(c: Captures)
    ensures Delimited(c) ==> Scan(Render(c)) == Some(c)
  {
    if Delimited(c) {
      ScanFinds(c);
    }
  }

  /** The format string spells out the regular expression's skeleton. */
  lemma FormatIsRender(ua: UserAgent)
    ensures FormatUserAgent(ua) == Render(CapturesOf(ua))
  {
  }

  /** The capture classes keep each field clear of its delimiter. */
  lemma WellFormedIsDelimited(ua: UserAgent)
    requires WellFormed(ua)
    ensures Delimited(CapturesOf(ua))
  {
  }

  /** `ParseUserAgent`. On success the record is well formed and formats
      back to the input; on failure the error carries the input and there
      is no record. */
  function ParseUserAgent(s: String): (r: Result<UserAgent>)
    ensures r.Ok? ==> WellFormed(r.value) && FormatUserAgent(r.value) == s
    ensures r.Err? ==> r.error == NoMatch(s)
  {
    match Scan(s)
    case None => Err(NoMatch(s))
    case Some(c) =>
      var ua := UserAgent(c.app, c.version, c.device, c.os, c.trailing);
      if WellFormed(ua) then Ok(ua) else Err(NoMatch(s))
  }

  /** Parse after format: formatting a record and parsing the text gives
      the record back exactly when the record is well formed. */
  lemma ParseAfterFormat(ua: UserAgent)
    ensures ParseUserAgent(FormatUserAgent(ua)) == Ok(ua) <==> WellFormed(ua)
  {
    if WellFormed(ua) {
      WellFormedIsDelimited(ua);
      ScanFinds(CapturesOf(ua));
    }
  }

  /** ParseUserAgent accepts exactly the formatted well-formed records. */
  lemma ParseSucceedsIff(s: String)
    ensures ParseUserAgent(s).Ok? <==> exists ua :: WellFormed(ua) && FormatUserAgent(ua) == s
  {
    if exists ua :: WellFormed(ua) && FormatUserAgent(ua) == s {
      var ua :| WellFormed(ua) && FormatUserAgent(ua) == s;
      ParseAfterFormat(ua);
    }
  }

  /** Format is injective on well-formed records: no two of them share a
      text. */
  lemma FormatInjective(ua1: UserAgent, ua2: UserAgent)
    requires WellFormed(ua1) && WellFormed(ua2)
    requires FormatUserAgent(ua1) == FormatUserAgent(ua2)
    ensures ua1 == ua2
  {
    ParseAfterFormat(ua1);
    ParseAfterFormat(ua2);
  }
}
