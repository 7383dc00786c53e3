/** How the three parsers relate. They share one skeleton and differ only
    in the capture classes and in what happens to the OS field, so each
    acceptance of one variant carries over to another exactly when the
    fields also fall in the other's classes. */
module Variants {
  import opened Text
  import opened Results
  import opened Strconv
  import opened Frame
  import Xua = XuaParser
  import Rai = RaiUserAgent
  import X = XUserAgent

  /** A record of `useragent.go` whose OS version also passes Atoi is read
      the same way by `ua.go`: letters hold no space and digits no space,
      so the OS detail splits into exactly those two pieces. */
  lemma RaiToXua(s: String)
    requires Rai.Parse(s).Ok?
    requires Atoi(Rai.Parse(s).value.osVersion).Some?
    ensures var ua := Rai.Parse(s).value;
            Xua.Parse(s) == Ok(Xua.UserAgent(ua.appName, ua.appVersion, ua.deviceModel, ua.osName, ua.osVersion, ua.retailer))
  {
    var ua := Rai.Parse(s).value;
    var x := Xua.UserAgent(ua.appName, ua.appVersion, ua.deviceModel, ua.osName, ua.osVersion, ua.retailer);
    LettersHaveNo(ua.osName, ' ');
    LettersHaveNo(ua.osName, ',');
    DigitsHaveNo(ua.osVersion, ' ');
    DigitsHaveNo(ua.osVersion, ',');
    assert ua.osName + " " + ua.osVersion + [] == ua.osName + " " + ua.osVersion;
    assert Xua.Accepts(s, x, []);
    Xua.ParseComplete(s, x, []);
  }

  /** Conversely, a text `ua.go` accepts with nothing after the OS version,
      an OS name of letters and an OS version of digits is a text
      `useragent.go` accepts, with the same fields. */
  lemma XuaToRai(s: String, ua: Xua.UserAgent)
    requires Xua.Accepts(s, ua, [])
    requires IsLetters(ua.osName) && IsDigits(ua.osVersion)
    ensures Rai.Parse(s) == Ok(Rai.UserAgent(ua.appName, ua.appVersion, ua.deviceModel, ua.osName, ua.osVersion, ua.others))
  {
    var r := Rai.UserAgent(ua.appName, ua.appVersion, ua.deviceModel, ua.osName, ua.osVersion, ua.others);
    assert ua.osName + " " + ua.osVersion + [] == ua.osName + " " + ua.osVersion;
    assert Rai.RegexMatches(s, r);
    Rai.ParseComplete(s, r);
  }

  /** A record of `useragent.go` whose app name is also in `[\w\s.]` is
      read by `useragent/useragent.go` with the OS name and version joined
      back into one field. */
  lemma RaiToX(s: String)
    requires Rai.Parse(s).Ok? && X.IsAppName(Rai.Parse(s).value.appName)
    ensures var ua := Rai.Parse(s).value;
            X.ParseUserAgent(s) == Ok(X.UserAgent(ua.appName, ua.appVersion, ua.deviceModel, ua.osName + " " + ua.osVersion, ua.retailer))
  {
    var ua := Rai.Parse(s).value;
    var x := X.UserAgent(ua.appName, ua.appVersion, ua.deviceModel, ua.osName + " " + ua.osVersion, ua.retailer);
    DottedVersionIsVersionName(ua.appVersion);
    LettersHaveNo(ua.osName, ',');
    DigitsHaveNo(ua.osVersion, ',');
    X.ParseAfterFormat(x);
  }

  /** A text `uaRegex` of `ua.go` matches, with an app name in `[\w\s.]`,
      is read by `useragent/useragent.go` with the OS detail kept whole,
      even where `ua.go` itself goes on to reject the OS version. */
  lemma XuaMatchToX(s: String, c: Captures)
    requires Xua.RegexMatches(s, c) && X.IsAppName(c.app)
    ensures X.ParseUserAgent(s) == Ok(X.UserAgent(c.app, c.version, c.device, c.os, c.trailing))
  {
    var x := X.UserAgent(c.app, c.version, c.device, c.os, c.trailing);
    DottedVersionIsVersionName(c.version);
    X.ParseAfterFormat(x);
  }

  /** `\d+(?:\.\d+(?:\.\d+)?)?` is a sub-language of `[\d\.]+`. */
  lemma DottedVersionIsVersionName(v: String)
    requires IsDottedVersion(v)
    ensures X.IsVersionName(v)
  {
    DottedVersionShape(v);
    forall i | 0 <= i < |v|
      ensures IsDigit(v[i]) || v[i] == '.'
    {
      DottedVersionChars(v, v[i]);
    }
  }
}
