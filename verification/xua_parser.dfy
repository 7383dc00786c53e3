/** Model of `ua.go`, package `xua_parser`.

    `uaRegex` has five captures; the fourth, the OS detail, is any run
    without a comma. `Parse` then splits the OS detail at every single
    space, keeps the first two pieces as OS name and OS version, drops the
    rest, and accepts only when the OS version passes `strconv.Atoi`. */
module XuaParser {
  import opened Text
  import opened Results
  import opened Strconv
  import opened Frame

  datatype UserAgent = UserAgent(
    appName: String,
    appVersion: String,
    deviceModel: String,
    osName: String,
    osVersion: String,
    others: String)

  /** The capture classes of `uaRegex`: `[^/]+`, the dotted version,
      `[^,]+`, `[^,]+` and `[^\)]+`. */
  predicate CapturesMatch(c: Captures) {
    && IsRunWithout(c.app, '/')
    && IsDottedVersion(c.version)
    && IsRunWithout(c.device, ',')
    && IsRunWithout(c.os, ',')
    && IsRunWithout(c.trailing, ')')
  }

  /** `uaRegex` matches the whole of `s`, with captures `c`. */
  predicate RegexMatches(s: String, c: Captures) {
    Render(c) == s && CapturesMatch(c)
  }

  lemma MatchIsDelimited(c: Captures)
    requires CapturesMatch(c)
    ensures Delimited(c)
  {
    DottedVersionShape(c.version);
  }

  /** `uaRegex.FindStringSubmatch`; `None` stands for the nil slice, whose
      length is not 6. */
  function FindSubmatch(s: String): (r: Option<Captures>)
    ensures r.Some? ==> RegexMatches(s, r.value)
  {
    var c :- Scan(s);
    if CapturesMatch(c) then Some(c) else None
  }

  /** Whenever `uaRegex` matches, FindSubmatch reports those captures: the
      captures are unique, so the engine's match strategy cannot matter. */
  lemma FindSubmatchFinds(s: String, c: Captures)
    requires RegexMatches(s, c)
    ensures FindSubmatch(s) == Some(c)
  {
    MatchIsDelimited(c);
    ScanFinds(c);
  }

  /** `uaRegex` matches a text with at most one set of captures. */
  lemma RegexMatchUnique(s: String, c1: Captures, c2: Captures)
    requires RegexMatches(s, c1) && RegexMatches(s, c2)
    ensures c1 == c2
  {
    FindSubmatchFinds(s, c1);
    FindSubmatchFinds(s, c2);
  }

  /** `name` and `version` are the first two pieces of `strings.Split(os, " ")`
      and `tail` is everything after them. */
  predicate OsDetailStarts(os: String, name: String, version: String, tail: String) {
    && os == name + " " + version + tail
    && ' ' !in name && ' ' !in version
    && (tail == [] || tail[0] == ' ')
  }

  /** The declarative grammar of `ua.go`: `s` is accepted with record `ua`,
      where `tail` is the part of the OS detail Parse discards. */
  predicate Accepts(s: String, ua: UserAgent, tail: String) {
    var os := ua.osName + " " + ua.osVersion + tail;
    && RegexMatches(s, Captures(ua.appName, ua.appVersion, ua.deviceModel, os, ua.others))
    && OsDetailStarts(os, ua.osName, ua.osVersion, tail)
    && Atoi(ua.osVersion).Some?
  }

  /** `Parse` of `ua.go`. */
  function Parse(s: String): (r: Result<UserAgent>)
    ensures r.Ok? ==> IsRunWithout(r.value.appName, '/') && IsDottedVersion(r.value.appVersion)
    ensures r.Ok? ==> IsRunWithout(r.value.deviceModel, ',') && IsRunWithout(r.value.others, ')')
    ensures r.Ok? ==> ' ' !in r.value.osName && ',' !in r.value.osName
    ensures r.Ok? ==> ' ' !in r.value.osVersion && Atoi(r.value.osVersion).Some?
    ensures r.Err? && r.error.NoMatch? ==> r.error.input == s
  {
    match FindSubmatch(s)
    case None => Err(NoMatch(s))
    case Some(c) =>
      var detail := Split(c.os, ' ');
      if |detail| < 2 then Err(MissingOsVersion(c.os))
      else if Atoi(detail[1]).None? then Err(OsVersionNotNumber(detail[1]))
      else
        JoinFirstTwo(detail, ' ');
        Ok(UserAgent(c.app, c.version, c.device, detail[0], detail[1], c.trailing))
  }

  /** Soundness: every record Parse returns is accepted by the grammar. */
  lemma ParseSound(s: String)
    requires Parse(s).Ok?
    ensures exists tail :: Accepts(s, Parse(s).value, tail)
  {
    var c := FindSubmatch(s).value;
    var detail := Split(c.os, ' ');
    var tail := DetailStarts(c.os);
    var ua := Parse(s).value;
    assert ua == UserAgent(c.app, c.version, c.device, detail[0], detail[1], c.trailing);
    assert Accepts(s, ua, tail);
  }

  /** An OS detail with a space starts with the first two pieces of its
      split; the result is the part after them. */
  lemma DetailStarts(os: String) returns (tail: String)
    requires |Split(os, ' ')| >= 2
    ensures var detail := Split(os, ' ');
            OsDetailStarts(os, detail[0], detail[1], tail)
  {
    var detail := Split(os, ' ');
    JoinFirstTwo(detail, ' ');
    tail := if |detail| == 2 then [] else [' '] + Join(detail[2..], ' ');
  }

  /** Completeness: every text the grammar accepts parses to that record. */
  lemma ParseComplete(s: String, ua: UserAgent, tail: String)
    requires Accepts(s, ua, tail)
    ensures Parse(s) == Ok(ua)
  {
    var os := ua.osName + " " + ua.osVersion + tail;
    FindSubmatchFinds(s, Captures(ua.appName, ua.appVersion, ua.deviceModel, os, ua.others));
    SplitFirstTwo(ua.osName, ua.osVersion, tail);
  }

  /** The grammar determines the record and the discarded tail. */
  lemma AcceptsUnique(s: String, ua1: UserAgent, tail1: String, ua2: UserAgent, tail2: String)
    requires Accepts(s, ua1, tail1) && Accepts(s, ua2, tail2)
    ensures ua1 == ua2 && tail1 == tail2
  {
    ParseComplete(s, ua1, tail1);
    ParseComplete(s, ua2, tail2);
    var os1 := ua1.osName + " " + ua1.osVersion + tail1;
    var os2 := ua2.osName + " " + ua2.osVersion + tail2;
    RegexMatchUnique(s, Captures(ua1.appName, ua1.appVersion, ua1.deviceModel, os1, ua1.others),
                        Captures(ua2.appName, ua2.appVersion, ua2.deviceModel, os2, ua2.others));
    var n := |ua1.osName + " " + ua1.osVersion|;
    assert tail1 == os1[n..] == os2[n..] == tail2;
  }

  /** The regular-expression error is reported exactly when `uaRegex`
      does not match. */
  lemma NoMatchIff(s: String)
    ensures Parse(s) == Err(NoMatch(s)) <==> forall c :: !RegexMatches(s, c)
  {
    if FindSubmatch(s).None? {
      forall c
        ensures !RegexMatches(s, c)
      {
        if RegexMatches(s, c) {
          FindSubmatchFinds(s, c);
        }
      }
    }
  }

  /** When `uaRegex` matches, the OS detail error is reported exactly when
      the detail holds no space. */
  lemma MissingOsVersionIff(s: String, c: Captures)
    requires RegexMatches(s, c)
    ensures Parse(s) == Err(MissingOsVersion(c.os)) <==> ' ' !in c.os
  {
    FindSubmatchFinds(s, c);
    if ' ' !in c.os {
      SplitWithout(c.os, ' ');
    }
  }

  /** When `uaRegex` matches and the OS detail has a second piece, the
      record is returned exactly when that piece passes Atoi, and the
      non-number error is reported exactly when it does not. */
  lemma OsVersionNotNumberIff(s: String, c: Captures, name: String, version: String, tail: String)
    requires RegexMatches(s, c)
    requires OsDetailStarts(c.os, name, version, tail)
    ensures Parse(s) == Err(OsVersionNotNumber(version)) <==> Atoi(version).None?
    ensures Parse(s).Ok? <==> Atoi(version).Some?
  {
    FindSubmatchFinds(s, c);
    SplitFirstTwo(name, version, tail);
  }
}
