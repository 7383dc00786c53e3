/** The table of `ua_test.go`, and the edge cases the OS-detail split and
    Atoi lead to, as facts about the model of `ua.go`.

    Each input is written as the concatenation of its pieces, so that the
    verifier never compares or scans a long literal character by
    character; the doc comment shows the text the pieces spell. A case is
    proved from the class facts of its fields (`...Classes`), the version
    and Atoi facts of `SampleFacts`, and one all-inputs lemma of the
    model. */
module XuaParserExamples {
  import opened Text
  import opened Results
  import opened Strconv
  import opened Frame
  import opened XuaParser
  import opened SampleFacts

  /** The grammar read field by field. */
  lemma Accepted(s: String, app: String, version: String, device: String, os: String,
                 name: String, osVersion: String, tail: String, others: String)
    requires s == Render(Captures(app, version, device, os, others))
    requires OsDetailStarts(os, name, osVersion, tail)
    requires IsRunWithout(app, '/') && IsDottedVersion(version) && IsRunWithout(device, ',')
    requires ',' !in os && Atoi(osVersion).Some? && IsRunWithout(others, ')')
    ensures Parse(s) == Ok(UserAgent(app, version, device, name, osVersion, others))
  {
    ParseComplete(s, UserAgent(app, version, device, name, osVersion, others), tail);
  }

  /** Captures that fail a capture class: `uaRegex` does not match at all,
      since no other reading of the text exists. */
  lemma RejectedByClasses(s: String, c: Captures)
    requires Delimited(c) && Render(c) == s && !CapturesMatch(c)
    ensures Parse(s) == Err(NoMatch(s))
  {
    ScanFinds(c);
  }

  /** A text the scanner cannot take apart is no match. */
  lemma RejectedByScanner(s: String)
    requires Scan(s).None?
    ensures Parse(s) == Err(NoMatch(s))
  {
  }

  /** `com.example.app/3.9.3 (Device-Model, Android 10, Other)`: the first row of the table: every field as written, the OS detail split in two. */
  lemma ParsesAndroid()
    ensures Parse("com.example.app" + "/" + "3.9.3" + " (" + "Device-Model" + ", " + "Android 10" + ", " + "Other" + ")")
         == Ok(UserAgent("com.example.app", "3.9.3", "Device-Model", "Android", "10", "Other"))
  {
    ParsesAndroidClasses();
    Version393();
    Atoi10();
    Accepted("com.example.app" + "/" + "3.9.3" + " (" + "Device-Model" + ", " + "Android 10" + ", " + "Other" + ")",
             "com.example.app", "3.9.3", "Device-Model", "Android 10", "Android", "10", "", "Other");
  }

  lemma ParsesAndroidClasses()
    ensures OsDetailStarts("Android 10", "Android", "10", "")
    ensures IsRunWithout("com.example.app", '/') && IsRunWithout("Device-Model", ',') && ',' !in "Android 10" && IsRunWithout("Other", ')')
  {
    assert "Android 10" == "Android" + " " + "10" + "";
  }

  /** `App 1/2.3.1 (Device Model 1, Android 11, Other)`: spaces inside the app name and the device model are kept. */
  lemma ParsesSpacedNames()
    ensures Parse("App 1" + "/" + "2.3.1" + " (" + "Device Model 1" + ", " + "Android 11" + ", " + "Other" + ")")
         == Ok(UserAgent("App 1", "2.3.1", "Device Model 1", "Android", "11", "Other"))
  {
    ParsesSpacedNamesClasses();
    Version231();
    Atoi11();
    Accepted("App 1" + "/" + "2.3.1" + " (" + "Device Model 1" + ", " + "Android 11" + ", " + "Other" + ")",
             "App 1", "2.3.1", "Device Model 1", "Android 11", "Android", "11", "", "Other");
  }

  lemma ParsesSpacedNamesClasses()
    ensures OsDetailStarts("Android 11", "Android", "11", "")
    ensures IsRunWithout("App 1", '/') && IsRunWithout("Device Model 1", ',') && ',' !in "Android 11" && IsRunWithout("Other", ')')
  {
    assert "Android 11" == "Android" + " " + "11" + "";
  }

  /** `App Windows/4.0.0 (Device Model, Windows 10, Other)`: an app name with a space, on Windows. */
  lemma ParsesWindowsApp()
    ensures Parse("App Windows" + "/" + "4.0.0" + " (" + "Device Model" + ", " + "Windows 10" + ", " + "Other" + ")")
         == Ok(UserAgent("App Windows", "4.0.0", "Device Model", "Windows", "10", "Other"))
  {
    ParsesWindowsAppClasses();
    Version400();
    Atoi10();
    Accepted("App Windows" + "/" + "4.0.0" + " (" + "Device Model" + ", " + "Windows 10" + ", " + "Other" + ")",
             "App Windows", "4.0.0", "Device Model", "Windows 10", "Windows", "10", "", "Other");
  }

  lemma ParsesWindowsAppClasses()
    ensures OsDetailStarts("Windows 10", "Windows", "10", "")
    ensures IsRunWithout("App Windows", '/') && IsRunWithout("Device Model", ',') && ',' !in "Windows 10" && IsRunWithout("Other", ')')
  {
    assert "Windows 10" == "Windows" + " " + "10" + "";
  }

  /** `com.example.app/4.1.0 (Device Model, Android 9, Other)`: a one-digit OS version. */
  lemma ParsesAndroid9()
    ensures Parse("com.example.app" + "/" + "4.1.0" + " (" + "Device Model" + ", " + "Android 9" + ", " + "Other" + ")")
         == Ok(UserAgent("com.example.app", "4.1.0", "Device Model", "Android", "9", "Other"))
  {
    ParsesAndroid9Classes();
    Version410();
    Atoi9();
    Accepted("com.example.app" + "/" + "4.1.0" + " (" + "Device Model" + ", " + "Android 9" + ", " + "Other" + ")",
             "com.example.app", "4.1.0", "Device Model", "Android 9", "Android", "9", "", "Other");
  }

  lemma ParsesAndroid9Classes()
    ensures OsDetailStarts("Android 9", "Android", "9", "")
    ensures IsRunWithout("com.example.app", '/') && IsRunWithout("Device Model", ',') && ',' !in "Android 9" && IsRunWithout("Other", ')')
  {
    assert "Android 9" == "Android" + " " + "9" + "";
  }

  /** `App/3.2.1 (Device Model 1, Windows 10, Other)`: a plain app name. */
  lemma ParsesPlainApp()
    ensures Parse("App" + "/" + "3.2.1" + " (" + "Device Model 1" + ", " + "Windows 10" + ", " + "Other" + ")")
         == Ok(UserAgent("App", "3.2.1", "Device Model 1", "Windows", "10", "Other"))
  {
    ParsesPlainAppClasses();
    Version321();
    Atoi10();
    Accepted("App" + "/" + "3.2.1" + " (" + "Device Model 1" + ", " + "Windows 10" + ", " + "Other" + ")",
             "App", "3.2.1", "Device Model 1", "Windows 10", "Windows", "10", "", "Other");
  }

  lemma ParsesPlainAppClasses()
    ensures OsDetailStarts("Windows 10", "Windows", "10", "")
    ensures IsRunWithout("App", '/') && IsRunWithout("Device Model 1", ',') && ',' !in "Windows 10" && IsRunWithout("Other", ')')
  {
    assert "Windows 10" == "Windows" + " " + "10" + "";
  }

  /** `App 1/1.1.1 (Device Model, Android 8, Other)`: Android 8. */
  lemma ParsesAndroid8()
    ensures Parse("App 1" + "/" + "1.1.1" + " (" + "Device Model" + ", " + "Android 8" + ", " + "Other" + ")")
         == Ok(UserAgent("App 1", "1.1.1", "Device Model", "Android", "8", "Other"))
  {
    ParsesAndroid8Classes();
    Version111();
    Atoi8();
    Accepted("App 1" + "/" + "1.1.1" + " (" + "Device Model" + ", " + "Android 8" + ", " + "Other" + ")",
             "App 1", "1.1.1", "Device Model", "Android 8", "Android", "8", "", "Other");
  }

  lemma ParsesAndroid8Classes()
    ensures OsDetailStarts("Android 8", "Android", "8", "")
    ensures IsRunWithout("App 1", '/') && IsRunWithout("Device Model", ',') && ',' !in "Android 8" && IsRunWithout("Other", ')')
  {
    assert "Android 8" == "Android" + " " + "8" + "";
  }

  /** `App/2.2.2 (Device Model, Android 11, Other)`: Android 11. */
  lemma ParsesAndroid11()
    ensures Parse("App" + "/" + "2.2.2" + " (" + "Device Model" + ", " + "Android 11" + ", " + "Other" + ")")
         == Ok(UserAgent("App", "2.2.2", "Device Model", "Android", "11", "Other"))
  {
    ParsesAndroid11Classes();
    Version222();
    Atoi11();
    Accepted("App" + "/" + "2.2.2" + " (" + "Device Model" + ", " + "Android 11" + ", " + "Other" + ")",
             "App", "2.2.2", "Device Model", "Android 11", "Android", "11", "", "Other");
  }

  lemma ParsesAndroid11Classes()
    ensures OsDetailStarts("Android 11", "Android", "11", "")
    ensures IsRunWithout("App", '/') && IsRunWithout("Device Model", ',') && ',' !in "Android 11" && IsRunWithout("Other", ')')
  {
    assert "Android 11" == "Android" + " " + "11" + "";
  }

  /** `App-1/10 (Device-Model, Windows 10, Other)`: a version of one group is accepted. */
  lemma ParsesOneGroupVersion()
    ensures Parse("App-1" + "/" + "10" + " (" + "Device-Model" + ", " + "Windows 10" + ", " + "Other" + ")")
         == Ok(UserAgent("App-1", "10", "Device-Model", "Windows", "10", "Other"))
  {
    ParsesOneGroupVersionClasses();
    Version10();
    Atoi10();
    Accepted("App-1" + "/" + "10" + " (" + "Device-Model" + ", " + "Windows 10" + ", " + "Other" + ")",
             "App-1", "10", "Device-Model", "Windows 10", "Windows", "10", "", "Other");
  }

  lemma ParsesOneGroupVersionClasses()
    ensures OsDetailStarts("Windows 10", "Windows", "10", "")
    ensures IsRunWithout("App-1", '/') && IsRunWithout("Device-Model", ',') && ',' !in "Windows 10" && IsRunWithout("Other", ')')
  {
    assert "Windows 10" == "Windows" + " " + "10" + "";
  }

  /** `App-1/0.1.1 (Device-Model, Windows 10 Pro 10.0 (Build 19045), Other)`: only the first two pieces of the OS detail are kept; the rest, parentheses included, is dropped. */
  lemma ParsesLongOsDetail()
    ensures Parse("App-1" + "/" + "0.1.1" + " (" + "Device-Model" + ", " + "Windows 10 Pro 10.0 (Build 19045)" + ", " + "Other" + ")")
         == Ok(UserAgent("App-1", "0.1.1", "Device-Model", "Windows", "10", "Other"))
  {
    ParsesLongOsDetailClasses();
    ParsesLongOsDetailOsDetail();
    Version011();
    Atoi10();
    Accepted("App-1" + "/" + "0.1.1" + " (" + "Device-Model" + ", " + "Windows 10 Pro 10.0 (Build 19045)" + ", " + "Other" + ")",
             "App-1", "0.1.1", "Device-Model", "Windows 10 Pro 10.0 (Build 19045)", "Windows", "10", " Pro 10.0 (Build 19045)", "Other");
  }

  lemma ParsesLongOsDetailClasses()
    ensures IsRunWithout("App-1", '/') && IsRunWithout("Device-Model", ',') && ',' !in "Windows 10 Pro 10.0 (Build 19045)" && IsRunWithout("Other", ')')
  {
  }

  lemma ParsesLongOsDetailOsDetail()
    ensures OsDetailStarts("Windows 10 Pro 10.0 (Build 19045)", "Windows", "10", " Pro 10.0 (Build 19045)")
  {
    assert "Windows 10 Pro 10.0 (Build 19045)" == "Windows" + " " + "10" + " Pro 10.0 (Build 19045)";
  }

  /** `a/1 (b, c 1, d)`: the shortest user agent. */
  lemma ParsesMinimum()
    ensures Parse("a" + "/" + "1" + " (" + "b" + ", " + "c 1" + ", " + "d" + ")")
         == Ok(UserAgent("a", "1", "b", "c", "1", "d"))
  {
    ParsesMinimumClasses();
    Version1();
    Atoi1();
    Accepted("a" + "/" + "1" + " (" + "b" + ", " + "c 1" + ", " + "d" + ")",
             "a", "1", "b", "c 1", "c", "1", "", "d");
  }

  lemma ParsesMinimumClasses()
    ensures OsDetailStarts("c 1", "c", "1", "")
    ensures IsRunWithout("a", '/') && IsRunWithout("b", ',') && ',' !in "c 1" && IsRunWithout("d", ')')
  {
    assert "c 1" == "c" + " " + "1" + "";
  }

  /** `a/1 (b,  1, d)`: the OS name is not checked: a detail that starts with a space gives an empty name. */
  lemma ParsesEmptyOsName()
    ensures Parse("a" + "/" + "1" + " (" + "b" + ", " + " 1" + ", " + "d" + ")")
         == Ok(UserAgent("a", "1", "b", "", "1", "d"))
  {
    ParsesEmptyOsNameClasses();
    Version1();
    Atoi1();
    Accepted("a" + "/" + "1" + " (" + "b" + ", " + " 1" + ", " + "d" + ")",
             "a", "1", "b", " 1", "", "1", "", "d");
  }

  lemma ParsesEmptyOsNameClasses()
    ensures OsDetailStarts(" 1", "", "1", "")
    ensures IsRunWithout("a", '/') && IsRunWithout("b", ',') && ',' !in " 1" && IsRunWithout("d", ')')
  {
    assert " 1" == "" + " " + "1" + "";
  }

  /** `a/1 (b, 1 1, d)`: the OS name is not checked: it may be a number. */
  lemma ParsesDigitOsName()
    ensures Parse("a" + "/" + "1" + " (" + "b" + ", " + "1 1" + ", " + "d" + ")")
         == Ok(UserAgent("a", "1", "b", "1", "1", "d"))
  {
    ParsesDigitOsNameClasses();
    Version1();
    Atoi1();
    Accepted("a" + "/" + "1" + " (" + "b" + ", " + "1 1" + ", " + "d" + ")",
             "a", "1", "b", "1 1", "1", "1", "", "d");
  }

  lemma ParsesDigitOsNameClasses()
    ensures OsDetailStarts("1 1", "1", "1", "")
    ensures IsRunWithout("a", '/') && IsRunWithout("b", ',') && ',' !in "1 1" && IsRunWithout("d", ')')
  {
    assert "1 1" == "1" + " " + "1" + "";
  }

  /** `a/1 (b, c +1, d)`: Atoi takes a sign, so a signed OS version passes and is kept with its sign. */
  lemma ParsesSignedOsVersion()
    ensures Parse("a" + "/" + "1" + " (" + "b" + ", " + "c +1" + ", " + "d" + ")")
         == Ok(UserAgent("a", "1", "b", "c", "+1", "d"))
  {
    ParsesSignedOsVersionClasses();
    Version1();
    AtoiPlus1();
    Accepted("a" + "/" + "1" + " (" + "b" + ", " + "c +1" + ", " + "d" + ")",
             "a", "1", "b", "c +1", "c", "+1", "", "d");
  }

  lemma ParsesSignedOsVersionClasses()
    ensures OsDetailStarts("c +1", "c", "+1", "")
    ensures IsRunWithout("a", '/') && IsRunWithout("b", ',') && ',' !in "c +1" && IsRunWithout("d", ')')
  {
    assert "c +1" == "c" + " " + "+1" + "";
  }

  /** `a/1 (b, c 1, d, e)`: the last field may hold commas. */
  lemma ParsesCommaInOthers()
    ensures Parse("a" + "/" + "1" + " (" + "b" + ", " + "c 1" + ", " + "d, e" + ")")
         == Ok(UserAgent("a", "1", "b", "c", "1", "d, e"))
  {
    ParsesCommaInOthersClasses();
    Version1();
    Atoi1();
    Accepted("a" + "/" + "1" + " (" + "b" + ", " + "c 1" + ", " + "d, e" + ")",
             "a", "1", "b", "c 1", "c", "1", "", "d, e");
  }

  lemma ParsesCommaInOthersClasses()
    ensures OsDetailStarts("c 1", "c", "1", "")
    ensures IsRunWithout("a", '/') && IsRunWithout("b", ',') && ',' !in "c 1" && IsRunWithout("d, e", ')')
  {
    assert "c 1" == "c" + " " + "1" + "";
  }

  /** The empty text is no match. */
  lemma RejectsEmpty()
    ensures Parse("") == Err(NoMatch(""))
  {
  }

  /** `App//1.0.0 (Device, OS 1, Other)`: the app name ends at the first slash, so the second lands in the version, which then is no version. */
  lemma RejectsDoubleSlash()
    ensures Parse("App" + "/" + "/1.0.0" + " (" + "Device" + ", " + "OS 1" + ", " + "Other" + ")")
         == Err(NoMatch("App" + "/" + "/1.0.0" + " (" + "Device" + ", " + "OS 1" + ", " + "Other" + ")"))
  {
    RejectsDoubleSlashClasses();
    NoVersionSlash();
    RejectedByClasses("App" + "/" + "/1.0.0" + " (" + "Device" + ", " + "OS 1" + ", " + "Other" + ")",
      Captures("App", "/1.0.0", "Device", "OS 1", "Other"));
  }

  lemma RejectsDoubleSlashClasses()
    ensures Delimited(Captures("App", "/1.0.0", "Device", "OS 1", "Other"))
  {
  }

  /** `App/notNum (Device, OS 1, Other)`: a version that is not digits is rejected. */
  lemma RejectsWordVersion()
    ensures Parse("App" + "/" + "notNum" + " (" + "Device" + ", " + "OS 1" + ", " + "Other" + ")")
         == Err(NoMatch("App" + "/" + "notNum" + " (" + "Device" + ", " + "OS 1" + ", " + "Other" + ")"))
  {
    RejectsWordVersionClasses();
    NoVersionWord();
    RejectedByClasses("App" + "/" + "notNum" + " (" + "Device" + ", " + "OS 1" + ", " + "Other" + ")",
      Captures("App", "notNum", "Device", "OS 1", "Other"));
  }

  lemma RejectsWordVersionClasses()
    ensures Delimited(Captures("App", "notNum", "Device", "OS 1", "Other"))
  {
  }

  /** `App/1.0.0.0 (Device, OS 1, Other)`: a fourth version group is rejected, not cut off. */
  lemma RejectsFourGroups()
    ensures Parse("App" + "/" + "1.0.0.0" + " (" + "Device" + ", " + "OS 1" + ", " + "Other" + ")")
         == Err(NoMatch("App" + "/" + "1.0.0.0" + " (" + "Device" + ", " + "OS 1" + ", " + "Other" + ")"))
  {
    RejectsFourGroupsClasses();
    NoVersion1000();
    RejectedByClasses("App" + "/" + "1.0.0.0" + " (" + "Device" + ", " + "OS 1" + ", " + "Other" + ")",
      Captures("App", "1.0.0.0", "Device", "OS 1", "Other"));
  }

  lemma RejectsFourGroupsClasses()
    ensures Delimited(Captures("App", "1.0.0.0", "Device", "OS 1", "Other"))
  {
  }

  /** `App/1.0.0 (Device,, OS 1, Other)`: the device model ends at its first comma, and `,,` is not the `, ` that must follow it. */
  lemma RejectsCommaInDevice()
    ensures Parse("App" + "/" + "1.0.0" + " (" + "Device" + ",, OS 1, Other)")
         == Err(NoMatch("App" + "/" + "1.0.0" + " (" + "Device" + ",, OS 1, Other)"))
  {
    ScanRejectsDeviceComma("App", "1.0.0", "Device", ",, OS 1, Other)");
    RejectedByScanner("App" + "/" + "1.0.0" + " (" + "Device" + ",, OS 1, Other)");
  }

  /** `App/1.0.0 (Device, OS1, Other)`: an OS detail without a space has no OS version. */
  lemma RejectsNoOsSpace()
    ensures Parse("App" + "/" + "1.0.0" + " (" + "Device" + ", " + "OS1" + ", " + "Other" + ")")
         == Err(MissingOsVersion("OS1"))
  {
    RejectsNoOsSpaceClasses();
    Version100();
    MissingOsVersionIff("App" + "/" + "1.0.0" + " (" + "Device" + ", " + "OS1" + ", " + "Other" + ")",
      Captures("App", "1.0.0", "Device", "OS1", "Other"));
  }

  lemma RejectsNoOsSpaceClasses()
    ensures IsRunWithout("App", '/') && IsRunWithout("Device", ',') && IsRunWithout("OS1", ',') && IsRunWithout("Other", ')') && ' ' !in "OS1"
  {
  }

  /** `App/1.0.0 (Device, OS hoge, Other)`: an OS version that is a word fails Atoi. */
  lemma RejectsWordOsVersion()
    ensures Parse("App" + "/" + "1.0.0" + " (" + "Device" + ", " + "OS hoge" + ", " + "Other" + ")")
         == Err(OsVersionNotNumber("hoge"))
  {
    RejectsWordOsVersionClasses();
    Version100();
    AtoiWord();
    OsVersionNotNumberIff("App" + "/" + "1.0.0" + " (" + "Device" + ", " + "OS hoge" + ", " + "Other" + ")",
      Captures("App", "1.0.0", "Device", "OS hoge", "Other"), "OS", "hoge", "");
  }

  lemma RejectsWordOsVersionClasses()
    ensures OsDetailStarts("OS hoge", "OS", "hoge", "")
    ensures IsRunWithout("App", '/') && IsRunWithout("Device", ',') && IsRunWithout("OS hoge", ',') && IsRunWithout("Other", ')')
  {
    assert "OS hoge" == "OS" + " " + "hoge" + "";
  }

  /** `a/1 (b, OS  1, d)`: a double space leaves an empty second piece, which Atoi rejects. */
  lemma RejectsDoubleSpace()
    ensures Parse("a" + "/" + "1" + " (" + "b" + ", " + "OS  1" + ", " + "d" + ")")
         == Err(OsVersionNotNumber(""))
  {
    RejectsDoubleSpaceClasses();
    Version1();
    AtoiEmpty();
    OsVersionNotNumberIff("a" + "/" + "1" + " (" + "b" + ", " + "OS  1" + ", " + "d" + ")",
      Captures("a", "1", "b", "OS  1", "d"), "OS", "", " 1");
  }

  lemma RejectsDoubleSpaceClasses()
    ensures OsDetailStarts("OS  1", "OS", "", " 1")
    ensures IsRunWithout("a", '/') && IsRunWithout("b", ',') && IsRunWithout("OS  1", ',') && IsRunWithout("d", ')')
  {
    assert "OS  1" == "OS" + " " + "" + " 1";
  }

  /** `a/1 (b, c 10000000000000000000, d)`: Atoi's range check: an OS version of twenty digits does not fit a 64-bit `int`. */
  lemma RejectsHugeOsVersion()
    ensures Parse("a" + "/" + "1" + " (" + "b" + ", " + "c 10000000000000000000" + ", " + "d" + ")")
         == Err(OsVersionNotNumber("10000000000000000000"))
  {
    RejectsHugeOsVersionClasses();
    RejectsHugeOsVersionOsDetail();
    Version1();
    AtoiTwentyDigits();
    OsVersionNotNumberIff("a" + "/" + "1" + " (" + "b" + ", " + "c 10000000000000000000" + ", " + "d" + ")",
      Captures("a", "1", "b", "c 10000000000000000000", "d"), "c", "10000000000000000000", "");
  }

  lemma RejectsHugeOsVersionClasses()
    ensures IsRunWithout("a", '/') && IsRunWithout("b", ',') && IsRunWithout("c 10000000000000000000", ',') && IsRunWithout("d", ')')
  {
  }

  lemma RejectsHugeOsVersionOsDetail()
    ensures OsDetailStarts("c 10000000000000000000", "c", "10000000000000000000", "")
  {
    assert "c 10000000000000000000" == "c" + " " + "10000000000000000000" + "";
  }

  /** `App/1.0.0 (Device, OS 1, Other))`: the pattern is anchored at the end: an extra `)` is rejected. */
  lemma RejectsExtraParen()
    ensures Parse("App" + "/" + "1.0.0" + " (" + "Device" + ", " + "OS 1" + ", " + "Other" + ")" + ")")
         == Err(NoMatch("App" + "/" + "1.0.0" + " (" + "Device" + ", " + "OS 1" + ", " + "Other" + ")" + ")"))
  {
    RejectsExtraParenClasses();
    ScanRejectsSuffix(Captures("App", "1.0.0", "Device", "OS 1", "Other"), ")");
    RejectedByScanner("App" + "/" + "1.0.0" + " (" + "Device" + ", " + "OS 1" + ", " + "Other" + ")" + ")");
  }

  lemma RejectsExtraParenClasses()
    ensures Delimited(Captures("App", "1.0.0", "Device", "OS 1", "Other"))
  {
  }

  /** `a/1 (b, c 1, d)\n`: `$` is the end of the text, not of a line: a final newline is rejected. */
  lemma RejectsFinalNewline()
    ensures Parse("a" + "/" + "1" + " (" + "b" + ", " + "c 1" + ", " + "d" + ")" + "\n")
         == Err(NoMatch("a" + "/" + "1" + " (" + "b" + ", " + "c 1" + ", " + "d" + ")" + "\n"))
  {
    RejectsFinalNewlineClasses();
    ScanRejectsSuffix(Captures("a", "1", "b", "c 1", "d"), "\n");
    RejectedByScanner("a" + "/" + "1" + " (" + "b" + ", " + "c 1" + ", " + "d" + ")" + "\n");
  }

  lemma RejectsFinalNewlineClasses()
    ensures Delimited(Captures("a", "1", "b", "c 1", "d"))
  {
  }
}
