/** The table of `useragent_test.go`, and the edge cases of its letters,
    space, digits OS part, as facts about the model of `useragent.go`.
    Inputs are written and cases proved as in `XuaParserExamples`. */
module RaiUserAgentExamples {
  import opened Text
  import opened Results
  import opened Frame
  import opened RaiUserAgent
  import opened SampleFacts

  /** A record whose skeleton spells the text, with an OS name free of
      spaces but some field outside its class, is no match. */
  lemma RejectedByFields(s: String, ua: UserAgent)
    requires Delimited(CapturesOf(ua)) && Render(CapturesOf(ua)) == s
    requires ' ' !in ua.osName && !FieldsMatch(ua)
    ensures Parse(s) == Err(NoMatch(s))
  {
    ScanFinds(CapturesOf(ua));
    CutFinds(ua.osName, " ", ua.osVersion);
  }

  /** Captures whose OS field holds no space are no match. */
  lemma RejectedWithoutSpace(s: String, c: Captures)
    requires Delimited(c) && Render(c) == s && ' ' !in c.os
    ensures Parse(s) == Err(NoMatch(s))
  {
    ScanFinds(c);
    assert c.os[..|c.os|] == c.os;
    IndexOfIs(c.os, ' ', |c.os|);
  }

  /** A text the scanner cannot take apart is no match. */
  lemma RejectedByScanner(s: String)
    requires Scan(s).None?
    ensures Parse(s) == Err(NoMatch(s))
  {
  }

  /** One character outside `\d` keeps a text out of `\d+`. */
  lemma NotDigitsAt(v: String, i: nat)
    requires i < |v| && !IsDigit(v[i])
    ensures !IsDigits(v)
  {
  }

  /** One character outside `[a-zA-Z]` keeps a text out of `[a-zA-Z]+`. */
  lemma NotLettersAt(v: String, i: nat)
    requires i < |v| && !IsLetter(v[i])
    ensures !IsLetters(v)
  {
  }

  /** `jp.retailai.raicart/3.9.3 (S-500, Android 10, trial)`: the first row of the table. */
  lemma ParsesRaicart()
    ensures Parse("jp.retailai.raicart" + "/" + "3.9.3" + " (" + "S-500" + ", " + "Android 10" + ", " + "trial" + ")")
         == Ok(UserAgent("jp.retailai.raicart", "3.9.3", "S-500", "Android", "10", "trial"))
  {
    ParsesRaicartClasses();
    Version393();
    ParseComplete("jp.retailai.raicart" + "/" + "3.9.3" + " (" + "S-500" + ", " + "Android 10" + ", " + "trial" + ")",
      UserAgent("jp.retailai.raicart", "3.9.3", "S-500", "Android", "10", "trial"));
  }

  lemma ParsesRaicartClasses()
    ensures "Android 10" == "Android" + " " + "10"
    ensures IsRunWithout("jp.retailai.raicart", '/') && IsRunWithout("S-500", ',') && IsRunWithout("trial", ')')
    ensures IsLetters("Android") && IsDigits("10")
  {
  }

  /** `SCT/1.0.0 (Toshiba T380, Windows 11, Aeon)`: a device model with a space. */
  lemma ParsesSct()
    ensures Parse("SCT" + "/" + "1.0.0" + " (" + "Toshiba T380" + ", " + "Windows 11" + ", " + "Aeon" + ")")
         == Ok(UserAgent("SCT", "1.0.0", "Toshiba T380", "Windows", "11", "Aeon"))
  {
    ParsesSctClasses();
    Version100();
    ParseComplete("SCT" + "/" + "1.0.0" + " (" + "Toshiba T380" + ", " + "Windows 11" + ", " + "Aeon" + ")",
      UserAgent("SCT", "1.0.0", "Toshiba T380", "Windows", "11", "Aeon"));
  }

  lemma ParsesSctClasses()
    ensures "Windows 11" == "Windows" + " " + "11"
    ensures IsRunWithout("SCT", '/') && IsRunWithout("Toshiba T380", ',') && IsRunWithout("Aeon", ')')
    ensures IsLetters("Windows") && IsDigits("11")
  {
  }

  /** `ISM Flutter/2.3.1 (Samsung S8 Pro, Android 11, Sugi)`: an app name with a space. */
  lemma ParsesIsmFlutter()
    ensures Parse("ISM Flutter" + "/" + "2.3.1" + " (" + "Samsung S8 Pro" + ", " + "Android 11" + ", " + "Sugi" + ")")
         == Ok(UserAgent("ISM Flutter", "2.3.1", "Samsung S8 Pro", "Android", "11", "Sugi"))
  {
    ParsesIsmFlutterClasses();
    Version231();
    ParseComplete("ISM Flutter" + "/" + "2.3.1" + " (" + "Samsung S8 Pro" + ", " + "Android 11" + ", " + "Sugi" + ")",
      UserAgent("ISM Flutter", "2.3.1", "Samsung S8 Pro", "Android", "11", "Sugi"));
  }

  lemma ParsesIsmFlutterClasses()
    ensures "Android 11" == "Android" + " " + "11"
    ensures IsRunWithout("ISM Flutter", '/') && IsRunWithout("Samsung S8 Pro", ',') && IsRunWithout("Sugi", ')')
    ensures IsLetters("Android") && IsDigits("11")
  {
  }

  /** `SC Windows/4.0.0 (HP EliteBook, Windows 10, TRIAL)`: an upper-case retailer. */
  lemma ParsesScWindows()
    ensures Parse("SC Windows" + "/" + "4.0.0" + " (" + "HP EliteBook" + ", " + "Windows 10" + ", " + "TRIAL" + ")")
         == Ok(UserAgent("SC Windows", "4.0.0", "HP EliteBook", "Windows", "10", "TRIAL"))
  {
    ParsesScWindowsClasses();
    Version400();
    ParseComplete("SC Windows" + "/" + "4.0.0" + " (" + "HP EliteBook" + ", " + "Windows 10" + ", " + "TRIAL" + ")",
      UserAgent("SC Windows", "4.0.0", "HP EliteBook", "Windows", "10", "TRIAL"));
  }

  lemma ParsesScWindowsClasses()
    ensures "Windows 10" == "Windows" + " " + "10"
    ensures IsRunWithout("SC Windows", '/') && IsRunWithout("HP EliteBook", ',') && IsRunWithout("TRIAL", ')')
    ensures IsLetters("Windows") && IsDigits("10")
  {
  }

  /** `jp.retailai.raicart/4.1.0 (Huawei P30, Android 9, Taiyo)`: a one-digit OS version. */
  lemma ParsesAndroid9()
    ensures Parse("jp.retailai.raicart" + "/" + "4.1.0" + " (" + "Huawei P30" + ", " + "Android 9" + ", " + "Taiyo" + ")")
         == Ok(UserAgent("jp.retailai.raicart", "4.1.0", "Huawei P30", "Android", "9", "Taiyo"))
  {
    ParsesAndroid9Classes();
    Version410();
    ParseComplete("jp.retailai.raicart" + "/" + "4.1.0" + " (" + "Huawei P30" + ", " + "Android 9" + ", " + "Taiyo" + ")",
      UserAgent("jp.retailai.raicart", "4.1.0", "Huawei P30", "Android", "9", "Taiyo"));
  }

  lemma ParsesAndroid9Classes()
    ensures "Android 9" == "Android" + " " + "9"
    ensures IsRunWithout("jp.retailai.raicart", '/') && IsRunWithout("Huawei P30", ',') && IsRunWithout("Taiyo", ')')
    ensures IsLetters("Android") && IsDigits("9")
  {
  }

  /** `ISM/3.2.1 (Dell XPS 13, Windows 10, Aeon)`: a device model with digits and spaces. */
  lemma ParsesDellXps()
    ensures Parse("ISM" + "/" + "3.2.1" + " (" + "Dell XPS 13" + ", " + "Windows 10" + ", " + "Aeon" + ")")
         == Ok(UserAgent("ISM", "3.2.1", "Dell XPS 13", "Windows", "10", "Aeon"))
  {
    ParsesDellXpsClasses();
    Version321();
    ParseComplete("ISM" + "/" + "3.2.1" + " (" + "Dell XPS 13" + ", " + "Windows 10" + ", " + "Aeon" + ")",
      UserAgent("ISM", "3.2.1", "Dell XPS 13", "Windows", "10", "Aeon"));
  }

  lemma ParsesDellXpsClasses()
    ensures "Windows 10" == "Windows" + " " + "10"
    ensures IsRunWithout("ISM", '/') && IsRunWithout("Dell XPS 13", ',') && IsRunWithout("Aeon", ')')
    ensures IsLetters("Windows") && IsDigits("10")
  {
  }

  /** `SCT Flutter/1.1.1 (Sony Xperia, Android 8, TRIAL)`: Android 8. */
  lemma ParsesSctFlutter()
    ensures Parse("SCT Flutter" + "/" + "1.1.1" + " (" + "Sony Xperia" + ", " + "Android 8" + ", " + "TRIAL" + ")")
         == Ok(UserAgent("SCT Flutter", "1.1.1", "Sony Xperia", "Android", "8", "TRIAL"))
  {
    ParsesSctFlutterClasses();
    Version111();
    ParseComplete("SCT Flutter" + "/" + "1.1.1" + " (" + "Sony Xperia" + ", " + "Android 8" + ", " + "TRIAL" + ")",
      UserAgent("SCT Flutter", "1.1.1", "Sony Xperia", "Android", "8", "TRIAL"));
  }

  lemma ParsesSctFlutterClasses()
    ensures "Android 8" == "Android" + " " + "8"
    ensures IsRunWithout("SCT Flutter", '/') && IsRunWithout("Sony Xperia", ',') && IsRunWithout("TRIAL", ')')
    ensures IsLetters("Android") && IsDigits("8")
  {
  }

  /** `SC Windows/2.5.0 (Lenovo ThinkPad, Windows 8, Taiyo)`: Windows 8. */
  lemma ParsesThinkPad()
    ensures Parse("SC Windows" + "/" + "2.5.0" + " (" + "Lenovo ThinkPad" + ", " + "Windows 8" + ", " + "Taiyo" + ")")
         == Ok(UserAgent("SC Windows", "2.5.0", "Lenovo ThinkPad", "Windows", "8", "Taiyo"))
  {
    ParsesThinkPadClasses();
    Version250();
    ParseComplete("SC Windows" + "/" + "2.5.0" + " (" + "Lenovo ThinkPad" + ", " + "Windows 8" + ", " + "Taiyo" + ")",
      UserAgent("SC Windows", "2.5.0", "Lenovo ThinkPad", "Windows", "8", "Taiyo"));
  }

  lemma ParsesThinkPadClasses()
    ensures "Windows 8" == "Windows" + " " + "8"
    ensures IsRunWithout("SC Windows", '/') && IsRunWithout("Lenovo ThinkPad", ',') && IsRunWithout("Taiyo", ')')
    ensures IsLetters("Windows") && IsDigits("8")
  {
  }

  /** `ISM Flutter/3.0.0 (Samsung Galaxy S10, Android 10, Sugi)`: a three-word device model. */
  lemma ParsesGalaxy()
    ensures Parse("ISM Flutter" + "/" + "3.0.0" + " (" + "Samsung Galaxy S10" + ", " + "Android 10" + ", " + "Sugi" + ")")
         == Ok(UserAgent("ISM Flutter", "3.0.0", "Samsung Galaxy S10", "Android", "10", "Sugi"))
  {
    ParsesGalaxyClasses();
    Version300();
    ParseComplete("ISM Flutter" + "/" + "3.0.0" + " (" + "Samsung Galaxy S10" + ", " + "Android 10" + ", " + "Sugi" + ")",
      UserAgent("ISM Flutter", "3.0.0", "Samsung Galaxy S10", "Android", "10", "Sugi"));
  }

  lemma ParsesGalaxyClasses()
    ensures "Android 10" == "Android" + " " + "10"
    ensures IsRunWithout("ISM Flutter", '/') && IsRunWithout("Samsung Galaxy S10", ',') && IsRunWithout("Sugi", ')')
    ensures IsLetters("Android") && IsDigits("10")
  {
  }

  /** `SCT/2.2.2 (Google Pixel, Android 11, TRIAL)`: Android 11. */
  lemma ParsesPixel()
    ensures Parse("SCT" + "/" + "2.2.2" + " (" + "Google Pixel" + ", " + "Android 11" + ", " + "TRIAL" + ")")
         == Ok(UserAgent("SCT", "2.2.2", "Google Pixel", "Android", "11", "TRIAL"))
  {
    ParsesPixelClasses();
    Version222();
    ParseComplete("SCT" + "/" + "2.2.2" + " (" + "Google Pixel" + ", " + "Android 11" + ", " + "TRIAL" + ")",
      UserAgent("SCT", "2.2.2", "Google Pixel", "Android", "11", "TRIAL"));
  }

  lemma ParsesPixelClasses()
    ensures "Android 11" == "Android" + " " + "11"
    ensures IsRunWithout("SCT", '/') && IsRunWithout("Google Pixel", ',') && IsRunWithout("TRIAL", ')')
    ensures IsLetters("Android") && IsDigits("11")
  {
  }

  /** `ism-flutter/1.3.0 (ESYP-10142789, Windows 10, trial)`: hyphens are allowed in the app name and the device model. */
  lemma ParsesHyphenatedApp()
    ensures Parse("ism-flutter" + "/" + "1.3.0" + " (" + "ESYP-10142789" + ", " + "Windows 10" + ", " + "trial" + ")")
         == Ok(UserAgent("ism-flutter", "1.3.0", "ESYP-10142789", "Windows", "10", "trial"))
  {
    ParsesHyphenatedAppClasses();
    Version130();
    ParseComplete("ism-flutter" + "/" + "1.3.0" + " (" + "ESYP-10142789" + ", " + "Windows 10" + ", " + "trial" + ")",
      UserAgent("ism-flutter", "1.3.0", "ESYP-10142789", "Windows", "10", "trial"));
  }

  lemma ParsesHyphenatedAppClasses()
    ensures "Windows 10" == "Windows" + " " + "10"
    ensures IsRunWithout("ism-flutter", '/') && IsRunWithout("ESYP-10142789", ',') && IsRunWithout("trial", ')')
    ensures IsLetters("Windows") && IsDigits("10")
  {
  }

  /** `ISM-Vue/10 (ESYP-10142789, Windows 10, trial)`: a version of one group. */
  lemma ParsesOneGroupVersion()
    ensures Parse("ISM-Vue" + "/" + "10" + " (" + "ESYP-10142789" + ", " + "Windows 10" + ", " + "trial" + ")")
         == Ok(UserAgent("ISM-Vue", "10", "ESYP-10142789", "Windows", "10", "trial"))
  {
    ParsesOneGroupVersionClasses();
    Version10();
    ParseComplete("ISM-Vue" + "/" + "10" + " (" + "ESYP-10142789" + ", " + "Windows 10" + ", " + "trial" + ")",
      UserAgent("ISM-Vue", "10", "ESYP-10142789", "Windows", "10", "trial"));
  }

  lemma ParsesOneGroupVersionClasses()
    ensures "Windows 10" == "Windows" + " " + "10"
    ensures IsRunWithout("ISM-Vue", '/') && IsRunWithout("ESYP-10142789", ',') && IsRunWithout("trial", ')')
    ensures IsLetters("Windows") && IsDigits("10")
  {
  }

  /** `a/1 (b, c 1, d)`: the shortest user agent. */
  lemma ParsesMinimum()
    ensures Parse("a" + "/" + "1" + " (" + "b" + ", " + "c 1" + ", " + "d" + ")")
         == Ok(UserAgent("a", "1", "b", "c", "1", "d"))
  {
    ParsesMinimumClasses();
    Version1();
    ParseComplete("a" + "/" + "1" + " (" + "b" + ", " + "c 1" + ", " + "d" + ")",
      UserAgent("a", "1", "b", "c", "1", "d"));
  }

  lemma ParsesMinimumClasses()
    ensures "c 1" == "c" + " " + "1"
    ensures IsRunWithout("a", '/') && IsRunWithout("b", ',') && IsRunWithout("d", ')')
    ensures IsLetters("c") && IsDigits("1")
  {
  }

  /** `a/1 (b, c 007, d)`: the OS version is a digit run: leading zeros stay. */
  lemma ParsesLeadingZeros()
    ensures Parse("a" + "/" + "1" + " (" + "b" + ", " + "c 007" + ", " + "d" + ")")
         == Ok(UserAgent("a", "1", "b", "c", "007", "d"))
  {
    ParsesLeadingZerosClasses();
    Version1();
    ParseComplete("a" + "/" + "1" + " (" + "b" + ", " + "c 007" + ", " + "d" + ")",
      UserAgent("a", "1", "b", "c", "007", "d"));
  }

  lemma ParsesLeadingZerosClasses()
    ensures "c 007" == "c" + " " + "007"
    ensures IsRunWithout("a", '/') && IsRunWithout("b", ',') && IsRunWithout("d", ')')
    ensures IsLetters("c") && IsDigits("007")
  {
  }

  /** `a/1 (b, c 10000000000000000000, d)`: the OS version has no range check. */
  lemma ParsesHugeOsVersion()
    ensures Parse("a" + "/" + "1" + " (" + "b" + ", " + "c 10000000000000000000" + ", " + "d" + ")")
         == Ok(UserAgent("a", "1", "b", "c", "10000000000000000000", "d"))
  {
    ParsesHugeOsVersionClasses();
    Version1();
    ParseComplete("a" + "/" + "1" + " (" + "b" + ", " + "c 10000000000000000000" + ", " + "d" + ")",
      UserAgent("a", "1", "b", "c", "10000000000000000000", "d"));
  }

  lemma ParsesHugeOsVersionClasses()
    ensures "c 10000000000000000000" == "c" + " " + "10000000000000000000"
    ensures IsRunWithout("a", '/') && IsRunWithout("b", ',') && IsRunWithout("d", ')')
    ensures IsLetters("c") && IsDigits("10000000000000000000")
  {
  }

  /** The empty text is no match. */
  lemma RejectsEmpty()
    ensures Parse("") == Err(NoMatch(""))
  {
  }

  /** `App//1.0.0 (Device, OS 1, Retailer)`: a second slash lands in the version. */
  lemma RejectsDoubleSlash()
    ensures Parse("App" + "/" + "/1.0.0" + " (" + "Device" + ", " + "OS 1" + ", " + "Retailer" + ")")
         == Err(NoMatch("App" + "/" + "/1.0.0" + " (" + "Device" + ", " + "OS 1" + ", " + "Retailer" + ")"))
  {
    RejectsDoubleSlashClasses();
    NoVersionSlash();
    RejectedByFields("App" + "/" + "/1.0.0" + " (" + "Device" + ", " + "OS 1" + ", " + "Retailer" + ")",
      UserAgent("App", "/1.0.0", "Device", "OS", "1", "Retailer"));
  }

  lemma RejectsDoubleSlashClasses()
    ensures "OS 1" == "OS" + " " + "1"
    ensures Delimited(CapturesOf(UserAgent("App", "/1.0.0", "Device", "OS", "1", "Retailer")))
    ensures ' ' !in "OS"
  {
  }

  /** `App/notNum (Device, OS 1, Retailer)`: a version that is not digits. */
  lemma RejectsWordVersion()
    ensures Parse("App" + "/" + "notNum" + " (" + "Device" + ", " + "OS 1" + ", " + "Retailer" + ")")
         == Err(NoMatch("App" + "/" + "notNum" + " (" + "Device" + ", " + "OS 1" + ", " + "Retailer" + ")"))
  {
    RejectsWordVersionClasses();
    NoVersionWord();
    RejectedByFields("App" + "/" + "notNum" + " (" + "Device" + ", " + "OS 1" + ", " + "Retailer" + ")",
      UserAgent("App", "notNum", "Device", "OS", "1", "Retailer"));
  }

  lemma RejectsWordVersionClasses()
    ensures "OS 1" == "OS" + " " + "1"
    ensures Delimited(CapturesOf(UserAgent("App", "notNum", "Device", "OS", "1", "Retailer")))
    ensures ' ' !in "OS"
  {
  }

  /** `App/1.0.0.0 (Device, OS 1, Retailer)`: a fourth version group. */
  lemma RejectsFourGroups()
    ensures Parse("App" + "/" + "1.0.0.0" + " (" + "Device" + ", " + "OS 1" + ", " + "Retailer" + ")")
         == Err(NoMatch("App" + "/" + "1.0.0.0" + " (" + "Device" + ", " + "OS 1" + ", " + "Retailer" + ")"))
  {
    RejectsFourGroupsClasses();
    NoVersion1000();
    RejectedByFields("App" + "/" + "1.0.0.0" + " (" + "Device" + ", " + "OS 1" + ", " + "Retailer" + ")",
      UserAgent("App", "1.0.0.0", "Device", "OS", "1", "Retailer"));
  }

  lemma RejectsFourGroupsClasses()
    ensures "OS 1" == "OS" + " " + "1"
    ensures Delimited(CapturesOf(UserAgent("App", "1.0.0.0", "Device", "OS", "1", "Retailer")))
    ensures ' ' !in "OS"
  {
  }

  /** `App/1.0.0 (Device, 1 1, Retailer)`: the OS name must be letters. */
  lemma RejectsDigitOsName()
    ensures Parse("App" + "/" + "1.0.0" + " (" + "Device" + ", " + "1 1" + ", " + "Retailer" + ")")
         == Err(NoMatch("App" + "/" + "1.0.0" + " (" + "Device" + ", " + "1 1" + ", " + "Retailer" + ")"))
  {
    RejectsDigitOsNameClasses();
    NotLettersAt("1", 0);
    RejectedByFields("App" + "/" + "1.0.0" + " (" + "Device" + ", " + "1 1" + ", " + "Retailer" + ")",
      UserAgent("App", "1.0.0", "Device", "1", "1", "Retailer"));
  }

  lemma RejectsDigitOsNameClasses()
    ensures "1 1" == "1" + " " + "1"
    ensures Delimited(CapturesOf(UserAgent("App", "1.0.0", "Device", "1", "1", "Retailer")))
    ensures ' ' !in "1"
  {
  }

  /** `App/1.0.0 (Device, OS hoge, Retailer)`: the OS version must be digits. */
  lemma RejectsWordOsVersion()
    ensures Parse("App" + "/" + "1.0.0" + " (" + "Device" + ", " + "OS hoge" + ", " + "Retailer" + ")")
         == Err(NoMatch("App" + "/" + "1.0.0" + " (" + "Device" + ", " + "OS hoge" + ", " + "Retailer" + ")"))
  {
    RejectsWordOsVersionClasses();
    NotDigitsAt("hoge", 0);
    RejectedByFields("App" + "/" + "1.0.0" + " (" + "Device" + ", " + "OS hoge" + ", " + "Retailer" + ")",
      UserAgent("App", "1.0.0", "Device", "OS", "hoge", "Retailer"));
  }

  lemma RejectsWordOsVersionClasses()
    ensures "OS hoge" == "OS" + " " + "hoge"
    ensures Delimited(CapturesOf(UserAgent("App", "1.0.0", "Device", "OS", "hoge", "Retailer")))
    ensures ' ' !in "OS"
  {
  }

  /** `App/1.0.0 (Device, OS 1 Pro, Retailer)`: nothing may follow the digits of the OS version. */
  lemma RejectsOsDetailTail()
    ensures Parse("App" + "/" + "1.0.0" + " (" + "Device" + ", " + "OS 1 Pro" + ", " + "Retailer" + ")")
         == Err(NoMatch("App" + "/" + "1.0.0" + " (" + "Device" + ", " + "OS 1 Pro" + ", " + "Retailer" + ")"))
  {
    RejectsOsDetailTailClasses();
    NotDigitsAt("1 Pro", 1);
    RejectedByFields("App" + "/" + "1.0.0" + " (" + "Device" + ", " + "OS 1 Pro" + ", " + "Retailer" + ")",
      UserAgent("App", "1.0.0", "Device", "OS", "1 Pro", "Retailer"));
  }

  lemma RejectsOsDetailTailClasses()
    ensures "OS 1 Pro" == "OS" + " " + "1 Pro"
    ensures Delimited(CapturesOf(UserAgent("App", "1.0.0", "Device", "OS", "1 Pro", "Retailer")))
    ensures ' ' !in "OS"
  {
  }

  /** `a/1 (b, c +1, d)`: unlike Atoi, the digits class takes no sign. */
  lemma RejectsSignedOsVersion()
    ensures Parse("a" + "/" + "1" + " (" + "b" + ", " + "c +1" + ", " + "d" + ")")
         == Err(NoMatch("a" + "/" + "1" + " (" + "b" + ", " + "c +1" + ", " + "d" + ")"))
  {
    RejectsSignedOsVersionClasses();
    NotDigitsAt("+1", 0);
    RejectedByFields("a" + "/" + "1" + " (" + "b" + ", " + "c +1" + ", " + "d" + ")",
      UserAgent("a", "1", "b", "c", "+1", "d"));
  }

  lemma RejectsSignedOsVersionClasses()
    ensures "c +1" == "c" + " " + "+1"
    ensures Delimited(CapturesOf(UserAgent("a", "1", "b", "c", "+1", "d")))
    ensures ' ' !in "c"
  {
  }

  /** `a/1 (b, OS  1, d)`: exactly one space separates the OS name and version. */
  lemma RejectsDoubleSpace()
    ensures Parse("a" + "/" + "1" + " (" + "b" + ", " + "OS  1" + ", " + "d" + ")")
         == Err(NoMatch("a" + "/" + "1" + " (" + "b" + ", " + "OS  1" + ", " + "d" + ")"))
  {
    RejectsDoubleSpaceClasses();
    NotDigitsAt(" 1", 0);
    RejectedByFields("a" + "/" + "1" + " (" + "b" + ", " + "OS  1" + ", " + "d" + ")",
      UserAgent("a", "1", "b", "OS", " 1", "d"));
  }

  lemma RejectsDoubleSpaceClasses()
    ensures "OS  1" == "OS" + " " + " 1"
    ensures Delimited(CapturesOf(UserAgent("a", "1", "b", "OS", " 1", "d")))
    ensures ' ' !in "OS"
  {
  }

  /** `App/1.0.0 (Device,, OS 1, Retailer)`: the device model ends at its first comma, and `,,` is not the `, ` that must follow it. */
  lemma RejectsCommaInDevice()
    ensures Parse("App" + "/" + "1.0.0" + " (" + "Device" + ",, OS 1, Retailer)")
         == Err(NoMatch("App" + "/" + "1.0.0" + " (" + "Device" + ",, OS 1, Retailer)"))
  {
    ScanRejectsDeviceComma("App", "1.0.0", "Device", ",, OS 1, Retailer)");
    RejectedByScanner("App" + "/" + "1.0.0" + " (" + "Device" + ",, OS 1, Retailer)");
  }

  /** `App/1.0.0 (Device, OS1, Retailer)`: the OS name and version must be separated by a space. */
  lemma RejectsNoOsSpace()
    ensures Parse("App" + "/" + "1.0.0" + " (" + "Device" + ", " + "OS1" + ", " + "Retailer" + ")")
         == Err(NoMatch("App" + "/" + "1.0.0" + " (" + "Device" + ", " + "OS1" + ", " + "Retailer" + ")"))
  {
    RejectsNoOsSpaceClasses();
    RejectedWithoutSpace("App" + "/" + "1.0.0" + " (" + "Device" + ", " + "OS1" + ", " + "Retailer" + ")",
      Captures("App", "1.0.0", "Device", "OS1", "Retailer"));
  }

  lemma RejectsNoOsSpaceClasses()
    ensures Delimited(Captures("App", "1.0.0", "Device", "OS1", "Retailer"))
    ensures ' ' !in "OS1"
  {
  }

  /** `App/1.0.0 (Device, OS 1, Retailer))`: the pattern is anchored at the end: an extra `)` is rejected. */
  lemma RejectsExtraParen()
    ensures Parse("App" + "/" + "1.0.0" + " (" + "Device" + ", " + "OS 1" + ", " + "Retailer" + ")" + ")")
         == Err(NoMatch("App" + "/" + "1.0.0" + " (" + "Device" + ", " + "OS 1" + ", " + "Retailer" + ")" + ")"))
  {
    RejectsExtraParenClasses();
    ScanRejectsSuffix(Captures("App", "1.0.0", "Device", "OS 1", "Retailer"), ")");
    RejectedByScanner("App" + "/" + "1.0.0" + " (" + "Device" + ", " + "OS 1" + ", " + "Retailer" + ")" + ")");
  }

  lemma RejectsExtraParenClasses()
    ensures Delimited(Captures("App", "1.0.0", "Device", "OS 1", "Retailer"))
  {
  }
}
