/** The table of `useragent/useragent_test.go`, and the places where this
    variant's classes differ from the other two, as facts about the model
    of `useragent/useragent.go`. Inputs are written and cases proved as in
    `XuaParserExamples`. */
module XUserAgentExamples {
  import opened Text
  import opened Results
  import opened Frame
  import opened XUserAgent

  /** A well-formed record parses back from its formatted text. */
  lemma Accepted(s: String, ua: UserAgent)
    requires WellFormed(ua) && FormatUserAgent(ua) == s
    ensures ParseUserAgent(s) == Ok(ua)
  {
    ParseAfterFormat(ua);
  }

  /** A text that spells delimited fields, one of which is outside its
      capture class, is no match. */
  lemma Rejected(s: String, ua: UserAgent)
    requires Delimited(CapturesOf(ua)) && FormatUserAgent(ua) == s && !WellFormed(ua)
    ensures ParseUserAgent(s) == Err(NoMatch(s))
  {
    ScanFinds(CapturesOf(ua));
  }

  /** `jp.retailai.raicart/3.9.3 (S-500, Android 10, trial)`: the first row of the table: the OS field is kept whole. */
  lemma ParsesRaicart()
    ensures ParseUserAgent("jp.retailai.raicart" + "/" + "3.9.3" + " (" + "S-500" + ", " + "Android 10" + ", " + "trial" + ")")
         == Ok(UserAgent("jp.retailai.raicart", "3.9.3", "S-500", "Android 10", "trial"))
  {
    ParsesRaicartClasses();
    ParsesRaicartNames();
    Accepted("jp.retailai.raicart" + "/" + "3.9.3" + " (" + "S-500" + ", " + "Android 10" + ", " + "trial" + ")",
      UserAgent("jp.retailai.raicart", "3.9.3", "S-500", "Android 10", "trial"));
  }

  lemma ParsesRaicartClasses()
    ensures IsRunWithout("S-500", ',') && IsRunWithout("Android 10", ',') && IsRunWithout("trial", ')')
  {
  }

  lemma ParsesRaicartNames()
    ensures IsAppName("jp.retailai.raicart") && IsVersionName("3.9.3")
  {
  }

  /** `SCT/1.0.0 (Toshiba T380, Windows 11, Aeon)`: a device model with a space. */
  lemma ParsesSct()
    ensures ParseUserAgent("SCT" + "/" + "1.0.0" + " (" + "Toshiba T380" + ", " + "Windows 11" + ", " + "Aeon" + ")")
         == Ok(UserAgent("SCT", "1.0.0", "Toshiba T380", "Windows 11", "Aeon"))
  {
    ParsesSctClasses();
    ParsesSctNames();
    Accepted("SCT" + "/" + "1.0.0" + " (" + "Toshiba T380" + ", " + "Windows 11" + ", " + "Aeon" + ")",
      UserAgent("SCT", "1.0.0", "Toshiba T380", "Windows 11", "Aeon"));
  }

  lemma ParsesSctClasses()
    ensures IsRunWithout("Toshiba T380", ',') && IsRunWithout("Windows 11", ',') && IsRunWithout("Aeon", ')')
  {
  }

  lemma ParsesSctNames()
    ensures IsAppName("SCT") && IsVersionName("1.0.0")
  {
  }

  /** `ISM Flutter/2.3.1 (Samsung S8 Pro, Android 11, Sugi)`: a space in the app name is in `\s`. */
  lemma ParsesIsmFlutter()
    ensures ParseUserAgent("ISM Flutter" + "/" + "2.3.1" + " (" + "Samsung S8 Pro" + ", " + "Android 11" + ", " + "Sugi" + ")")
         == Ok(UserAgent("ISM Flutter", "2.3.1", "Samsung S8 Pro", "Android 11", "Sugi"))
  {
    ParsesIsmFlutterClasses();
    ParsesIsmFlutterNames();
    Accepted("ISM Flutter" + "/" + "2.3.1" + " (" + "Samsung S8 Pro" + ", " + "Android 11" + ", " + "Sugi" + ")",
      UserAgent("ISM Flutter", "2.3.1", "Samsung S8 Pro", "Android 11", "Sugi"));
  }

  lemma ParsesIsmFlutterClasses()
    ensures IsRunWithout("Samsung S8 Pro", ',') && IsRunWithout("Android 11", ',') && IsRunWithout("Sugi", ')')
  {
  }

  lemma ParsesIsmFlutterNames()
    ensures IsAppName("ISM Flutter") && IsVersionName("2.3.1")
  {
  }

  /** `SC Windows/4.0.0 (HP EliteBook, Windows 10, TRIAL)`: an upper-case retailer. */
  lemma ParsesScWindows()
    ensures ParseUserAgent("SC Windows" + "/" + "4.0.0" + " (" + "HP EliteBook" + ", " + "Windows 10" + ", " + "TRIAL" + ")")
         == Ok(UserAgent("SC Windows", "4.0.0", "HP EliteBook", "Windows 10", "TRIAL"))
  {
    ParsesScWindowsClasses();
    ParsesScWindowsNames();
    Accepted("SC Windows" + "/" + "4.0.0" + " (" + "HP EliteBook" + ", " + "Windows 10" + ", " + "TRIAL" + ")",
      UserAgent("SC Windows", "4.0.0", "HP EliteBook", "Windows 10", "TRIAL"));
  }

  lemma ParsesScWindowsClasses()
    ensures IsRunWithout("HP EliteBook", ',') && IsRunWithout("Windows 10", ',') && IsRunWithout("TRIAL", ')')
  {
  }

  lemma ParsesScWindowsNames()
    ensures IsAppName("SC Windows") && IsVersionName("4.0.0")
  {
  }

  /** `jp.retailai.raicart/4.1.0 (Huawei P30, Android 9, Taiyo)`: dots in the app name are allowed. */
  lemma ParsesAndroid9()
    ensures ParseUserAgent("jp.retailai.raicart" + "/" + "4.1.0" + " (" + "Huawei P30" + ", " + "Android 9" + ", " + "Taiyo" + ")")
         == Ok(UserAgent("jp.retailai.raicart", "4.1.0", "Huawei P30", "Android 9", "Taiyo"))
  {
    ParsesAndroid9Classes();
    ParsesAndroid9Names();
    Accepted("jp.retailai.raicart" + "/" + "4.1.0" + " (" + "Huawei P30" + ", " + "Android 9" + ", " + "Taiyo" + ")",
      UserAgent("jp.retailai.raicart", "4.1.0", "Huawei P30", "Android 9", "Taiyo"));
  }

  lemma ParsesAndroid9Classes()
    ensures IsRunWithout("Huawei P30", ',') && IsRunWithout("Android 9", ',') && IsRunWithout("Taiyo", ')')
  {
  }

  lemma ParsesAndroid9Names()
    ensures IsAppName("jp.retailai.raicart") && IsVersionName("4.1.0")
  {
  }

  /** `ISM/3.2.1 (Dell XPS 13, Windows 10, Aeon)`: a device model with digits and spaces. */
  lemma ParsesDellXps()
    ensures ParseUserAgent("ISM" + "/" + "3.2.1" + " (" + "Dell XPS 13" + ", " + "Windows 10" + ", " + "Aeon" + ")")
         == Ok(UserAgent("ISM", "3.2.1", "Dell XPS 13", "Windows 10", "Aeon"))
  {
    ParsesDellXpsClasses();
    ParsesDellXpsNames();
    Accepted("ISM" + "/" + "3.2.1" + " (" + "Dell XPS 13" + ", " + "Windows 10" + ", " + "Aeon" + ")",
      UserAgent("ISM", "3.2.1", "Dell XPS 13", "Windows 10", "Aeon"));
  }

  lemma ParsesDellXpsClasses()
    ensures IsRunWithout("Dell XPS 13", ',') && IsRunWithout("Windows 10", ',') && IsRunWithout("Aeon", ')')
  {
  }

  lemma ParsesDellXpsNames()
    ensures IsAppName("ISM") && IsVersionName("3.2.1")
  {
  }

  /** `SCT Flutter/1.1.1 (Sony Xperia, Android 8, TRIAL)`: Android 8. */
  lemma ParsesSctFlutter()
    ensures ParseUserAgent("SCT Flutter" + "/" + "1.1.1" + " (" + "Sony Xperia" + ", " + "Android 8" + ", " + "TRIAL" + ")")
         == Ok(UserAgent("SCT Flutter", "1.1.1", "Sony Xperia", "Android 8", "TRIAL"))
  {
    ParsesSctFlutterClasses();
    ParsesSctFlutterNames();
    Accepted("SCT Flutter" + "/" + "1.1.1" + " (" + "Sony Xperia" + ", " + "Android 8" + ", " + "TRIAL" + ")",
      UserAgent("SCT Flutter", "1.1.1", "Sony Xperia", "Android 8", "TRIAL"));
  }

  lemma ParsesSctFlutterClasses()
    ensures IsRunWithout("Sony Xperia", ',') && IsRunWithout("Android 8", ',') && IsRunWithout("TRIAL", ')')
  {
  }

  lemma ParsesSctFlutterNames()
    ensures IsAppName("SCT Flutter") && IsVersionName("1.1.1")
  {
  }

  /** `SC Windows/2.5.0 (Lenovo ThinkPad, Windows 8, Taiyo)`: Windows 8. */
  lemma ParsesThinkPad()
    ensures ParseUserAgent("SC Windows" + "/" + "2.5.0" + " (" + "Lenovo ThinkPad" + ", " + "Windows 8" + ", " + "Taiyo" + ")")
         == Ok(UserAgent("SC Windows", "2.5.0", "Lenovo ThinkPad", "Windows 8", "Taiyo"))
  {
    ParsesThinkPadClasses();
    ParsesThinkPadNames();
    Accepted("SC Windows" + "/" + "2.5.0" + " (" + "Lenovo ThinkPad" + ", " + "Windows 8" + ", " + "Taiyo" + ")",
      UserAgent("SC Windows", "2.5.0", "Lenovo ThinkPad", "Windows 8", "Taiyo"));
  }

  lemma ParsesThinkPadClasses()
    ensures IsRunWithout("Lenovo ThinkPad", ',') && IsRunWithout("Windows 8", ',') && IsRunWithout("Taiyo", ')')
  {
  }

  lemma ParsesThinkPadNames()
    ensures IsAppName("SC Windows") && IsVersionName("2.5.0")
  {
  }

  /** `ISM Flutter/3.0.0 (Samsung Galaxy S10, Android 10, Sugi)`: a three-word device model. */
  lemma ParsesGalaxy()
    ensures ParseUserAgent("ISM Flutter" + "/" + "3.0.0" + " (" + "Samsung Galaxy S10" + ", " + "Android 10" + ", " + "Sugi" + ")")
         == Ok(UserAgent("ISM Flutter", "3.0.0", "Samsung Galaxy S10", "Android 10", "Sugi"))
  {
    ParsesGalaxyClasses();
    ParsesGalaxyNames();
    Accepted("ISM Flutter" + "/" + "3.0.0" + " (" + "Samsung Galaxy S10" + ", " + "Android 10" + ", " + "Sugi" + ")",
      UserAgent("ISM Flutter", "3.0.0", "Samsung Galaxy S10", "Android 10", "Sugi"));
  }

  lemma ParsesGalaxyClasses()
    ensures IsRunWithout("Samsung Galaxy S10", ',') && IsRunWithout("Android 10", ',') && IsRunWithout("Sugi", ')')
  {
  }

  lemma ParsesGalaxyNames()
    ensures IsAppName("ISM Flutter") && IsVersionName("3.0.0")
  {
  }

  /** `SCT/2.2.2 (Google Pixel, Android 11, TRIAL)`: Android 11. */
  lemma ParsesPixel()
    ensures ParseUserAgent("SCT" + "/" + "2.2.2" + " (" + "Google Pixel" + ", " + "Android 11" + ", " + "TRIAL" + ")")
         == Ok(UserAgent("SCT", "2.2.2", "Google Pixel", "Android 11", "TRIAL"))
  {
    ParsesPixelClasses();
    ParsesPixelNames();
    Accepted("SCT" + "/" + "2.2.2" + " (" + "Google Pixel" + ", " + "Android 11" + ", " + "TRIAL" + ")",
      UserAgent("SCT", "2.2.2", "Google Pixel", "Android 11", "TRIAL"));
  }

  lemma ParsesPixelClasses()
    ensures IsRunWithout("Google Pixel", ',') && IsRunWithout("Android 11", ',') && IsRunWithout("TRIAL", ')')
  {
  }

  lemma ParsesPixelNames()
    ensures IsAppName("SCT") && IsVersionName("2.2.2")
  {
  }

  /** `App/1.0.0.0 (Device, OS 1, Retailer)`: the version is any run of digits and dots: four groups pass. */
  lemma ParsesFourGroups()
    ensures ParseUserAgent("App" + "/" + "1.0.0.0" + " (" + "Device" + ", " + "OS 1" + ", " + "Retailer" + ")")
         == Ok(UserAgent("App", "1.0.0.0", "Device", "OS 1", "Retailer"))
  {
    ParsesFourGroupsClasses();
    ParsesFourGroupsNames();
    Accepted("App" + "/" + "1.0.0.0" + " (" + "Device" + ", " + "OS 1" + ", " + "Retailer" + ")",
      UserAgent("App", "1.0.0.0", "Device", "OS 1", "Retailer"));
  }

  lemma ParsesFourGroupsClasses()
    ensures IsRunWithout("Device", ',') && IsRunWithout("OS 1", ',') && IsRunWithout("Retailer", ')')
  {
  }

  lemma ParsesFourGroupsNames()
    ensures IsAppName("App") && IsVersionName("1.0.0.0")
  {
  }

  /** `App/. (Device, OS 1, Retailer)`: a lone dot is a version here. */
  lemma ParsesDotVersion()
    ensures ParseUserAgent("App" + "/" + "." + " (" + "Device" + ", " + "OS 1" + ", " + "Retailer" + ")")
         == Ok(UserAgent("App", ".", "Device", "OS 1", "Retailer"))
  {
    ParsesDotVersionClasses();
    ParsesDotVersionNames();
    Accepted("App" + "/" + "." + " (" + "Device" + ", " + "OS 1" + ", " + "Retailer" + ")",
      UserAgent("App", ".", "Device", "OS 1", "Retailer"));
  }

  lemma ParsesDotVersionClasses()
    ensures IsRunWithout("Device", ',') && IsRunWithout("OS 1", ',') && IsRunWithout("Retailer", ')')
  {
  }

  lemma ParsesDotVersionNames()
    ensures IsAppName("App") && IsVersionName(".")
  {
  }

  /** `App/1.0.0 (Device, OS1, Retailer)`: the OS field is not split, so it needs no space. */
  lemma ParsesOsWithoutSpace()
    ensures ParseUserAgent("App" + "/" + "1.0.0" + " (" + "Device" + ", " + "OS1" + ", " + "Retailer" + ")")
         == Ok(UserAgent("App", "1.0.0", "Device", "OS1", "Retailer"))
  {
    ParsesOsWithoutSpaceClasses();
    ParsesOsWithoutSpaceNames();
    Accepted("App" + "/" + "1.0.0" + " (" + "Device" + ", " + "OS1" + ", " + "Retailer" + ")",
      UserAgent("App", "1.0.0", "Device", "OS1", "Retailer"));
  }

  lemma ParsesOsWithoutSpaceClasses()
    ensures IsRunWithout("Device", ',') && IsRunWithout("OS1", ',') && IsRunWithout("Retailer", ')')
  {
  }

  lemma ParsesOsWithoutSpaceNames()
    ensures IsAppName("App") && IsVersionName("1.0.0")
  {
  }

  /** `ism-flutter/1.3.0 (ESYP-10142789, Windows 10, trial)`: a hyphen is outside `[\w\s.]`, so `ism-flutter` is rejected here though the root variants take it. */
  lemma RejectsHyphenatedApp()
    ensures ParseUserAgent("ism-flutter" + "/" + "1.3.0" + " (" + "ESYP-10142789" + ", " + "Windows 10" + ", " + "trial" + ")")
         == Err(NoMatch("ism-flutter" + "/" + "1.3.0" + " (" + "ESYP-10142789" + ", " + "Windows 10" + ", " + "trial" + ")"))
  {
    RejectsHyphenatedAppClasses();
    RejectsHyphenatedAppWitness();
    Rejected("ism-flutter" + "/" + "1.3.0" + " (" + "ESYP-10142789" + ", " + "Windows 10" + ", " + "trial" + ")",
      UserAgent("ism-flutter", "1.3.0", "ESYP-10142789", "Windows 10", "trial"));
  }

  lemma RejectsHyphenatedAppClasses()
    ensures Delimited(CapturesOf(UserAgent("ism-flutter", "1.3.0", "ESYP-10142789", "Windows 10", "trial")))
  {
  }

  lemma RejectsHyphenatedAppWitness()
    ensures !IsAppName("ism-flutter")
  {
    assert "ism-flutter"[3] == '-';
  }

  /** `App/notNum (Device, OS 1, Retailer)`: a version with letters is rejected. */
  lemma RejectsWordVersion()
    ensures ParseUserAgent("App" + "/" + "notNum" + " (" + "Device" + ", " + "OS 1" + ", " + "Retailer" + ")")
         == Err(NoMatch("App" + "/" + "notNum" + " (" + "Device" + ", " + "OS 1" + ", " + "Retailer" + ")"))
  {
    RejectsWordVersionClasses();
    RejectsWordVersionWitness();
    Rejected("App" + "/" + "notNum" + " (" + "Device" + ", " + "OS 1" + ", " + "Retailer" + ")",
      UserAgent("App", "notNum", "Device", "OS 1", "Retailer"));
  }

  lemma RejectsWordVersionClasses()
    ensures Delimited(CapturesOf(UserAgent("App", "notNum", "Device", "OS 1", "Retailer")))
  {
  }

  lemma RejectsWordVersionWitness()
    ensures !IsVersionName("notNum")
  {
    assert !IsDigit("notNum"[0]);
  }

  /** The empty text is no match. */
  lemma RejectsEmpty()
    ensures ParseUserAgent("") == Err(NoMatch(""))
  {
  }
}
