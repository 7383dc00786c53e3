/** Facts about the version strings and OS versions the examples use,
    each proved on its own so that an example can cite it without the
    verifier evaluating a grammar on a whole user agent. */
module SampleFacts {
  import opened Text
  import opened Results
  import opened Strconv

  /** A dotted version given by its digit groups. */
  lemma VersionFrom(v: String, groups: seq<String>)
    requires 1 <= |groups| <= 3 && forall i :: 0 <= i < |groups| ==> IsDigits(groups[i])
    requires v == Join(groups, '.')
    ensures IsDottedVersion(v)
  {
    DottedVersionOfGroups(groups);
  }

  lemma Version011() ensures IsDottedVersion("0.1.1") { VersionFrom("0.1.1", ["0", "1", "1"]); }
  lemma Version1() ensures IsDottedVersion("1") { VersionFrom("1", ["1"]); }
  lemma Version10() ensures IsDottedVersion("10") { VersionFrom("10", ["10"]); }
  lemma Version100() ensures IsDottedVersion("1.0.0") { VersionFrom("1.0.0", ["1", "0", "0"]); }
  lemma Version111() ensures IsDottedVersion("1.1.1") { VersionFrom("1.1.1", ["1", "1", "1"]); }
  lemma Version130() ensures IsDottedVersion("1.3.0") { VersionFrom("1.3.0", ["1", "3", "0"]); }
  lemma Version222() ensures IsDottedVersion("2.2.2") { VersionFrom("2.2.2", ["2", "2", "2"]); }
  lemma Version231() ensures IsDottedVersion("2.3.1") { VersionFrom("2.3.1", ["2", "3", "1"]); }
  lemma Version250() ensures IsDottedVersion("2.5.0") { VersionFrom("2.5.0", ["2", "5", "0"]); }
  lemma Version300() ensures IsDottedVersion("3.0.0") { VersionFrom("3.0.0", ["3", "0", "0"]); }
  lemma Version321() ensures IsDottedVersion("3.2.1") { VersionFrom("3.2.1", ["3", "2", "1"]); }
  lemma Version393() ensures IsDottedVersion("3.9.3") { VersionFrom("3.9.3", ["3", "9", "3"]); }
  lemma Version400() ensures IsDottedVersion("4.0.0") { VersionFrom("4.0.0", ["4", "0", "0"]); }
  lemma Version410() ensures IsDottedVersion("4.1.0") { VersionFrom("4.1.0", ["4", "1", "0"]); }

  lemma NoVersion1000() ensures !IsDottedVersion("1.0.0.0") {
    TooManyGroupsIsNoVersion("1.0.0.0", ["1", "0", "0", "0"]);
  }
  lemma NoVersionSlash() ensures !IsDottedVersion("/1.0.0") {
    NonDigitIsNoVersion("/1.0.0", ["/1", "0", "0"], 0, 0);
  }
  lemma NoVersionWord() ensures !IsDottedVersion("notNum") {
    NonDigitIsNoVersion("notNum", ["notNum"], 0, 0);
  }

  lemma Atoi1() ensures Atoi("1") == Some(1) { AtoiDigits("1"); }
  lemma Atoi10() ensures Atoi("10") == Some(10) { AtoiDigits("10"); }
  lemma Atoi11() ensures Atoi("11") == Some(11) { AtoiDigits("11"); }
  lemma Atoi8() ensures Atoi("8") == Some(8) { AtoiDigits("8"); }
  lemma Atoi9() ensures Atoi("9") == Some(9) { AtoiDigits("9"); }
  lemma AtoiEmpty() ensures Atoi("") == None { }
  lemma AtoiPlus1() ensures Atoi("+1") == Some(1) { AtoiShort("+", "1"); }
  lemma AtoiTwentyDigits() ensures Atoi("10000000000000000000") == None { AtoiTooLong("10000000000000000000"); }
  lemma AtoiWord() ensures Atoi("hoge") == None { assert !IsDigit("hoge"[0]); }
}
