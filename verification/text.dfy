/** Strings as sequences of characters, the ASCII character classes that Go's
    RE2 syntax gives `\d`, `\w` and `\s`, the runs the user-agent grammars are
    built from, and a model of `strings.Split` with a single-character
    separator. */
module Text {

  type String = seq<char>

  /** `\d`: ASCII digits only. */
  predicate IsDigit(c: char) { '0' <= c <= '9' }

  /** `[a-zA-Z]` */
  predicate IsLetter(c: char) { 'a' <= c <= 'z' || 'A' <= c <= 'Z' }

  /** `\w`: `[0-9A-Za-z_]`, ASCII only. */
  predicate IsWordChar(c: char) { IsDigit(c) || IsLetter(c) || c == '_' }

  /** `\s`: `[\t\n\f\r ]` (RE2 leaves out the vertical tab). */
  predicate IsSpace(c: char) {
    c == '\t' || c == '\n' || c == '\U{000C}' || c == '\r' || c == ' '
  }

  /** `\d+` */
  predicate IsDigits(s: String) {
    |s| > 0 && forall i :: 0 <= i < |s| ==> IsDigit(s[i])
  }

  /** `[a-zA-Z]+` */
  predicate IsLetters(s: String) {
    |s| > 0 && forall i :: 0 <= i < |s| ==> IsLetter(s[i])
  }

  /** `[^c]+`: a non-empty run of anything but `c` (newline included). */
  predicate IsRunWithout(s: String, c: char) {
    |s| > 0 && c !in s
  }

  /** Position of the first `c` in `s`, or `|s|` when there is none. */
  function IndexOf(s: String, c: char): (k: nat)
    ensures k <= |s|
    ensures c !in s[..k]
    ensures k < |s| ==> s[k] == c
  {
    if |s| == 0 || s[0] == c then 0 else 1 + IndexOf(s[1..], c)
  }

  /** The three properties of IndexOf determine it. */
  lemma IndexOfIs(s: String, c: char, k: nat)
    requires k <= |s| && c !in s[..k]
    requires k < |s| ==> s[k] == c
    ensures IndexOf(s, c) == k
  {
  }

  /** In `f + t`, where `f` has no `c` and `t` starts with it, the first `c`
      is the one right after `f`. */
  lemma IndexOfAfter(f: String, t: String, c: char)
    requires c !in f && |t| > 0 && t[0] == c
    ensures IndexOf(f + t, c) == |f|
  {
    assert (f + t)[..|f|] == f;
    IndexOfIs(f + t, c, |f|);
  }

  /** `strings.Join` with a one-character separator. */
  function Join(parts: seq<String>, sep: char): String
  {
    if |parts| == 0 then []
    else if |parts| == 1 then parts[0]
    else parts[0] + [sep] + Join(parts[1..], sep)
  }

  /** `strings.Split(s, sep)` for a one-character `sep`: the pieces between
      separators, so there is always at least one piece and an empty input
      gives one empty piece. */
  function Split(s: String, sep: char): (parts: seq<String>)
    ensures |parts| >= 1
    ensures forall i :: 0 <= i < |parts| ==> sep !in parts[i]
    ensures Join(parts, sep) == s
    decreases |s|
  {
    var k := IndexOf(s, sep);
    if k == |s| then
      assert s[..k] == s;
      [s]
    else
      var rest := Split(s[k + 1..], sep);
      assert s == s[..k] + [sep] + s[k + 1..];
      assert ([s[..k]] + rest)[1..] == rest;
      [s[..k]] + rest
  }

  /** Splitting a join of separator-free pieces gives the pieces back. */
  lemma {:induction false} SplitJoin(parts: seq<String>, sep: char)
    requires |parts| >= 1
    requires forall i :: 0 <= i < |parts| ==> sep !in parts[i]
    ensures Split(Join(parts, sep), sep) == parts
    decreases |parts|
  {
    if |parts| == 1 {
      assert Join(parts, sep)[..|parts[0]|] == parts[0];
      IndexOfIs(Join(parts, sep), sep, |parts[0]|);
    } else {
      var s := Join(parts, sep);
      var tail := Join(parts[1..], sep);
      var k := |parts[0]|;
      assert s == parts[0] + ([sep] + tail);
      IndexOfAfter(parts[0], [sep] + tail, sep);
      assert s[..k] == parts[0];
      assert s[k + 1..] == tail;
      assert Split(s, sep) == [parts[0]] + Split(tail, sep);
      SplitJoin(parts[1..], sep);
      assert parts == [parts[0]] + parts[1..];
    }
  }

  /** The first two pieces of `name + " " + version + tail`, where neither
      `name` nor `version` holds a space and `tail` is empty or starts at the
      next space, are `name` and `version`. */
  lemma SplitFirstTwo(name: String, version: String, tail: String)
    requires ' ' !in name && ' ' !in version
    requires tail == [] || tail[0] == ' '
    ensures var parts := Split(name + " " + version + tail, ' ');
            |parts| >= 2 && parts[0] == name && parts[1] == version
  {
    var s := name + " " + version + tail;
    assert s == name + ([' '] + version + tail);
    IndexOfAfter(name, [' '] + version + tail, ' ');
    assert s[..|name|] == name;
    var rest := s[|name| + 1..];
    assert rest == version + tail;
    if tail == [] {
      assert rest[..|version|] == version;
      IndexOfIs(rest, ' ', |version|);
    } else {
      IndexOfAfter(version, tail, ' ');
      assert rest[..|version|] == version;
    }
  }

  /** A join of two or more pieces starts with the first two pieces around
      a separator; the rest, if any, starts with the next separator. */
  lemma JoinFirstTwo(parts: seq<String>, sep: char)
    requires |parts| >= 2
    ensures Join(parts, sep)
            == parts[0] + [sep] + parts[1] + (if |parts| == 2 then [] else [sep] + Join(parts[2..], sep))
  {
    assert parts[1..][1..] == parts[2..];
  }

  /** A text without `sep` is a single piece. */
  lemma SplitWithout(s: String, sep: char)
    requires sep !in s
    ensures Split(s, sep) == [s]
  {
    assert s[..|s|] == s;
    IndexOfIs(s, sep, |s|);
  }

  /** `\d+(?:\.\d+(?:\.\d+)?)?`: one to three digit groups joined by dots. */
  predicate IsDottedVersion(v: String) {
    var groups := Split(v, '.');
    |groups| <= 3 && forall i :: 0 <= i < |groups| ==> IsDigits(groups[i])
  }

  /** The version grammar read forwards: joining one to three digit groups
      with dots gives a dotted version whose groups are exactly those. */
  lemma DottedVersionOfGroups(groups: seq<String>)
    requires 1 <= |groups| <= 3
    requires forall i :: 0 <= i < |groups| ==> IsDigits(groups[i])
    ensures IsDottedVersion(Join(groups, '.'))
    ensures Split(Join(groups, '.'), '.') == groups
  {
    forall i | 0 <= i < |groups|
      ensures '.' !in groups[i]
    {
      DigitsHaveNo(groups[i], '.');
    }
    SplitJoin(groups, '.');
  }

  /** A digit run contains no character outside `\d`. */
  lemma DigitsHaveNo(s: String, c: char)
    requires IsDigits(s) && !IsDigit(c)
    ensures c !in s
  {
  }

  /** A letter run contains no character outside `[a-zA-Z]`. */
  lemma LettersHaveNo(s: String, c: char)
    requires IsLetters(s) && !IsLetter(c)
    ensures c !in s
  {
  }

  /** A character of a join is the separator or a character of some piece. */
  lemma {:induction false} InJoin(parts: seq<String>, sep: char, c: char)
    requires c in Join(parts, sep)
    ensures c == sep || exists i :: 0 <= i < |parts| && c in parts[i]
    decreases |parts|
  {
    if |parts| > 1 {
      var tail := Join(parts[1..], sep);
      assert Join(parts, sep) == parts[0] + [sep] + tail;
      if c != sep && c !in parts[0] {
        assert c in tail;
        InJoin(parts[1..], sep, c);
        var i :| 0 <= i < |parts[1..]| && c in parts[1..][i];
        assert c in parts[i + 1];
      }
    }
  }

  /** Every character of a dotted version is a digit or a dot. */
  lemma DottedVersionChars(v: String, c: char)
    requires IsDottedVersion(v)
    requires c in v
    ensures IsDigit(c) || c == '.'
  {
    var groups := Split(v, '.');
    InJoin(groups, '.', c);
    if c != '.' {
      var i :| 0 <= i < |groups| && c in groups[i];
      var j :| 0 <= j < |groups[i]| && groups[i][j] == c;
      assert IsDigit(groups[i][j]);
    }
  }

  /** A dotted version is never empty and holds no space, so the grammars'
      version capture ends at the first space after it. */
  lemma DottedVersionShape(v: String)
    requires IsDottedVersion(v)
    ensures |v| > 0 && ' ' !in v
  {
    var groups := Split(v, '.');
    if ' ' in v {
      DottedVersionChars(v, ' ');
    }
  }

  /** The version grammar stops at three groups: a fourth is rejected, not
      cut off. */
  lemma TooManyGroupsIsNoVersion(v: String, groups: seq<String>)
    requires |groups| > 3 && forall i :: 0 <= i < |groups| ==> '.' !in groups[i]
    requires v == Join(groups, '.')
    ensures !IsDottedVersion(v)
  {
    SplitJoin(groups, '.');
  }

  /** A dot-separated piece with a character outside `\d` is no version. */
  lemma NonDigitIsNoVersion(v: String, groups: seq<String>, i: nat, j: nat)
    requires |groups| >= 1 && forall i :: 0 <= i < |groups| ==> '.' !in groups[i]
    requires i < |groups| && j < |groups[i]| && !IsDigit(groups[i][j])
    requires v == Join(groups, '.')
    ensures !IsDottedVersion(v)
  {
    SplitJoin(groups, '.');
  }
}
