# xua-parser in Dafny

A model of the three user-agent parsers of `xua-parser`. Each one reads an
application user agent of the form

    AppName/Version (DeviceModel, OS, Retailer)

with an anchored regular expression and returns either a record or an error.

- `ua.go` (package `xua_parser`). `Parse` matches five captures. It splits the
  OS capture at every single space and keeps the first two pieces as OS name
  and OS version. It accepts only when the OS version passes
  `strconv.Atoi`. It has three errors: no match, an OS detail without a
  space, and an OS version that is not a number.
- `useragent.go` (root package `useragent`). `Parse` matches six captures, the
  OS part being `[a-zA-Z]+ \d+`. Its only error is no match.
- `useragent/useragent.go`. `ParseUserAgent` uses a different app-name class
  (`[\w\s\.]+`) and a looser version (`[\d\.]+`). It keeps the OS field
  whole. `FormatUserAgent` is its inverse.

All three patterns share one skeleton. Each field is followed by a delimiter
it cannot contain, so a text splits into at most one set of captures.
`Frame` models the skeleton with a left-to-right scanner and proves that
the scanner finds exactly the captures the pattern would. The question of
which match an RE2 engine picks therefore never arises. Each variant is a
class check on top of the scanner:

- `XuaParser` models `ua.go`;
- `RaiUserAgent` models `useragent.go`;
- `XUserAgent` models `useragent/useragent.go`.

Each module proves that its parser is sound and complete with respect to a
declarative reading of its pattern. Each module also characterises every
error exactly. `Variants` proves where the three variants agree.

The library modules are:

- `Text`: the ASCII classes of RE2 (`\d`, `\w`, `\s`), `strings.Split` with a
  one-character separator, and the one-to-three-group version grammar.
- `Strconv`: `strconv.Atoi`, with `int` fixed at 64 bits.
- `Results`: the `Option` and `Result` types and the error kinds.

The example modules state the test tables of the three `_test.go` files as
lemmas, together with edge cases the code decides:

- `XuaParserExamples`;
- `RaiUserAgentExamples`;
- `XUserAgentExamples`.

Each example input is written as the concatenation of its fields, for
example `"a" + "/" + "1" + " (" + ...`. The doc comment above each lemma shows
the text that concatenation spells. `SampleFacts` holds the version and Atoi
facts that the examples cite.

Go's `(*UserAgent, error)` pair becomes `Result<UserAgent>`. A failed parse
carries the kind of error and the text the Go message quotes. The message
wording is not modelled.

Where the two root variants differ, the model follows the code:

- `ua.go` does not check that the OS name is made of letters. Any first
  piece is accepted, even an empty one or a number.
- Atoi takes a sign and has a range. So `+1` is an OS version for `ua.go` but
  not for `useragent.go`, and a twenty-digit OS version is one for
  `useragent.go` but not for `ua.go`.
- `ua.go` drops anything after the second piece of the OS detail;
  `useragent.go` rejects it.

The comment on `uaRegex` in `useragent.go` (useragent.go:25) describes the
OS name as one or more letters. The comment in `ua.go` (ua.go:27) only asks
for an OS name and version separated by a space, and the code never checks
the name. `Variants.RaiToXua` and `Variants.XuaToRai` state exactly when the
two root parsers agree.

## Model

| member | source | states |
|---|---|---|
| Text.Split | ua.go:41 | the pieces of `strings.Split` with a one-character separator: at least one piece, none holding the separator, and joining them with it gives the input back |
| Text.SplitJoin | ua.go:41 | splitting a join of separator-free pieces gives exactly those pieces back |
| Text.SplitFirstTwo | ua.go:41-46 | for an OS detail `name version tail` with no space in name or version and a tail empty or starting with a space, the split has at least two pieces and they are the name and the version |
| Text.SplitWithout | ua.go:41-44 | a text without the separator splits into one piece, itself |
| Text.DottedVersionOfGroups | ua.go:25-30 | one to three digit groups joined by dots form a version of `uaRegex`, and its groups are those groups |
| Text.TooManyGroupsIsNoVersion | ua.go:25-30 | four or more dot-separated groups are never a version: the pattern stops at three |
| Text.NonDigitIsNoVersion | ua.go:25-30 | a dot-separated group holding a non-digit makes the text no version |
| Text.DottedVersionChars | ua.go:30 | every character of a version is a digit or a dot |
| Text.DottedVersionShape | ua.go:30 | a version is non-empty and holds no space, so it ends where ` (` begins |
| Text.InJoin | ua.go:30 | every character of a join is the separator or a character of one of the pieces |
| Strconv.Atoi | ua.go:47-50 | a number is returned only for an optional sign followed by one or more ASCII digits, and only within the 64-bit `int` range |
| Strconv.AtoiShort | ua.go:47-50 | up to eighteen digits, unsigned or after `+` or `-`, always pass, with their signed decimal value |
| Strconv.AtoiDigits | ua.go:47-50 | an unsigned run of up to eighteen digits passes with its decimal value |
| Strconv.AtoiTooLong | ua.go:47-50 | twenty or more digits without a leading zero fail the range check |
| Strconv.DigitsValueBound | ua.go:47-50 | n digits are worth less than 10^n, the upper half of the range argument |
| Strconv.DigitsValueLower | ua.go:47-50 | n digits without a leading zero are worth at least 10^(n-1), the lower half of the range argument |
| Frame.Cut | ua.go:30 | a capture that ends at the first occurrence of its delimiter: the text is the field, the literal and the rest, and the field holds no delimiter |
| Frame.CutFinds | ua.go:30 | a field without the delimiter, followed by the literal, is cut exactly there |
| Frame.CutMisses | ua.go:30 | when the first delimiter does not begin the whole literal (`,,` where `, ` is needed) the cut fails |
| Frame.Closing | ua.go:30 | `([^\)]+)\)$`: the trailing capture is all but a final `)`, and holds no `)` |
| Frame.Scan | ua.go:30 | whatever the scanner returns are delimited captures whose rendering is the input |
| Frame.ScanFinds | ua.go:30 | for every set of delimited captures, scanning their rendering returns exactly them |
| Frame.CapturesUnique | ua.go:30 | two sets of delimited captures that spell the same text are equal, so the regex engine has only one match to find |
| Frame.ScanFailsIff | ua.go:30 | the scanner fails exactly on texts that are the rendering of no delimited captures |
| Frame.ScanRejectsSuffix | ua.go:30 | `$` anchors at the end of the text: anything after the closing `)` is rejected |
| Frame.ScanRejectsDeviceComma | ua.go:30 | a device field followed by a comma that is not `, ` can never be read |
| XuaParser.MatchIsDelimited | ua.go:30 | captures in the classes of `uaRegex` hold none of their delimiters |
| XuaParser.FindSubmatch | ua.go:34-38 | a match found is a full match of `uaRegex` with those captures |
| XuaParser.FindSubmatchFinds | ua.go:34-38 | whenever `uaRegex` matches with some captures, the submatch reports exactly those captures |
| XuaParser.RegexMatchUnique | ua.go:30 | `uaRegex` matches a text with at most one set of captures |
| XuaParser.Parse | ua.go:33-60 | a returned record has an app name without `/`, a one-to-three group version, a device model without `,`, an OS name and version without space or comma, an OS version Atoi accepts and an `Others` without `)`; a no-match error quotes the input |
| XuaParser.ParseSound | ua.go:33-60 | every record returned is accepted by the grammar with some discarded OS-detail tail |
| XuaParser.ParseComplete | ua.go:33-60 | every text the grammar accepts with a record parses to exactly that record |
| XuaParser.AcceptsUnique | ua.go:33-60 | the grammar determines both the record and the discarded part of the OS detail |
| XuaParser.NoMatchIff | ua.go:34-38 | the "failed to parse ua" error is returned exactly when `uaRegex` matches the text with no captures at all |
| XuaParser.MissingOsVersionIff | ua.go:40-44 | when `uaRegex` matches, the missing-OS-version error quoting the OS detail is returned exactly when the detail holds no space |
| XuaParser.OsVersionNotNumberIff | ua.go:45-59 | when `uaRegex` matches and the detail has a second piece, the not-a-number error quoting it is returned exactly when Atoi rejects it, and a record exactly when Atoi accepts it |
| RaiUserAgent.Parse | useragent.go:32-48 | a returned record is the reading of the input by `uaRegex`, all six fields non-empty; every error quotes the input |
| RaiUserAgent.MatchIsDelimited | useragent.go:29 | the six capture classes keep every field of the skeleton clear of its delimiter |
| RaiUserAgent.ParseComplete | useragent.go:29-48 | every text `uaRegex` matches with some fields parses to exactly those fields |
| RaiUserAgent.RegexMatchUnique | useragent.go:29 | `uaRegex` reads a text in at most one way |
| RaiUserAgent.ParseFailsIff | useragent.go:34-38 | parsing fails exactly when no record is a reading of the text |
| XUserAgent.ParseUserAgent | useragent/useragent.go:19-35 | a returned record is well formed and formats back to the input; every error quotes the input |
| XUserAgent.FormatUserAgent | useragent/useragent.go:37-40 | the `Sprintf("%s/%s (%s, %s, %s)")` layout; whenever no field holds the delimiter that ends it, the scanner takes the text apart into exactly those five fields. Its round trips with parsing are stated by `ParseUserAgent` (a parsed record formats back to the input) and `ParseAfterFormat` |
| XUserAgent.FormatIsRender | useragent/useragent.go:37-40 | the format string spells the same skeleton the pattern matches |
| XUserAgent.WellFormedIsDelimited | useragent/useragent.go:21 | the capture classes keep each field clear of its delimiter |
| XUserAgent.ParseAfterFormat | useragent/useragent.go:19-40 | parsing a formatted record gives it back exactly when the record is well formed |
| XUserAgent.ParseSucceedsIff | useragent/useragent.go:19-35 | parsing succeeds exactly on the formatted texts of well-formed records |
| XUserAgent.FormatInjective | useragent/useragent.go:37-40 | no two well-formed records format to the same text |
| Variants.RaiToXua | ua.go:30-59 | a record `useragent.go` returns, whose OS version Atoi accepts, is returned by `ua.go` too, field for field |
| Variants.XuaToRai | useragent.go:29-48 | a text `ua.go` accepts with nothing after the OS version, a letters-only OS name and a digits-only OS version is accepted by `useragent.go` with the same fields |
| Variants.RaiToX | useragent/useragent.go:19-35 | a record `useragent.go` returns, whose app name is in `[\w\s.]`, is returned by the sub-package with the OS name and version joined by a space |
| Variants.XuaMatchToX | useragent/useragent.go:19-35 | whenever `uaRegex` of `ua.go` matches with an app name in `[\w\s.]`, the sub-package accepts the text with the OS detail whole, even where `ua.go` rejects its OS version |
| Variants.DottedVersionIsVersionName | useragent/useragent.go:21 | every version of the root patterns is also in `[\d\.]+` |
| XuaParserExamples.ParsesAndroid | ua_test.go:19-31 | the table row parses to the record it lists |
| XuaParserExamples.ParsesSpacedNames | ua_test.go:32-44 | the table row parses to the record it lists |
| XuaParserExamples.ParsesWindowsApp | ua_test.go:45-57 | the table row parses to the record it lists |
| XuaParserExamples.ParsesAndroid9 | ua_test.go:58-70 | the table row parses to the record it lists |
| XuaParserExamples.ParsesPlainApp | ua_test.go:71-83 | the table row parses to the record it lists |
| XuaParserExamples.ParsesAndroid8 | ua_test.go:84-96 | the table row parses to the record it lists |
| XuaParserExamples.ParsesAndroid11 | ua_test.go:97-109 | the table row parses to the record it lists |
| XuaParserExamples.ParsesOneGroupVersion | ua_test.go:110-122 | the table row parses to the record it lists |
| XuaParserExamples.ParsesLongOsDetail | ua_test.go:123-134 | the table row parses to the record it lists, the OS detail after the version dropped |
| XuaParserExamples.ParsesMinimum | ua_test.go:135-147 | the table row parses to the record it lists |
| XuaParserExamples.ParsesEmptyOsName | ua.go:41-46 | an OS detail starting with a space gives an empty OS name, which is not checked |
| XuaParserExamples.ParsesDigitOsName | ua.go:41-46 | an OS name of digits is accepted: the name is not checked |
| XuaParserExamples.ParsesSignedOsVersion | ua.go:47-50 | `+1` passes Atoi and is kept as the OS version, sign included |
| XuaParserExamples.ParsesCommaInOthers | ua.go:30 | the last field may hold commas |
| XuaParserExamples.RejectsEmpty | ua_test.go:148-153 | the table row is rejected with the no-match error quoting the input |
| XuaParserExamples.RejectsDoubleSlash | ua_test.go:154-159 | the table row is rejected with the no-match error quoting the input |
| XuaParserExamples.RejectsWordVersion | ua_test.go:160-165 | the table row is rejected with the no-match error quoting the input |
| XuaParserExamples.RejectsFourGroups | ua_test.go:166-171 | the table row is rejected with the no-match error quoting the input |
| XuaParserExamples.RejectsCommaInDevice | ua_test.go:172-177 | the table row is rejected with the no-match error quoting the input |
| XuaParserExamples.RejectsNoOsSpace | ua_test.go:178-183 | the table row is rejected with the missing-OS-version error quoting `OS1` |
| XuaParserExamples.RejectsWordOsVersion | ua_test.go:184-189 | the table row is rejected with the not-a-number error quoting `hoge` |
| XuaParserExamples.RejectsExtraParen | ua_test.go:190-195 | the table row is rejected with the no-match error |
| XuaParserExamples.RejectsDoubleSpace | ua.go:41-50 | a double space leaves an empty second piece, rejected as not a number |
| XuaParserExamples.RejectsHugeOsVersion | ua.go:47-50 | a twenty-digit OS version fails the range check and is rejected as not a number |
| XuaParserExamples.RejectsFinalNewline | ua.go:30 | a final newline is rejected: `$` is the end of the text |
| RaiUserAgentExamples.ParsesRaicart | useragent_test.go:19-31 | the table row parses to the record it lists |
| RaiUserAgentExamples.ParsesSct | useragent_test.go:32-44 | the table row parses to the record it lists |
| RaiUserAgentExamples.ParsesIsmFlutter | useragent_test.go:45-57 | the table row parses to the record it lists |
| RaiUserAgentExamples.ParsesScWindows | useragent_test.go:58-70 | the table row parses to the record it lists |
| RaiUserAgentExamples.ParsesAndroid9 | useragent_test.go:71-83 | the table row parses to the record it lists |
| RaiUserAgentExamples.ParsesDellXps | useragent_test.go:84-96 | the table row parses to the record it lists |
| RaiUserAgentExamples.ParsesSctFlutter | useragent_test.go:97-109 | the table row parses to the record it lists |
| RaiUserAgentExamples.ParsesThinkPad | useragent_test.go:110-122 | the table row parses to the record it lists |
| RaiUserAgentExamples.ParsesGalaxy | useragent_test.go:123-135 | the table row parses to the record it lists |
| RaiUserAgentExamples.ParsesPixel | useragent_test.go:136-148 | the table row parses to the record it lists |
| RaiUserAgentExamples.ParsesHyphenatedApp | useragent_test.go:149-161 | the table row parses to the record it lists |
| RaiUserAgentExamples.ParsesOneGroupVersion | useragent_test.go:162-174 | the table row parses to the record it lists |
| RaiUserAgentExamples.ParsesMinimum | useragent_test.go:175-187 | the table row parses to the record it lists |
| RaiUserAgentExamples.ParsesLeadingZeros | useragent.go:29 | an OS version with leading zeros is kept as written |
| RaiUserAgentExamples.ParsesHugeOsVersion | useragent.go:29 | a twenty-digit OS version is accepted: the digits class has no range |
| RaiUserAgentExamples.RejectsEmpty | useragent_test.go:188-193 | the table row is rejected with the no-match error quoting the input |
| RaiUserAgentExamples.RejectsDoubleSlash | useragent_test.go:194-199 | the table row is rejected with the no-match error quoting the input |
| RaiUserAgentExamples.RejectsWordVersion | useragent_test.go:200-205 | the table row is rejected with the no-match error quoting the input |
| RaiUserAgentExamples.RejectsFourGroups | useragent_test.go:206-211 | the table row is rejected with the no-match error quoting the input |
| RaiUserAgentExamples.RejectsCommaInDevice | useragent_test.go:212-217 | the table row is rejected with the no-match error quoting the input |
| RaiUserAgentExamples.RejectsDigitOsName | useragent_test.go:218-223 | the table row is rejected with the no-match error quoting the input |
| RaiUserAgentExamples.RejectsNoOsSpace | useragent_test.go:224-229 | the table row is rejected with the no-match error quoting the input |
| RaiUserAgentExamples.RejectsWordOsVersion | useragent_test.go:230-235 | the table row is rejected with the no-match error quoting the input |
| RaiUserAgentExamples.RejectsExtraParen | useragent_test.go:236-241 | the table row is rejected with the no-match error quoting the input |
| RaiUserAgentExamples.RejectsOsDetailTail | useragent.go:29 | text after the OS version digits is rejected |
| RaiUserAgentExamples.RejectsSignedOsVersion | useragent.go:29 | a signed OS version is rejected: `\d+` takes no sign |
| RaiUserAgentExamples.RejectsDoubleSpace | useragent.go:29 | exactly one space must separate the OS name and version |
| XUserAgentExamples.ParsesRaicart | useragent/useragent_test.go:14-24 | the table row parses to the record it lists, the OS field whole |
| XUserAgentExamples.ParsesSct | useragent/useragent_test.go:25-35 | the table row parses to the record it lists, the OS field whole |
| XUserAgentExamples.ParsesIsmFlutter | useragent/useragent_test.go:36-46 | the table row parses to the record it lists, the OS field whole |
| XUserAgentExamples.ParsesScWindows | useragent/useragent_test.go:47-57 | the table row parses to the record it lists, the OS field whole |
| XUserAgentExamples.ParsesAndroid9 | useragent/useragent_test.go:58-68 | the table row parses to the record it lists, the OS field whole |
| XUserAgentExamples.ParsesDellXps | useragent/useragent_test.go:69-79 | the table row parses to the record it lists, the OS field whole |
| XUserAgentExamples.ParsesSctFlutter | useragent/useragent_test.go:80-90 | the table row parses to the record it lists, the OS field whole |
| XUserAgentExamples.ParsesThinkPad | useragent/useragent_test.go:91-101 | the table row parses to the record it lists, the OS field whole |
| XUserAgentExamples.ParsesGalaxy | useragent/useragent_test.go:102-112 | the table row parses to the record it lists, the OS field whole |
| XUserAgentExamples.ParsesPixel | useragent/useragent_test.go:113-123 | the table row parses to the record it lists, the OS field whole |
| XUserAgentExamples.ParsesFourGroups | useragent/useragent.go:21 | four version groups are accepted by `[\d\.]+` |
| XUserAgentExamples.ParsesDotVersion | useragent/useragent.go:21 | a lone dot is accepted as a version |
| XUserAgentExamples.ParsesOsWithoutSpace | useragent/useragent.go:21 | an OS field without a space is accepted whole |
| XUserAgentExamples.RejectsHyphenatedApp | useragent/useragent.go:21 | a hyphen in the app name is rejected, unlike the root variants |
| XUserAgentExamples.RejectsWordVersion | useragent/useragent.go:21 | a version with letters is rejected with the no-match error |
| XUserAgentExamples.RejectsEmpty | useragent/useragent.go:21-26 | the empty text is rejected with the no-match error |

## Left out

- The regular-expression engine itself is not modelled. Each pattern is
  modelled as its declarative grammar (`RegexMatches`), and
  `FindStringSubmatch` is modelled as the scanner plus class checks. The
  two are proved to agree (`FindSubmatchFinds`, `ParseComplete`,
  `ScanFailsIff`). The capture-count checks (`len(matches) != 6` and `!= 7`)
  become the `None` case.
- Compiling the patterns is left out. The two root files compile theirs
  once, at package load. `useragent/useragent.go` compiles its pattern on
  every call to `ParseUserAgent`. The patterns are constants and never fail
  to compile, so neither form changes a result.
- Strconv.Atoi: its contract states only the necessary shape of an
  accepted text (an optional sign, then digits) and the range. That every
  signed run of up to eighteen digits is accepted is stated separately,
  by `Strconv.AtoiShort`. `int` is fixed at 64 bits, so a 32-bit platform,
  which would reject OS versions from 2^31 up, is not covered. Atoi's
  error values are not distinguished: any error is `None`.
- Strings are sequences of characters, not UTF-8 bytes. Every class in the
  patterns is ASCII, and the negated classes (`[^/]`, `[^,]`, `[^\)]`)
  accept any other character. Invalid UTF-8 is not modelled.
- The text of the `fmt.Errorf` messages is left out. Only the error kind
  and the quoted text are kept.
- Pointers are left out. A returned `*UserAgent` is a value, and the nil
  pointer on error is the absence of a value in `Err`.
- `main.go` and `example_test.go` are left out: they only print results.
  The Go testing scaffolding (`t.Run`, `cmp.Diff`) is also left out. The table
  rows themselves are stated as lemmas.
- `XUserAgent.FormatUserAgent` does not escape its fields, and the model
  states no guarantee for records that are not well formed. For those,
  `ParseAfterFormat` shows that the parse does not return the record.
