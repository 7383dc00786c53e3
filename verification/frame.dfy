/** The skeleton every variant's regular expression shares:

      app "/" version " (" device ", " os ", " trailing ")"

    anchored at both ends of the text. Each capture is followed by a
    delimiter it cannot contain: the app name holds no `/`, the version no
    space, the device and OS fields no `,`, and the trailing field no `)`.
    So the text decomposes in at most one way, whatever strategy a regular
    expression engine uses, and a left-to-right scanner that stops at the
    first delimiter finds that decomposition. */
module Frame {
  import opened Text
  import opened Results

  /** The five positional captures, before any variant-specific check. */
  datatype Captures = Captures(app: String, version: String, device: String, os: String, trailing: String)

  /** The text a set of captures spells out, literals included. */
  function Render(c: Captures): String {
    c.app + "/" + c.version + " (" + c.device + ", " + c.os + ", " + c.trailing + ")"
  }

  /** No capture holds the delimiter that ends it. */
  predicate Delimited(c: Captures) {
    '/' !in c.app && ' ' !in c.version && ',' !in c.device && ',' !in c.os && ')' !in c.trailing
  }

  /** Splits `s` at the first occurrence of `lit[0]`, which must start the
      literal `lit`: gives the text before it and the text after `lit`. */
  function Cut(s: String, lit: String): (r: Option<(String, String)>)
    requires |lit| > 0
    ensures r.Some? ==> s == r.value.0 + lit + r.value.1
    ensures r.Some? ==> lit[0] !in r.value.0
  {
    var k := IndexOf(s, lit[0]);
    if k + |lit| <= |s| && s[k..k + |lit|] == lit then
      assert s == s[..k] + s[k..k + |lit|] + s[k + |lit|..];
      Some((s[..k], s[k + |lit|..]))
    else None
  }

  /** Cut finds the field when the field has no `lit[0]`. */
  lemma CutFinds(f: String, lit: String, t: String)
    requires |lit| > 0 && lit[0] !in f
    ensures Cut(f + lit + t, lit) == Some((f, t))
  {
    var s := f + lit + t;
    assert s == f + (lit + t);
    IndexOfAfter(f, lit + t, lit[0]);
    assert s[|f|..|f| + |lit|] == lit;
    assert s[..|f|] == f;
    assert s[|f| + |lit|..] == t;
  }

  /** Cut fails when the first `lit[0]` does not start a whole `lit`. */
  lemma CutMisses(f: String, lit: String, t: String)
    requires |lit| > 0 && lit[0] !in f
    requires |t| > 0 && t[0] == lit[0]
    requires |t| < |lit| || t[..|lit|] != lit
    ensures Cut(f + t, lit) == None
  {
    IndexOfAfter(f, t, lit[0]);
    if |f| + |lit| <= |f + t| {
      assert (f + t)[|f|..|f| + |lit|] == t[..|lit|];
    }
  }

  /** The trailing capture: all of `s` but a final `)`, which must be the
      only `)` in `s`. */
  function Closing(s: String): (r: Option<String>)
    ensures r.Some? ==> s == r.value + ")" && ')' !in r.value
  {
    if |s| > 0 && s[|s| - 1] == ')' && ')' !in s[..|s| - 1] then
      assert s == s[..|s| - 1] + ")";
      Some(s[..|s| - 1])
    else None
  }

  /** The scanner: one pass from left to right, each capture ending at the
      first delimiter after it. */
  function Scan(s: String): (r: Option<Captures>)
    ensures r.Some? ==> Delimited(r.value) && Render(r.value) == s
  {
    var (app, afterApp) :- Cut(s, "/");
    var (version, afterVersion) :- Cut(afterApp, " (");
    var (device, afterDevice) :- Cut(afterVersion, ", ");
    var (os, afterOs) :- Cut(afterDevice, ", ");
    var trailing :- Closing(afterOs);
    var c := Captures(app, version, device, os, trailing);
    RenderNested(c);
    Some(c)
  }

  /** Render, written from the right, as the scanner takes it apart. */
  lemma RenderNested(c: Captures)
    ensures Render(c) == c.app + "/" + (c.version + " (" + (c.device + ", " + (c.os + ", " + (c.trailing + ")"))))
  {
  }

  /** Completeness of the scanner: whenever the text is the rendering of
      delimited captures, the scanner finds exactly those captures. */
  lemma ScanFinds(c: Captures)
    requires Delimited(c)
    ensures Scan(Render(c)) == Some(c)
  {
    var afterOs := c.trailing + ")";
    var afterDevice := c.os + ", " + afterOs;
    var afterVersion := c.device + ", " + afterDevice;
    var afterApp := c.version + " (" + afterVersion;
    assert Render(c) == c.app + "/" + afterApp;
    CutFinds(c.app, "/", afterApp);
    CutFinds(c.version, " (", afterVersion);
    CutFinds(c.device, ", ", afterDevice);
    CutFinds(c.os, ", ", afterOs);
    assert afterOs[..|afterOs| - 1] == c.trailing;
  }

  /** The decomposition is unique: two sets of delimited captures that
      spell the same text are the same captures. */
  lemma CapturesUnique(c1: Captures, c2: Captures)
    requires Delimited(c1) && Delimited(c2)
    requires Render(c1) == Render(c2)
    ensures c1 == c2
  {
    ScanFinds(c1);
    ScanFinds(c2);
  }

  /** The scanner fails exactly on texts that are no rendering of delimited
      captures. */
  lemma ScanFailsIff(s: String)
    ensures Scan(s).None? <==> forall c :: Delimited(c) ==> Render(c) != s
  {
    if Scan(s).None? {
      forall c | Delimited(c)
        ensures Render(c) != s
      {
        ScanFinds(c);
      }
    }
  }

  /** The pattern is anchored at the end: no text may follow the closing
      parenthesis, not even a second `)` or a newline. */
  lemma ScanRejectsSuffix(c: Captures, extra: String)
    requires Delimited(c) && |extra| > 0
    ensures Scan(Render(c) + extra) == None
  {
    var afterOs := c.trailing + ")" + extra;
    var afterDevice := c.os + ", " + afterOs;
    var afterVersion := c.device + ", " + afterDevice;
    var afterApp := c.version + " (" + afterVersion;
    RenderNested(c);
    assert Render(c) + extra == c.app + "/" + afterApp;
    CutFinds(c.app, "/", afterApp);
    CutFinds(c.version, " (", afterVersion);
    CutFinds(c.device, ", ", afterDevice);
    CutFinds(c.os, ", ", afterOs);
    ClosingRejectsSuffix(c.trailing, extra);
  }

  lemma ClosingRejectsSuffix(t: String, extra: String)
    requires |extra| > 0
    ensures Closing(t + ")" + extra) == None
  {
    var s := t + ")" + extra;
    assert s[..|s| - 1][|t|] == ')';
  }

  /** The device field ends at its first comma, which must be followed by
      a space: a device model holding `,,` can never be read. */
  lemma ScanRejectsDeviceComma(app: String, version: String, device: String, rest: String)
    requires '/' !in app && ' ' !in version && ',' !in device
    requires |rest| >= 2 && rest[0] == ',' && rest[1] != ' '
    ensures Scan(app + "/" + version + " (" + device + rest) == None
  {
    var s := app + "/" + version + " (" + device + rest;
    var afterVersion := device + rest;
    var afterApp := version + " (" + afterVersion;
    assert s == app + "/" + afterApp;
    CutFinds(app, "/", afterApp);
    CutFinds(version, " (", afterVersion);
    CutMisses(device, ", ", rest);
    ScanStopsAtDevice(s, app, afterApp, version, afterVersion);
  }

  lemma ScanStopsAtDevice(s: String, app: String, afterApp: String, version: String, afterVersion: String)
    requires Cut(s, "/") == Some((app, afterApp))
    requires Cut(afterApp, " (") == Some((version, afterVersion))
    requires Cut(afterVersion, ", ") == None
    ensures Scan(s) == None
  {
  }
}
