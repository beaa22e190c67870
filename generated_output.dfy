/** The result card of the front end (frontend/components/generated-output.tsx):
    the text it copies and downloads, and the name of the downloaded file. */
module GeneratedOutput {
  import Strings

  /** The data the card shows: the identifying fields and the generated text. */
  datatype Data = Data(
    projectTitle: string, organizationName: string, role: string,
    startDate: string, endDate: string, totalHours: string,
    generatedExperience: string)

  // ---------------------------------------------------------------------
  // The export text
  // ---------------------------------------------------------------------

  /** The text `handleCopy` writes to the clipboard: five labelled lines,
      a blank line, then the generated text. */
  function CopyText(d: Data): string {
    ("Project Title: " + d.projectTitle) + "\n"
      + ("Organization: " + d.organizationName) + "\n"
      + ("Role: " + d.role) + "\n"
      + ("Duration: " + d.startDate + " to " + d.endDate) + "\n"
      + ("Hours Worked: " + d.totalHours) + "\n"
      + "\n"
      + d.generatedExperience
  }

  /** The text `handleDownload` puts in the file; the component writes the
      template out a second time rather than sharing it. */
  function DownloadText(d: Data): string {
    ("Project Title: " + d.projectTitle) + "\n"
      + ("Organization: " + d.organizationName) + "\n"
      + ("Role: " + d.role) + "\n"
      + ("Duration: " + d.startDate + " to " + d.endDate) + "\n"
      + ("Hours Worked: " + d.totalHours) + "\n"
      + "\n"
      + d.generatedExperience
  }

  /** Copying and downloading export the same text. */
  lemma CopyMatchesDownload(d: Data)
    ensures CopyText(d) == DownloadText(d)
  {
  }

  /** The five labelled lines at the head of the export text. */
  function HeaderLines(d: Data): seq<string> {
    ["Project Title: " + d.projectTitle,
     "Organization: " + d.organizationName,
     "Role: " + d.role,
     "Duration: " + d.startDate + " to " + d.endDate,
     "Hours Worked: " + d.totalHours]
  }

  /** The export text opens with the labelled title and closes with a blank
      line followed by the generated text, unchanged. */
  lemma ExportFrame(d: Data)
    ensures Strings.StartsWith(CopyText(d), "Project Title: " + d.projectTitle)
    ensures Strings.EndsWith(CopyText(d), "\n\n" + d.generatedExperience)
  {
    var h := HeaderLines(d);
    var body := h[0] + "\n" + h[1] + "\n" + h[2] + "\n" + h[3] + "\n" + h[4];
    assert CopyText(d) == body + "\n" + "\n" + d.generatedExperience;
    Strings.EndsWithTail(body, "\n", "\n", d.generatedExperience);
    assert "\n" + "\n" == "\n\n";
    assert h[0] <= h[0] + "\n" + h[1] + "\n" + h[2] + "\n" + h[3] + "\n" + h[4] + "\n" + "\n" + d.generatedExperience;
  }

  /** When the identifying fields hold no line break, the lines of the
      export text are the five labelled lines, one empty line, and then the
      lines of the generated text. */
  lemma ExportLines(d: Data)
    requires '\n' !in d.projectTitle && '\n' !in d.organizationName && '\n' !in d.role
    requires '\n' !in d.startDate && '\n' !in d.endDate && '\n' !in d.totalHours
    ensures Strings.Split(CopyText(d), '\n') == HeaderLines(d) + [""] + Strings.Split(d.generatedExperience, '\n')
  {
    var h := HeaderLines(d);
    var x1 := h[0] + "\n" + h[1];
    var x2 := x1 + "\n" + h[2];
    var x3 := x2 + "\n" + h[3];
    var x4 := x3 + "\n" + h[4];
    Strings.SplitWithoutSeparator(h[0], '\n');
    Strings.SplitWithoutSeparator(h[1], '\n');
    Strings.SplitWithoutSeparator(h[2], '\n');
    Strings.SplitWithoutSeparator(h[3], '\n');
    Strings.SplitWithoutSeparator(h[4], '\n');
    Strings.SplitAround(h[0], h[1], '\n');
    Strings.SplitAround(x1, h[2], '\n');
    Strings.SplitAround(x2, h[3], '\n');
    Strings.SplitAround(x3, h[4], '\n');
    assert Strings.Split(x4, '\n') == h;
    Strings.SplitAround(x4, "", '\n');
    assert x4 + "\n" + "" == x4 + "\n";
    Strings.SplitAround(x4 + "\n", d.generatedExperience, '\n');
  }

  // ---------------------------------------------------------------------
  // The download file name
  // ---------------------------------------------------------------------

  /** A character the pattern `\s` matches: the white space and line
      terminators of ECMAScript. */
  predicate IsWhitespace(c: char) {
    || c == '\t' || c == '\n' || c == '\U{000B}' || c == '\U{000C}' || c == '\r'
    || c == ' ' || c == '\U{00A0}' || c == '\U{1680}'
    || ('\U{2000}' <= c <= '\U{200A}')
    || c == '\U{2028}' || c == '\U{2029}' || c == '\U{202F}' || c == '\U{205F}'
    || c == '\U{3000}' || c == '\U{FEFF}'
  }

  predicate WhitespaceFree(s: string) {
    forall i :: 0 <= i < |s| ==> !IsWhitespace(s[i])
  }

  /** Lower-casing of one character, on the ASCII letters. */
  function LowerChar(c: char): char {
    if 'A' <= c <= 'Z' then (c as int + 32) as char else c
  }

  /** `toLowerCase()`, character by character. */
  function Lower(s: string): string {
    seq(|s|, i requires 0 <= i < |s| => LowerChar(s[i]))
  }

  /** The string after its leading run of whitespace. */
  function SkipWhitespace(s: string): (r: string)
    ensures |r| <= |s| && r == s[|s| - |r|..]
    ensures r == [] || !IsWhitespace(r[0])
    ensures forall i :: 0 <= i < |s| - |r| ==> IsWhitespace(s[i])
  {
    if s != [] && IsWhitespace(s[0]) then SkipWhitespace(s[1..]) else s
  }

  /** `replace(/\s+/g, "-")`: scanning left to right, each maximal run of
      whitespace becomes one dash. */
  function Dashify(s: string): string
    decreases |s|
  {
    if s == [] then []
    else if IsWhitespace(s[0]) then "-" + Dashify(SkipWhitespace(s[1..]))
    else [s[0]] + Dashify(s[1..])
  }

  /** The part of the file name taken from the title. */
  function Slug(title: string): string {
    Dashify(Lower(title))
  }

  /** The `download` attribute of the link. */
  function FileName(d: Data): string {
    "pmp-experience-" + Slug(d.projectTitle) + ".txt"
  }

  // ---------------------------------------------------------------------
  // Facts about the slug
  // ---------------------------------------------------------------------

  /** A character-at-a-time reading of the replacement: a whitespace
      character gives a dash when it starts a run and nothing when it
      continues one; any other character is kept. `inRun` says whether the
      previous character was whitespace. */
  function Squeeze(s: string, inRun: bool): string {
    if s == [] then []
    else if IsWhitespace(s[0]) then (if inRun then "" else "-") + Squeeze(s[1..], true)
    else [s[0]] + Squeeze(s[1..], false)
  }

  /** Whether the scan is inside a run after reading `s`. */
  function InRunAfter(s: string, inRun: bool): bool {
    if s == [] then inRun else IsWhitespace(s[|s| - 1])
  }

  lemma {:induction false} SqueezeInRun(s: string)
    ensures Squeeze(s, true) == Squeeze(SkipWhitespace(s), false)
  {
    if s != [] && IsWhitespace(s[0]) {
      SqueezeInRun(s[1..]);
    }
  }

  /** The greedy replacement agrees with the character-at-a-time reading. */
  lemma {:induction false} DashifyIsSqueeze(s: string)
    ensures Dashify(s) == Squeeze(s, false)
    decreases |s|
  {
    if s != [] {
      if IsWhitespace(s[0]) {
        DashifyIsSqueeze(SkipWhitespace(s[1..]));
        SqueezeInRun(s[1..]);
      } else {
        DashifyIsSqueeze(s[1..]);
      }
    }
  }

  /** The reading of a concatenation is the reading of each part, the
      second resumed in the state the first left. */
  lemma {:induction false} SqueezeAppend(a: string, b: string, inRun: bool)
    ensures Squeeze(a + b, inRun) == Squeeze(a, inRun) + Squeeze(b, InRunAfter(a, inRun))
  {
    if a == [] {
      assert a + b == b;
    } else {
      var ab, ws := a + b, IsWhitespace(a[0]);
      assert ab != [] && ab[0] == a[0] && ab[1..] == a[1..] + b;
      var first: string := if ws then (if inRun then "" else "-") else [a[0]];
      SqueezeAppend(a[1..], b, ws);
      assert InRunAfter(a[1..], ws) == InRunAfter(a, inRun) by {
        if a[1..] != [] {
          assert a[1..][|a[1..]| - 1] == a[|a| - 1];
        }
      }
      calc {
        Squeeze(ab, inRun);
        first + Squeeze(a[1..] + b, ws);
        first + (Squeeze(a[1..], ws) + Squeeze(b, InRunAfter(a, inRun)));
        (first + Squeeze(a[1..], ws)) + Squeeze(b, InRunAfter(a, inRun));
        Squeeze(a, inRun) + Squeeze(b, InRunAfter(a, inRun));
      }
    }
  }

  lemma {:induction false} SqueezeRun(ws: string, inRun: bool)
    requires ws != [] && forall i :: 0 <= i < |ws| ==> IsWhitespace(ws[i])
    ensures Squeeze(ws, inRun) == if inRun then "" else "-"
  {
    if |ws| > 1 {
      SqueezeRun(ws[1..], true);
    }
  }

  lemma {:induction false} SqueezeOutOfRun(b: string)
    requires b == [] || !IsWhitespace(b[0])
    ensures Squeeze(b, true) == Squeeze(b, false)
  {
  }

  /** Every maximal run of whitespace becomes exactly one dash: with a run
      `ws` between a part that does not end in whitespace and a part that
      does not start with it, the run contributes a single "-". */
  lemma MaximalRunBecomesOneDash(a: string, ws: string, b: string)
    requires a == [] || !IsWhitespace(a[|a| - 1])
    requires ws != [] && forall i :: 0 <= i < |ws| ==> IsWhitespace(ws[i])
    requires b == [] || !IsWhitespace(b[0])
    ensures Dashify(a + ws + b) == Dashify(a) + "-" + Dashify(b)
  {
    DashifyIsSqueeze(a + ws + b);
    DashifyIsSqueeze(a);
    DashifyIsSqueeze(b);
    SqueezeAppend(a + ws, b, false);
    SqueezeAppend(a, ws, false);
    SqueezeRun(ws, false);
    SqueezeOutOfRun(b);
    assert InRunAfter(a + ws, false) by {
      assert (a + ws)[|a + ws| - 1] == ws[|ws| - 1];
    }
  }

  /** Every character of the replacement is a dash or comes from the input. */
  lemma {:induction false} DashifyCharacters(s: string)
    ensures forall i :: 0 <= i < |Dashify(s)| ==> Dashify(s)[i] == '-' || Dashify(s)[i] in s
    decreases |s|
  {
    if s != [] {
      if IsWhitespace(s[0]) {
        DashifyCharacters(SkipWhitespace(s[1..]));
      } else {
        DashifyCharacters(s[1..]);
      }
    }
  }

  /** No whitespace character of the input survives the replacement. */
  lemma {:induction false} DashifyRemovesWhitespace(s: string)
    ensures forall i :: 0 <= i < |Dashify(s)| ==> !IsWhitespace(Dashify(s)[i])
    decreases |s|
  {
    if s != [] {
      if IsWhitespace(s[0]) {
        DashifyRemovesWhitespace(SkipWhitespace(s[1..]));
      } else {
        DashifyRemovesWhitespace(s[1..]);
      }
    }
  }

  /** A string without whitespace is left as it is. */
  lemma {:induction false} DashifyWhitespaceFreeIdentity(s: string)
    requires WhitespaceFree(s)
    ensures Dashify(s) == s
  {
    if s != [] {
      assert !IsWhitespace(s[0]);
      DashifyWhitespaceFreeIdentity(s[1..]);
    }
  }

  /** A title without whitespace only has its letters lower-cased. */
  lemma SlugOfWhitespaceFreeTitle(title: string)
    requires WhitespaceFree(title)
    ensures Slug(title) == Lower(title)
  {
    forall i | 0 <= i < |Lower(title)| ensures !IsWhitespace(Lower(title)[i]) {
      assert !IsWhitespace(title[i]);
    }
    DashifyWhitespaceFreeIdentity(Lower(title));
  }

  /** Slugging a slug changes nothing. */
  lemma SlugIdempotent(title: string)
    ensures Slug(Slug(title)) == Slug(title)
  {
    var s := Slug(title);
    DashifyCharacters(Lower(title));
    forall i | 0 <= i < |s| ensures LowerChar(s[i]) == s[i] {
      if s[i] != '-' {
        var k :| 0 <= k < |title| && Lower(title)[k] == s[i];
      }
    }
    assert Lower(s) == s;
    DashifyRemovesWhitespace(Lower(title));
    DashifyWhitespaceFreeIdentity(s);
  }

  /** The file name is "pmp-experience-", the slug, then ".txt", and holds
      no whitespace anywhere. */
  lemma FileNameShape(d: Data)
    ensures var n := FileName(d);
      && |n| >= 19
      && n[..15] == "pmp-experience-"
      && n[|n| - 4..] == ".txt"
      && n[15..|n| - 4] == Slug(d.projectTitle)
      && WhitespaceFree(n)
  {
    DashifyRemovesWhitespace(Lower(d.projectTitle));
  }
}
