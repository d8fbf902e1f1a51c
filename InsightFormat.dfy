/** `formatAIInsight` (public/app.js): the generated insight text is turned
    into markup in three passes. Heading markers `## title` become an `<h4>`,
    `**bold**` becomes a `<strong>`, and the blank-line separated chunks that
    are not whitespace only are emitted in order, each wrapped in a `<p>`
    unless it already is a heading. */
module InsightFormat {

  import opened Wrappers
  import opened Text

  const HeadingOpen := "<h4 style=\"color: #007bff; " + "margin-top: 15px; " + "margin-bottom: 8px; " + "font-size: 1rem;\">"
  const HeadingClose := "</h4>"
  const StrongOpen := "<strong style=\"color: #333;\">"
  const StrongClose := "</strong>"
  const ParagraphOpen := "<p style=\"margin-bottom: 12px; line-height: 1.6;\">"
  const ParagraphClose := "</p>"
  const HeadingTag := "<h4"

  // ---------------------------------------------------------------------
  // Pass 1: headings, /##\s*(.+?)(?:\*\*)?$/gm
  // ---------------------------------------------------------------------

  /** The characters `.` does not match and before which a multiline `$`
      matches. */
  predicate IsLineTerminator(c: char) {
    c == '\n' || c == '\r' || c == '\U{2028}' || c == '\U{2029}'
  }

  /** "\n" is the only line terminator in the text. */
  predicate OnlyNewlineBreaks(text: string) {
    forall i :: 0 <= i < |text| ==> text[i] == '\n' || !IsLineTerminator(text[i])
  }

  /** The text has no line terminator at all. */
  predicate SingleLine(text: string) {
    forall i :: 0 <= i < |text| ==> !IsLineTerminator(text[i])
  }

  /** What the lazy `(.+?)` captures from the rest `rest` of a line after
      "##": the rest without its leading whitespace (`\s*` is greedy), and
      without a final "**" when something is left before it. This is the
      expression's capture only when something other than whitespace
      follows the "##" on the line (`HeadingLineWellFormed`); otherwise the
      expression backtracks `\s*` and captures whitespace. */
  function HeadingCapture(rest: string): (title: string)
    ensures |title| <= |rest|
  {
    var t := TrimStart(rest);
    if |t| >= 3 && t[|t| - 2..] == "**" then t[..|t| - 2] else t
  }

  /** One line of the heading pass: from the first "##" to the end of the
      line, the match is replaced by the `<h4>` of its capture. It agrees
      with the expression on lines satisfying `HeadingLineWellFormed`. */
  function HeadingLine(line: string): string {
    match IndexOf(line, "##")
    case None => line
    case Some(p) => line[..p] + HeadingOpen + HeadingCapture(line[p + 2..]) + HeadingClose
  }

  /** The first "##" of the line is followed by a non-whitespace character
      on the same line. */
  predicate HeadingLineWellFormed(line: string) {
    match IndexOf(line, "##")
    case None => true
    case Some(p) => TrimStart(line[p + 2..]) != []
  }

  /** The texts for which the per-line reading of the heading pass is the
      regular expression's: "\n" is the only line terminator, and `\s*`
      never has to run over the end of a line to find a character for
      `.+?`. */
  predicate HeadingsWellFormed(text: string) {
    && OnlyNewlineBreaks(text)
    && (forall line :: line in Split(text, "\n") ==> HeadingLineWellFormed(line))
  }

  function Headings(text: string): string {
    var lines := Split(text, "\n");
    Join(seq(|lines|, i requires 0 <= i < |lines| => HeadingLine(lines[i])), "\n")
  }

  /** A line without "##" is left alone. */
  lemma HeadingLineWithoutMarker(line: string)
    requires !Contains(line, "##")
    ensures HeadingLine(line) == line
  {
  }

  /** With no '#' in front of it, the marker after `pre` is the first. */
  lemma FirstMarker(pre: string, rest: string)
    requires '#' !in pre
    ensures IndexOf(pre + "##" + rest, "##") == Some(|pre|)
  {
    var line := pre + "##" + rest;
    assert line[|pre|..|pre| + 2] == "##";
    assert OccursAt(line, "##", |pre|);
    forall j | 0 <= j < |pre| ensures !OccursAt(line, "##", j) {
      assert line[j] == pre[j];
    }
    var r := IndexOf(line, "##");
    assert r.Some?;
    assert r.value <= |pre|;
  }

  /** The capture after the marker skips the whitespace and drops the one
      optional "**" at the end. */
  lemma CaptureOfTitle(ws: string, title: string, stars: string)
    requires AllWhitespace(ws)
    requires |title| > 0 && !IsWhitespace(title[0])
    requires stars == "**" || (stars == "" && !(|title| >= 3 && title[|title| - 2..] == "**"))
    ensures HeadingCapture(ws + title + stars) == title
  {
    var t := title + stars;
    assert ws + title + stars == ws + t;
    assert t[0] == title[0];
    TrimStartSkipsWhitespace(ws, t);
    CaptureOfTrimmed(ws + title + stars, title, stars);
  }

  lemma CaptureOfTrimmed(rest: string, title: string, stars: string)
    requires TrimStart(rest) == title + stars
    requires stars == "**" || (stars == "" && !(|title| >= 3 && title[|title| - 2..] == "**"))
    requires |title| > 0
    ensures HeadingCapture(rest) == title
  {
    var t := title + stars;
    if stars == "**" {
      assert t[|t| - 2..] == "**" && t[..|t| - 2] == title;
    } else {
      assert t == title;
    }
  }

  /** A line `pre ## title` (no '#' before the marker, any whitespace
      after it, an optional "**" at the end) becomes `pre <h4>title</h4>`. */
  lemma HeadingLineMarked(pre: string, ws: string, title: string, stars: string)
    requires '#' !in pre && AllWhitespace(ws)
    requires |title| > 0 && !IsWhitespace(title[0])
    requires stars == "**" || (stars == "" && !(|title| >= 3 && title[|title| - 2..] == "**"))
    ensures HeadingLine(pre + "##" + ws + title + stars) == pre + HeadingOpen + title + HeadingClose
  {
    var rest := ws + title + stars;
    var line := pre + "##" + rest;
    assert pre + "##" + ws + title + stars == line;
    FirstMarker(pre, rest);
    assert line[..|pre|] == pre;
    assert line[|pre| + 2..] == rest;
    CaptureOfTitle(ws, title, stars);
  }

  /** Text without '#' goes through the heading pass unchanged. */
  lemma HeadingsWithoutMarkers(text: string)
    requires '#' !in text
    ensures forall line :: line in Split(text, "\n") ==> HeadingLineWellFormed(line)
    ensures Headings(text) == text
  {
    var lines := Split(text, "\n");
    SplitPiecesFromString(text, "\n");
    forall k | 0 <= k < |lines| ensures !Contains(lines[k], "##") {
      assert '#' !in lines[k];
      MissingFirstCharacter(lines[k], "##");
    }
    var mapped := seq(|lines|, i requires 0 <= i < |lines| => HeadingLine(lines[i]));
    assert mapped == lines;
    JoinSplit(text, "\n");
  }

  // ---------------------------------------------------------------------
  // Pass 2: bold, /\*\*(.+?)\*\*/g
  // ---------------------------------------------------------------------

  /** The lazy search for the closing "**" of a bold opened at index 2 of
      `s`: the smallest `m >= 3` such that the characters `s[2..m]` are all
      matched by `.` and "**" stands at `m`. */
  function CloseFrom(s: string, m: nat): (r: Option<nat>)
    requires 3 <= m
    ensures r.Some? ==> m <= r.value && r.value + 2 <= |s| && s[r.value..r.value + 2] == "**"
    decreases |s| - m
  {
    if m + 2 > |s| then None
    else if IsLineTerminator(s[m - 1]) then None
    else if s[m..m + 2] == "**" then Some(m)
    else CloseFrom(s, m + 1)
  }

  /** The bold pass, scanning left to right: at an opening "**" with a
      closing one later on the line, the shortest enclosed text becomes a
      `<strong>`; otherwise the character is kept and the scan moves on by
      one. */
  function Bold(s: string): string
    decreases |s|
  {
    if |s| < 2 then s
    else if s[..2] == "**" then
      match CloseFrom(s, 3)
      case Some(m) => StrongOpen + s[2..m] + StrongClose + Bold(s[m + 2..])
      case None => [s[0]] + Bold(s[1..])
    else [s[0]] + Bold(s[1..])
  }

  /** The closing search stops at the first "**" after the opening, as
      long as no line terminator comes before it. */
  lemma {:induction false} CloseFromFinds(s: string, m: nat, target: nat)
    requires 3 <= m <= target && target + 2 <= |s| && s[target..target + 2] == "**"
    requires forall j :: m - 1 <= j < target ==> !IsLineTerminator(s[j])
    requires forall j :: m <= j < target ==> !(s[j] == '*' && s[j + 1] == '*')
    ensures CloseFrom(s, m) == Some(target)
    decreases target - m
  {
    if m < target {
      assert !(s[m] == '*' && s[m + 1] == '*');
      assert s[m..m + 2][0] == s[m] && s[m..m + 2][1] == s[m + 1];
      CloseFromFinds(s, m + 1, target);
    }
  }

  /** The closing search finds nothing when no "**" stands at or after
      `m`. */
  lemma {:induction false} CloseFromMisses(s: string, m: nat)
    requires 3 <= m
    requires forall j :: m <= j && j + 1 < |s| ==> !(s[j] == '*' && s[j + 1] == '*')
    ensures CloseFrom(s, m) == None
    decreases |s| - m
  {
    if m + 2 <= |s| && !IsLineTerminator(s[m - 1]) {
      assert s[m..m + 2][0] == s[m] && s[m..m + 2][1] == s[m + 1];
      CloseFromMisses(s, m + 1);
    }
  }

  /** The lazy `(.+?)` stops at the end of `x` in `**x**`: no "**" starts
      in `x` after its first character, counting the "**" that follows it.
      Single stars are allowed, and so is a '*' in first place. */
  predicate NoInnerClose(x: string) {
    forall j :: 1 <= j < |x| ==> !(x[j] == '*' && (j + 1 == |x| || x[j + 1] == '*'))
  }

  /** Text without '*' goes through the bold pass unchanged. */
  lemma {:induction false} BoldWithoutStars(s: string)
    requires '*' !in s
    ensures Bold(s) == s
    decreases |s|
  {
    if |s| >= 2 {
      assert s[..2][0] == s[0];
      assert '*' !in s[1..];
      BoldWithoutStars(s[1..]);
      assert s == [s[0]] + s[1..];
    }
  }

  /** Text without '*' in front of the rest is copied, and the bold pass
      goes on with the rest. */
  lemma {:induction false} BoldSkipsPlain(pre: string, s: string)
    requires '*' !in pre
    ensures Bold(pre + s) == pre + Bold(s)
    decreases |pre|
  {
    if |pre| > 0 {
      var t := pre + s;
      assert t[0] == pre[0];
      assert t[1..] == pre[1..] + s;
      assert '*' !in pre[1..];
      BoldSkipsPlain(pre[1..], s);
      if |t| >= 2 {
        assert t[..2][0] == pre[0];
      } else {
        assert pre == [pre[0]];
      }
      assert pre == [pre[0]] + pre[1..];
    } else {
      assert pre + s == s;
    }
  }

  /** `**x** post`, for a non-empty x on one line in which the lazy match
      stops at its end, becomes `<strong>x</strong>` followed by the bold
      pass over `post`. */
  lemma BoldSpanAtStart(x: string, post: string)
    requires NoInnerClose(x) && |x| > 0
    requires SingleLine(x)
    ensures Bold("**" + x + "**" + post) == StrongOpen + x + StrongClose + Bold(post)
  {
    var s := "**" + x + "**" + post;
    var target := 2 + |x|;
    assert s[..2] == "**";
    assert s[2..target] == x;
    assert s[target..target + 2] == "**";
    assert s[target + 2..] == post;
    assert forall j :: 2 <= j < target ==> s[j] == x[j - 2];
    assert s[target] == '*';
    forall j | 3 <= j < target ensures !(s[j] == '*' && s[j + 1] == '*') {
      assert !(x[j - 2] == '*' && (j - 1 == |x| || x[j - 1] == '*'));
      if j + 1 < target {
        assert s[j + 1] == x[j - 1];
      }
    }
    CloseFromFinds(s, 3, target);
  }

  /** `pre **x** post`, with no '*' in `pre`: the bold span is the first
      one found. */
  lemma BoldSpan(pre: string, x: string, post: string)
    requires '*' !in pre && NoInnerClose(x) && |x| > 0
    requires SingleLine(x)
    ensures Bold(pre + "**" + x + "**" + post) == pre + StrongOpen + x + StrongClose + Bold(post)
  {
    var rest := "**" + x + "**" + post;
    assert pre + "**" + x + "**" + post == pre + rest;
    BoldSkipsPlain(pre, rest);
    BoldSpanAtStart(x, post);
    SpanAfterPlain(pre, x, Bold(post));
  }

  lemma SpanAfterPlain(pre: string, x: string, tail: string)
    ensures pre + (StrongOpen + x + StrongClose + tail) == pre + StrongOpen + x + StrongClose + tail
  {
  }

  /** A single '*' inside a bold span stays inside it. */
  lemma BoldInnerStar()
    ensures Bold("**a*b**") == StrongOpen + "a*b" + StrongClose
  {
    assert NoInnerClose("a*b");
    BoldSpanAtStart("a*b", "");
    assert "**" + "a*b" + "**" + "" == "**a*b**";
  }

  /** An opening "**" without a closing one on the rest of the text is
      kept as it is. */
  lemma BoldUnclosed(x: string)
    requires '*' !in x
    ensures Bold("**" + x) == "**" + x
  {
    var s := "**" + x;
    assert s[..2] == "**";
    forall j | 3 <= j && j + 1 < |s| ensures !(s[j] == '*' && s[j + 1] == '*') {
      assert s[j] == x[j - 2];
    }
    CloseFromMisses(s, 3);
    assert s[1..] == "*" + x;
    assert ("*" + x)[1..] == x;
    BoldWithoutStars(x);
  }

  // ---------------------------------------------------------------------
  // Pass 3: paragraphs, split('\n\n').filter(p => p.trim()).map(...).join('')
  // ---------------------------------------------------------------------

  /** The chunks the filter drops: `p.trim()` is the empty string, that is
      (by `TrimEmptyIff`) the chunk is whitespace only. */
  predicate IsBlank(p: string) {
    AllWhitespace(p)
  }

  /** `filter(p => p.trim())`. */
  function KeepNonBlank(chunks: seq<string>): seq<string> {
    if |chunks| == 0 then []
    else (if IsBlank(chunks[0]) then [] else [chunks[0]]) + KeepNonBlank(chunks[1..])
  }

  /** The `map` callback. */
  function RenderChunk(p: string): string {
    if StartsWith(Trim(p), HeadingTag) then p else ParagraphOpen + Trim(p) + ParagraphClose
  }

  function RenderAll(chunks: seq<string>): (r: seq<string>)
    ensures |r| == |chunks| && forall i :: 0 <= i < |chunks| ==> r[i] == RenderChunk(chunks[i])
  {
    seq(|chunks|, i requires 0 <= i < |chunks| => RenderChunk(chunks[i]))
  }

  /** The paragraph pass over the chunks; `join('')` is concatenation. */
  function FormatChunks(chunks: seq<string>): string {
    Concat(RenderAll(KeepNonBlank(chunks)))
  }

  /** `formatAIInsight(text)`. */
  function FormatAIInsight(text: string): string
    requires HeadingsWellFormed(text)
  {
    FormatChunks(Split(Bold(Headings(text)), "\n\n"))
  }

  /** The filter keeps exactly the chunks that are not blank. */
  lemma {:induction false} KeepNonBlankMembers(chunks: seq<string>)
    ensures forall p :: p in KeepNonBlank(chunks) ==> p in chunks && !IsBlank(p)
    ensures forall p :: p in chunks && !IsBlank(p) ==> p in KeepNonBlank(chunks)
    decreases |chunks|
  {
    if |chunks| > 0 {
      KeepNonBlankMembers(chunks[1..]);
      assert chunks == [chunks[0]] + chunks[1..];
    }
  }

  lemma {:induction false} KeepNonBlankAppend(a: seq<string>, b: seq<string>)
    ensures KeepNonBlank(a + b) == KeepNonBlank(a) + KeepNonBlank(b)
    decreases |a|
  {
    if |a| == 0 {
      assert a + b == b;
    } else {
      assert (a + b)[0] == a[0];
      assert (a + b)[1..] == a[1..] + b;
      KeepNonBlankAppend(a[1..], b);
    }
  }

  /** The paragraph pass works chunk by chunk: the output for a sequence of
      chunks is the output for its first part followed by the output for
      the rest, so chunks are emitted in their order. */
  lemma FormatChunksAppend(a: seq<string>, b: seq<string>)
    ensures FormatChunks(a + b) == FormatChunks(a) + FormatChunks(b)
  {
    KeepNonBlankAppend(a, b);
    var ka, kb := KeepNonBlank(a), KeepNonBlank(b);
    assert RenderAll(ka + kb) == RenderAll(ka) + RenderAll(kb);
    ConcatAppend(RenderAll(ka), RenderAll(kb));
  }

  /** One chunk: a whitespace-only chunk contributes nothing, a chunk that
      is a heading is emitted as it is, and any other chunk is emitted
      trimmed inside a `<p>`. */
  lemma FormatChunk(p: string)
    ensures AllWhitespace(p) ==> FormatChunks([p]) == ""
    ensures !AllWhitespace(p) && StartsWith(Trim(p), HeadingTag) ==> FormatChunks([p]) == p
    ensures !AllWhitespace(p) && !StartsWith(Trim(p), HeadingTag) ==>
      FormatChunks([p]) == ParagraphOpen + Trim(p) + ParagraphClose
  {
    assert [p][1..] == [];
    assert KeepNonBlank([p]) == (if IsBlank(p) then [] else [p]) + KeepNonBlank([]);
    var r := RenderAll(KeepNonBlank([p]));
    if !IsBlank(p) {
      assert r == [RenderChunk(p)];
      assert Concat(r) == RenderChunk(p) + Concat(r[1..]);
    } else {
      assert r == [];
    }
  }

  /** A whitespace-only chunk can be dropped anywhere without changing the
      output. */
  lemma BlankChunkVanishes(a: seq<string>, p: string, b: seq<string>)
    requires AllWhitespace(p)
    ensures FormatChunks(a + [p] + b) == FormatChunks(a + b)
  {
    FormatChunksAppend(a + [p], b);
    FormatChunksAppend(a, [p]);
    FormatChunksAppend(a, b);
    BlankChunkEmpty(p);
    assert FormatChunks(a) + "" == FormatChunks(a);
  }

  lemma BlankChunkEmpty(p: string)
    requires AllWhitespace(p)
    ensures FormatChunks([p]) == ""
  {
    assert [p][1..] == [];
    assert KeepNonBlank([p]) == [];
  }

  /** Text with no heading or bold markers and no line terminator other
      than "\n": the heading and bold passes change nothing, and the output
      is the paragraph pass over its blank-line separated chunks. */
  lemma PlainInsight(text: string)
    requires '#' !in text && '*' !in text
    requires OnlyNewlineBreaks(text)
    ensures HeadingsWellFormed(text)
    ensures FormatAIInsight(text) == FormatChunks(Split(text, "\n\n"))
  {
    HeadingsWithoutMarkers(text);
    assert HeadingsWellFormed(text);
    UnmarkedInsight(text);
  }

  lemma UnmarkedInsight(text: string)
    requires '#' !in text && '*' !in text && HeadingsWellFormed(text)
    ensures FormatAIInsight(text) == FormatChunks(Split(text, "\n\n"))
  {
    HeadingsWithoutMarkers(text);
    BoldWithoutStars(text);
    assert Bold(Headings(text)) == text;
  }

  /** A single plain line that is not whitespace only becomes one trimmed
      paragraph. */
  lemma PlainParagraph(text: string)
    requires '#' !in text && '*' !in text && '<' !in text
    requires SingleLine(text)
    requires !AllWhitespace(text)
    ensures HeadingsWellFormed(text)
    ensures FormatAIInsight(text) == ParagraphOpen + Trim(text) + ParagraphClose
  {
    PlainLineBreaks(text);
    PlainInsight(text);
    PlainLineOneChunk(text);
    PlainLineNotHeading(text);
    FormatChunk(text);
  }

  lemma PlainLineBreaks(text: string)
    requires SingleLine(text)
    ensures OnlyNewlineBreaks(text)
  {
  }

  lemma PlainLineOneChunk(text: string)
    requires SingleLine(text)
    ensures Split(text, "\n\n") == [text]
  {
    assert '\n' !in text;
    SplitOfUnbrokenText(text, "\n\n");
  }

  lemma PlainLineNotHeading(text: string)
    requires '<' !in text
    ensures !StartsWith(Trim(text), HeadingTag)
  {
    TrimmedFirstCharacter(text, '<');
  }

  /** The heading pass over the one line `## title`. */
  lemma SingleHeadingLine(title: string)
    requires |title| > 0 && !IsWhitespace(title[0])
    requires '*' !in title && SingleLine(title)
    ensures HeadingsWellFormed("## " + title)
    ensures Headings("## " + title) == HeadingOpen + title + HeadingClose
  {
    var line := "## " + title;
    HeadingLineOneLine(title);
    HeadingLineOfTitle(title);
    HeadingLineWellFormedOfTitle(title);
    var lines := Split(line, "\n");
    assert seq(|lines|, i requires 0 <= i < |lines| => HeadingLine(lines[i])) == [HeadingLine(line)];
  }

  lemma HeadingLineOneLine(title: string)
    requires SingleLine(title)
    ensures OnlyNewlineBreaks("## " + title)
    ensures Split("## " + title, "\n") == ["## " + title]
  {
    var line := "## " + title;
    assert forall i :: 2 < i < |line| ==> line[i] == title[i - 3];
    assert '\n' !in line;
    SplitOfUnbrokenText(line, "\n");
  }

  lemma HeadingLineOfTitle(title: string)
    requires |title| > 0 && !IsWhitespace(title[0]) && '*' !in title
    ensures HeadingLine("## " + title) == HeadingOpen + title + HeadingClose
  {
    var line := "## " + title;
    assert OccursAt(line, "##", 0);
    assert IndexOf(line, "##") == Some(0);
    assert line[2..] == " " + title;
    NoClosingStars(title);
    CaptureOfTitle(" ", title, "");
    assert " " + title + "" == " " + title;
    HeadingAtStart(line, title);
  }

  lemma HeadingAtStart(line: string, title: string)
    requires IndexOf(line, "##") == Some(0) && HeadingCapture(line[2..]) == title
    ensures HeadingLine(line) == HeadingOpen + title + HeadingClose
  {
    assert line[..0] + HeadingOpen == HeadingOpen;
  }

  lemma NoClosingStars(title: string)
    requires |title| > 0 && '*' !in title
    ensures !(|title| >= 3 && title[|title| - 2..] == "**")
  {
    if |title| >= 3 {
      assert title[|title| - 2..][1] == title[|title| - 1];
    }
  }

  lemma HeadingLineWellFormedOfTitle(title: string)
    requires |title| > 0 && !IsWhitespace(title[0])
    ensures HeadingLineWellFormed("## " + title)
  {
    var line := "## " + title;
    assert line == "" + "##" + (" " + title);
    FirstMarker("", " " + title);
    assert line[2..] == " " + title;
    TrimStartSkipsWhitespace(" ", title);
  }

  /** The bold and paragraph passes leave a heading line's `<h4>` as it
      is. */
  lemma HeadingChunk(title: string)
    requires '*' !in title && SingleLine(title)
    ensures var h := HeadingOpen + title + HeadingClose;
      FormatChunks(Split(Bold(h), "\n\n")) == h
  {
    HeadingMarkupUnbolded(title);
    HeadingMarkupOneChunk(title);
    HeadingMarkupTrimmed(title);
    FormatChunk(HeadingOpen + title + HeadingClose);
  }

  lemma HeadingMarkupUnbolded(title: string)
    requires '*' !in title
    ensures var h := HeadingOpen + title + HeadingClose; Bold(h) == h
  {
    var h := HeadingOpen + title + HeadingClose;
    HeadingMarkupPlain();
    assert '*' !in h;
    BoldWithoutStars(h);
  }

  /** The heading markup has neither '*' nor a line break; shown one piece
      of the opening tag at a time. */
  lemma HeadingMarkupPlain()
    ensures '*' !in HeadingOpen && '*' !in HeadingClose
    ensures '\n' !in HeadingOpen && '\n' !in HeadingClose
  {
    ColorPiecePlain();
    MarginTopPiecePlain();
    MarginBottomPiecePlain();
    FontSizePiecePlain();
  }

  lemma ColorPiecePlain()
    ensures '*' !in "<h4 style=\"color: #007bff; " && '\n' !in "<h4 style=\"color: #007bff; "
  {
  }

  lemma MarginTopPiecePlain()
    ensures '*' !in "margin-top: 15px; " && '\n' !in "margin-top: 15px; "
  {
  }

  lemma MarginBottomPiecePlain()
    ensures '*' !in "margin-bottom: 8px; " && '\n' !in "margin-bottom: 8px; "
  {
  }

  lemma FontSizePiecePlain()
    ensures '*' !in "font-size: 1rem;\">" && '\n' !in "font-size: 1rem;\">"
  {
  }

  lemma HeadingMarkupOneChunk(title: string)
    requires SingleLine(title)
    ensures var h := HeadingOpen + title + HeadingClose; Split(h, "\n\n") == [h]
  {
    var h := HeadingOpen + title + HeadingClose;
    HeadingMarkupPlain();
    assert '\n' !in h;
    SplitOfUnbrokenText(h, "\n\n");
  }



  lemma HeadingMarkupTrimmed(title: string)
    ensures var h := HeadingOpen + title + HeadingClose;
      Trim(h) == h && !AllWhitespace(h) && StartsWith(h, HeadingTag)
  {
    var h := HeadingOpen + title + HeadingClose;
    assert h[0] == '<' && h[|h| - 1] == '>';
    TrimOfFramed(h);
    assert h[..3] == HeadingOpen[..3];
  }

  /** A single heading line `## title` becomes just the `<h4>` of its title,
      not wrapped in a paragraph. */
  lemma HeadingInsight(title: string)
    requires |title| > 0 && !IsWhitespace(title[0])
    requires '*' !in title && SingleLine(title)
    ensures HeadingsWellFormed("## " + title)
    ensures FormatAIInsight("## " + title) == HeadingOpen + title + HeadingClose
  {
    SingleHeadingLine(title);
    HeadingChunk(title);
  }

  /** A line `**x**`, the form of the section headers the prompt asks
      for, becomes a paragraph holding the `<strong>` of `x`. */
  lemma BoldInsight(x: string)
    requires |x| > 0 && NoInnerClose(x) && '#' !in x && SingleLine(x)
    ensures HeadingsWellFormed("**" + x + "**")
    ensures FormatAIInsight("**" + x + "**") == ParagraphOpen + StrongOpen + x + StrongClose + ParagraphClose
  {
    BoldLineHeadings(x);
    BoldOfSpan(x);
    StrongChunk(x);
    ParagraphOfStrong(x);
  }

  lemma ParagraphOfStrong(x: string)
    ensures ParagraphOpen + (StrongOpen + x + StrongClose) + ParagraphClose
         == ParagraphOpen + StrongOpen + x + StrongClose + ParagraphClose
  {
  }

  lemma BoldLineHeadings(x: string)
    requires '#' !in x && SingleLine(x)
    ensures HeadingsWellFormed("**" + x + "**")
    ensures Headings("**" + x + "**") == "**" + x + "**"
  {
    var text := "**" + x + "**";
    BoldLineBreaks(x);
    assert '#' !in text;
    HeadingsWithoutMarkers(text);
  }

  lemma BoldLineBreaks(x: string)
    requires SingleLine(x)
    ensures OnlyNewlineBreaks("**" + x + "**")
  {
    var text := "**" + x + "**";
    forall i | 0 <= i < |text| ensures !IsLineTerminator(text[i]) {
      if 2 <= i < 2 + |x| {
        assert text[i] == x[i - 2];
      }
    }
  }

  lemma BoldOfSpan(x: string)
    requires |x| > 0 && NoInnerClose(x) && SingleLine(x)
    ensures Bold("**" + x + "**") == StrongOpen + x + StrongClose
  {
    BoldSpanAtStart(x, "");
    assert "**" + x + "**" + "" == "**" + x + "**";
  }

  lemma StrongChunk(x: string)
    requires SingleLine(x)
    ensures var s := StrongOpen + x + StrongClose;
      FormatChunks(Split(s, "\n\n")) == ParagraphOpen + s + ParagraphClose
  {
    var s := StrongOpen + x + StrongClose;
    StrongMarkupOneChunk(x);
    StrongMarkupTrimmed(x);
    FormatChunk(s);
  }

  lemma StrongMarkupOneChunk(x: string)
    requires SingleLine(x)
    ensures var s := StrongOpen + x + StrongClose; Split(s, "\n\n") == [s]
  {
    var s := StrongOpen + x + StrongClose;
    assert '\n' !in s;
    SplitOfUnbrokenText(s, "\n\n");
  }

  lemma StrongMarkupTrimmed(x: string)
    ensures var s := StrongOpen + x + StrongClose;
      Trim(s) == s && !AllWhitespace(s) && !StartsWith(s, HeadingTag)
  {
    StrongMarkupFramed(x);
    StrongMarkupNotHeading(x);
  }

  lemma StrongMarkupFramed(x: string)
    ensures var s := StrongOpen + x + StrongClose; Trim(s) == s && !AllWhitespace(s)
  {
    var s := StrongOpen + x + StrongClose;
    assert s[0] == StrongOpen[0] == '<';
    assert s[|s| - 1] == StrongClose[|StrongClose| - 1] == '>';
    TrimOfFramed(s);
  }

  lemma StrongMarkupNotHeading(x: string)
    ensures !StartsWith(StrongOpen + x + StrongClose, HeadingTag)
  {
    var s := StrongOpen + x + StrongClose;
    assert s[..3][1] == StrongOpen[1] == 's';
  }
}
