/** The line-based converters of generator.py between the editor's plain
    text and markdown: `plain_text_to_markdown` with its header rule
    `is_likely_header`, and the prefix-strip, list-marker, blank-run and
    strip steps of `markdown_to_plain_text`. The phrase highlighter
    `add_smart_formatting` is a parameter `smart`. */
module Markdown {
  import opened Text

  // ---------------------------------------------------------------------
  // is_likely_header

  /** Words that make a line look like a header. */
  const HeaderWords: seq<string> := ["jak", "dlaczego", "gdzie", "kiedy", "czym", "przyczyny", "sposoby", "metody"]

  /** `line.endswith(('.', '!', '?', ','))`. */
  predicate EndsWithPunctuation(line: string) {
    line != [] && (line[|line| - 1] == '.' || line[|line| - 1] == '!' || line[|line| - 1] == '?'
                   || line[|line| - 1] == ',')
  }

  /** `is_likely_header(line, index, all_lines)`; the source reads
      `all_lines[index - 1]` only for `index > 0`. */
  predicate IsLikelyHeader(line: string, index: nat, allLines: seq<string>)
    requires index <= |allLines|
  {
    if |line| < 5 then false
    else if |line| > 100 then false
    else if EndsWithPunctuation(line) then false
    else if index == 0 then true
    else if Strip(allLines[index - 1]) == [] then true
    else AnyFound(HeaderWords, Lower(line))
  }

  /** The header words are written in lower case. */
  lemma HeaderWordsLowered()
    ensures AllLowered(HeaderWords)
  {
    assert NoCapitals(HeaderWords);
    NoCapitalsLowered(HeaderWords);
  }

  /** A header word written anywhere in the line, in whatever case the
      rest of the line has, is found by the header-word test. */
  lemma HeaderWordIgnoresCase(line: string, w: string)
    requires w in HeaderWords && Contains(line, w)
    ensures AnyFound(HeaderWords, Lower(line))
  {
    HeaderWordsLowered();
    LowerKeepsLoweredHit(line, w);
  }

  /** A line looks like a header exactly when it has 5 to 100 characters,
      does not end in `.`, `!`, `?` or `,`, and is the first line, follows
      a blank line, or contains a header word. */
  lemma IsLikelyHeaderIff(line: string, index: nat, allLines: seq<string>)
    requires index <= |allLines|
    ensures IsLikelyHeader(line, index, allLines)
        <==> && 5 <= |line| <= 100
             && !EndsWithPunctuation(line)
             && (index == 0 || AllSpace(allLines[index - 1]) || AnyFound(HeaderWords, Lower(line)))
  {
    if index > 0 {
      StripEmptyIffAllSpace(allLines[index - 1]);
    }
  }

  // ---------------------------------------------------------------------
  // plain_text_to_markdown

  /** A per-line formatter such as `add_smart_formatting`. */
  type Formatter = string -> string

  /** The formatter never puts a line break into a line. */
  ghost predicate KeepsLines(smart: Formatter) {
    forall s :: '\n' !in s ==> '\n' !in smart(s)
  }

  /** `line.startswith(('• ', '- ', '* '))`. */
  predicate IsListItem(line: string) {
    |line| >= 2 && line[1] == ' ' && (line[0] == '•' || line[0] == '-' || line[0] == '*')
  }

  /** Output line `i` for the input lines `lines`. */
  function MarkdownLine(lines: seq<string>, i: nat, smart: Formatter): string
    requires i < |lines|
  {
    var line := Strip(lines[i]);
    if line == [] then []
    else if IsLikelyHeader(line, i, lines) then
      (if i == 0 || (i < 3 && |line| > 20) then "# " + line else "## " + line)
    else if IsListItem(line) then "- " + line[2..]
    else smart(line)
  }

  /** The output lines, one per input line. */
  function MarkdownLines(lines: seq<string>, smart: Formatter): (out: seq<string>)
    ensures |out| == |lines|
  {
    seq(|lines|, i requires 0 <= i < |lines| => MarkdownLine(lines, i, smart))
  }

  /** The markdown for a plain text. */
  function ToMarkdown(plainText: string, smart: Formatter): string {
    Join(MarkdownLines(Split(plainText, "\n"), smart), "\n")
  }

  /** The body of `plain_text_to_markdown`'s loop for line `i`. */
  method ConvertLine(lines: seq<string>, i: nat, smart: Formatter) returns (markdownLine: string)
    requires i < |lines|
    ensures markdownLine == MarkdownLine(lines, i, smart)
  {
    var line := Strip(lines[i]);
    if line == [] {
      return "";
    }
    if IsLikelyHeader(line, i, lines) {
      if i == 0 || (i < 3 && |line| > 20) {
        markdownLine := "# " + line;
      } else {
        markdownLine := "## " + line;
      }
    } else if IsListItem(line) {
      markdownLine := "- " + line[2..];
    } else {
      markdownLine := smart(line);
    }
  }

  /** The loop of `plain_text_to_markdown`: every line converted, in order. */
  method ConvertLines(lines: seq<string>, smart: Formatter) returns (markdownLines: seq<string>)
    ensures markdownLines == MarkdownLines(lines, smart)
  {
    markdownLines := [];
    var i := 0;
    while i < |lines|
      invariant 0 <= i <= |lines|
      invariant |markdownLines| == i
      invariant forall k :: 0 <= k < i ==> markdownLines[k] == MarkdownLine(lines, k, smart)
    {
      var markdownLine := ConvertLine(lines, i, smart);
      markdownLines := markdownLines + [markdownLine];
      i := i + 1;
    }
  }

  /** `plain_text_to_markdown`: one output line per input line, joined with
      line breaks; with a formatter that keeps lines, the output's lines are
      exactly the converted input lines. */
  method PlainTextToMarkdown(plainText: string, smart: Formatter) returns (markdown: string)
    ensures markdown == ToMarkdown(plainText, smart)
    ensures KeepsLines(smart) ==> Split(markdown, "\n") == MarkdownLines(Split(plainText, "\n"), smart)
  {
    var lines := Split(plainText, "\n");
    var markdownLines := ConvertLines(lines, smart);
    markdown := Join(markdownLines, "\n");
    if KeepsLines(smart) {
      ToMarkdownLines(plainText, smart);
    }
  }

  /** A stripped line break-free line has no line break. */
  lemma StripKeepsOut(s: string, c: char)
    requires c !in s
    ensures c !in Strip(s)
  {
    var lo := StripIsInfix(s);
    forall k | 0 <= k < |Strip(s)| ensures Strip(s)[k] != c {
      assert Strip(s)[k] == s[lo + k];
    }
  }

  /** A converted line has no line break when its input line has none. */
  lemma MarkdownLineOneLine(lines: seq<string>, i: nat, smart: Formatter)
    requires i < |lines| && '\n' !in lines[i]
    requires KeepsLines(smart)
    ensures '\n' !in MarkdownLine(lines, i, smart)
  {
    var line := Strip(lines[i]);
    StripKeepsOut(lines[i], '\n');
    if line == [] {
    } else if IsLikelyHeader(line, i, lines) {
      assert '\n' !in "# " && '\n' !in "## ";
    } else if IsListItem(line) {
      assert forall k :: 0 <= k < |line[2..]| ==> line[2..][k] == line[k + 2];
      assert '\n' !in "- ";
    } else {
      assert '\n' !in smart(line);
    }
  }

  /** The output has exactly as many lines as the input, and output line
      `i` is the conversion of input line `i`, when the formatter keeps
      lines. */
  lemma ToMarkdownLines(plainText: string, smart: Formatter)
    requires KeepsLines(smart)
    ensures Split(ToMarkdown(plainText, smart), "\n") == MarkdownLines(Split(plainText, "\n"), smart)
    ensures |Split(ToMarkdown(plainText, smart), "\n")| == |Split(plainText, "\n")|
  {
    var lines := Split(plainText, "\n");
    var out := MarkdownLines(lines, smart);
    SplitExcludes(plainText, '\n');
    forall p | p in out ensures '\n' !in p {
      var k :| 0 <= k < |out| && out[k] == p;
      assert lines[k] in lines;
      MarkdownLineOneLine(lines, k, smart);
    }
    SplitJoin(out, '\n');
  }

  /** A converted line depends only on its input line, its position and
      the line before it. */
  lemma MarkdownLineLocal(lines: seq<string>, lines': seq<string>, i: nat, smart: Formatter)
    requires i < |lines| && i < |lines'|
    requires lines[i] == lines'[i]
    requires i > 0 ==> lines[i - 1] == lines'[i - 1]
    ensures MarkdownLine(lines, i, smart) == MarkdownLine(lines', i, smart)
  {
  }

  /** How a line is converted: a blank line becomes empty; a header gets
      `# ` on the first line and on a long line among the first three, `## `
      otherwise; a list item that is not a header gets `- ` for its marker;
      every other line goes through the formatter. */
  lemma MarkdownLineRules(lines: seq<string>, i: nat, smart: Formatter)
    requires i < |lines|
    ensures AllSpace(lines[i]) ==> MarkdownLine(lines, i, smart) == []
    ensures !AllSpace(lines[i]) && IsLikelyHeader(Strip(lines[i]), i, lines) ==>
              MarkdownLine(lines, i, smart)
              == (if i == 0 || (i < 3 && |Strip(lines[i])| > 20) then "# " else "## ") + Strip(lines[i])
    ensures !AllSpace(lines[i]) && !IsLikelyHeader(Strip(lines[i]), i, lines) && IsListItem(Strip(lines[i])) ==>
              MarkdownLine(lines, i, smart) == "- " + Strip(lines[i])[2..]
    ensures !AllSpace(lines[i]) && !IsLikelyHeader(Strip(lines[i]), i, lines) && !IsListItem(Strip(lines[i])) ==>
              MarkdownLine(lines, i, smart) == smart(Strip(lines[i]))
  {
    StripEmptyIffAllSpace(lines[i]);
  }

  // ---------------------------------------------------------------------
  // markdown_to_plain_text

  /** The length of the run of `c` that `s` starts with. */
  function RunOf(s: string, c: char): (n: nat)
    ensures n <= |s|
    ensures forall i :: 0 <= i < n ==> s[i] == c
    ensures n == |s| || s[n] != c
  {
    if s != [] && s[0] == c then 1 + RunOf(s[1..], c) else 0
  }

  /** The length of the match of `#{1,6}\s+` at the start of `s`, 0 when
      there is none. */
  function HeaderMarkLen(s: string): (n: nat)
    ensures n <= |s|
  {
    var h := RunOf(s, '#');
    if 1 <= h <= 6 && h < |s| && IsSpace(s[h]) then h + SpaceRun(s[h..]) else 0
  }

  /** `s[..n]` is `k` hashes (1 to 6) followed by whitespace: a way for
      `#{1,6}\s+` to match the first `n` characters of `s`. */
  predicate HeaderMarkSplit(s: string, k: nat, n: nat) {
    && 1 <= k <= 6 && k < n <= |s|
    && (forall i :: 0 <= i < k ==> s[i] == '#')
    && (forall i :: k <= i < n ==> IsSpace(s[i]))
  }

  /** HeaderMarkLen is the match Python's backtracking finds: there is one
      exactly when some prefix matches, and it is the longest. */
  lemma HeaderMarkLenIsMatch(s: string)
    ensures HeaderMarkLen(s) > 0 ==> HeaderMarkSplit(s, RunOf(s, '#'), HeaderMarkLen(s))
    ensures forall k: nat, n: nat :: HeaderMarkSplit(s, k, n) ==> 0 < n <= HeaderMarkLen(s)
  {
    var h := RunOf(s, '#');
    if HeaderMarkLen(s) > 0 {
      var w := SpaceRun(s[h..]);
      assert forall i :: h <= i < h + w ==> s[i] == s[h..][i - h];
    }
    forall k: nat, n: nat | HeaderMarkSplit(s, k, n) ensures 0 < n <= HeaderMarkLen(s) {
      assert IsSpace(s[k]);
      assert h == k;
      var w := SpaceRun(s[k..]);
    }
  }

  /** `re.sub(r'^#{1,6}\s+', '', s, flags=re.MULTILINE)` from a position of
      the scan; `lineStart` says whether `^` holds there (start of the text
      or just after a line break of the original text). */
  function StripHeadersFrom(s: string, lineStart: bool): string
    decreases |s|
  {
    if s == [] then []
    else if lineStart && HeaderMarkLen(s) > 0 then
      var n := HeaderMarkLen(s);
      StripHeadersFrom(s[n..], s[n - 1] == '\n')
    else [s[0]] + StripHeadersFrom(s[1..], s[0] == '\n')
  }

  /** Step 1: header marks removed at every line start. */
  function StripHeaderMarks(s: string): string {
    StripHeadersFrom(s, true)
  }

  /** The length of the match of `\s*[-*+]\s+` at the start of `s`, 0 when
      there is none. */
  function ListMarkLen(s: string): (n: nat)
    ensures n <= |s|
  {
    var w := SpaceRun(s);
    if w + 1 < |s| && (s[w] == '-' || s[w] == '*' || s[w] == '+') && IsSpace(s[w + 1])
    then w + 1 + SpaceRun(s[w + 1..])
    else 0
  }

  /** `s[..n]` is whitespace, one of `-`, `*`, `+` at `w`, then whitespace:
      a way for `\s*[-*+]\s+` to match the first `n` characters of `s`. */
  predicate ListMarkSplit(s: string, w: nat, n: nat) {
    && w + 1 < n <= |s|
    && (forall i :: 0 <= i < w ==> IsSpace(s[i]))
    && (s[w] == '-' || s[w] == '*' || s[w] == '+')
    && (forall i :: w + 1 <= i < n ==> IsSpace(s[i]))
  }

  /** ListMarkLen is the match Python's backtracking finds: there is one
      exactly when some prefix matches, and it is the longest. */
  lemma ListMarkLenIsMatch(s: string)
    ensures ListMarkLen(s) > 0 ==> ListMarkSplit(s, SpaceRun(s), ListMarkLen(s))
    ensures forall w: nat, n: nat :: ListMarkSplit(s, w, n) ==> 0 < n <= ListMarkLen(s)
  {
    var sp := SpaceRun(s);
    if ListMarkLen(s) > 0 {
      var t := SpaceRun(s[sp + 1..]);
      assert forall i :: sp + 1 <= i < sp + 1 + t ==> s[i] == s[sp + 1..][i - sp - 1];
    }
    forall w: nat, n: nat | ListMarkSplit(s, w, n) ensures 0 < n <= ListMarkLen(s) {
      assert !IsSpace(s[w]);
      assert sp == w;
      var t := SpaceRun(s[w + 1..]);
    }
  }

  /** `re.sub(r'^\s*[-*+]\s+', '• ', s, flags=re.MULTILINE)` from a
      position of the scan. */
  function RewriteListFrom(s: string, lineStart: bool): string
    decreases |s|
  {
    if s == [] then []
    else if lineStart && ListMarkLen(s) > 0 then
      var n := ListMarkLen(s);
      "• " + RewriteListFrom(s[n..], s[n - 1] == '\n')
    else [s[0]] + RewriteListFrom(s[1..], s[0] == '\n')
  }

  /** Step 2: list markers at line starts rewritten to bullets. */
  function RewriteListMarkers(s: string): string {
    RewriteListFrom(s, true)
  }

  /** Step 3: `re.sub(r'\n\n\n+', '\n\n', s)`: every run of three or more
      line breaks shortened to two. */
  function CollapseBlankRuns(s: string): string
    decreases |s|
  {
    if s == [] then []
    else
      var r := RunOf(s, '\n');
      if r >= 3 then "\n\n" + CollapseBlankRuns(s[r..])
      else if r > 0 then s[..r] + CollapseBlankRuns(s[r..])
      else [s[0]] + CollapseBlankRuns(s[1..])
  }

  /** The plain text for a markdown text (the bold, italic, link and code
      substitutions aside). */
  function PlainText(markdownContent: string): string {
    Strip(CollapseBlankRuns(RewriteListMarkers(StripHeaderMarks(markdownContent))))
  }

  /** No three line breaks in a row. */
  predicate NoTripleBreak(s: string) {
    forall i :: 0 <= i < |s| - 2 ==> !(s[i] == '\n' && s[i + 1] == '\n' && s[i + 2] == '\n')
  }

  /** `markdown_to_plain_text`: the text rebound step by step; the result
      has no leading or trailing whitespace and no three line breaks in a
      row. */
  method MarkdownToPlainText(markdownContent: string) returns (text: string)
    ensures text == PlainText(markdownContent)
    ensures text == [] || (!IsSpace(text[0]) && !IsSpace(text[|text| - 1]))
    ensures NoTripleBreak(text)
  {
    text := StripHeaderMarks(markdownContent);
    text := RewriteListMarkers(text);
    CollapseNoTriple(text);
    text := CollapseBlankRuns(text);
    StripNoTriple(text);
    text := Strip(text);
  }

  /** After collapsing there are no three line breaks in a row, and a text
      that does not start with a line break keeps its first character. */
  lemma {:induction false} CollapseNoTriple(s: string)
    ensures NoTripleBreak(CollapseBlankRuns(s))
    ensures s != [] && s[0] != '\n' ==> CollapseBlankRuns(s) != [] && CollapseBlankRuns(s)[0] == s[0]
    decreases |s|
  {
    if s != [] {
      var r := RunOf(s, '\n');
      var out := CollapseBlankRuns(s);
      if r > 0 {
        var rest := CollapseBlankRuns(s[r..]);
        CollapseNoTriple(s[r..]);
        var head := if r >= 3 then "\n\n" else s[..r];
        assert out == head + rest;
        assert |head| <= 2;
        assert r < |s| ==> s[r..][0] == s[r];
        forall i | 0 <= i < |out| - 2 ensures !(out[i] == '\n' && out[i + 1] == '\n' && out[i + 2] == '\n') {
          if i >= |head| {
            assert out[i] == rest[i - |head|] && out[i + 1] == rest[i + 1 - |head|]
                   && out[i + 2] == rest[i + 2 - |head|];
          } else {
            assert out[|head|] == rest[0];
          }
        }
      } else {
        var rest := CollapseBlankRuns(s[1..]);
        CollapseNoTriple(s[1..]);
        assert out == [s[0]] + rest;
        forall i | 0 <= i < |out| - 2 ensures !(out[i] == '\n' && out[i + 1] == '\n' && out[i + 2] == '\n') {
          if i >= 1 {
            assert out[i] == rest[i - 1] && out[i + 1] == rest[i] && out[i + 2] == rest[i + 1];
          }
        }
      }
    }
  }

  /** Collapsing leaves a text without three line breaks in a row as it is. */
  lemma {:induction false} CollapseKeepsShortRuns(s: string)
    requires NoTripleBreak(s)
    ensures CollapseBlankRuns(s) == s
    decreases |s|
  {
    if s != [] {
      var r := RunOf(s, '\n');
      assert r < 3 by {
        if |s| >= 3 {
          assert !(s[0] == '\n' && s[1] == '\n' && s[2] == '\n');
        }
      }
      var k := if r > 0 then r else 1;
      assert NoTripleBreak(s[k..]) by {
        forall i | 0 <= i < |s[k..]| - 2
          ensures !(s[k..][i] == '\n' && s[k..][i + 1] == '\n' && s[k..][i + 2] == '\n')
        {
          assert s[k..][i] == s[k + i] && s[k..][i + 1] == s[k + i + 1] && s[k..][i + 2] == s[k + i + 2];
        }
      }
      CollapseKeepsShortRuns(s[k..]);
      assert s == s[..k] + s[k..];
    }
  }

  /** Collapsing is idempotent. */
  lemma CollapseIdempotent(s: string)
    ensures CollapseBlankRuns(CollapseBlankRuns(s)) == CollapseBlankRuns(s)
  {
    CollapseNoTriple(s);
    CollapseKeepsShortRuns(CollapseBlankRuns(s));
  }

  /** Stripping keeps a text free of three line breaks in a row. */
  lemma StripNoTriple(s: string)
    requires NoTripleBreak(s)
    ensures NoTripleBreak(Strip(s))
  {
    var lo := StripIsInfix(s);
    var t := Strip(s);
    forall i | 0 <= i < |t| - 2 ensures !(t[i] == '\n' && t[i + 1] == '\n' && t[i + 2] == '\n') {
      assert t[i] == s[lo + i] && t[i + 1] == s[lo + i + 1] && t[i + 2] == s[lo + i + 2];
    }
  }

  /** Without `#` there is nothing to strip. */
  lemma {:induction false} StripHeadersNoHash(s: string, lineStart: bool)
    requires '#' !in s
    ensures StripHeadersFrom(s, lineStart) == s
    decreases |s|
  {
    if s != [] {
      assert s[0] != '#';
      StripHeadersNoHash(s[1..], s[0] == '\n');
      assert s == [s[0]] + s[1..];
    }
  }

  /** Within a line (no line break ahead) nothing is stripped. */
  lemma {:induction false} StripHeadersMidLine(s: string)
    requires '\n' !in s
    ensures StripHeadersFrom(s, false) == s
    decreases |s|
  {
    if s != [] {
      assert s[0] != '\n';
      StripHeadersMidLine(s[1..]);
      assert s == [s[0]] + s[1..];
    }
  }

  /** Without `-`, `*` or `+` there is nothing to rewrite. */
  lemma {:induction false} RewriteListNoMarker(s: string, lineStart: bool)
    requires '-' !in s && '*' !in s && '+' !in s
    ensures RewriteListFrom(s, lineStart) == s
    decreases |s|
  {
    if s != [] {
      var w := SpaceRun(s);
      if w + 1 < |s| {
        assert s[w] in s;
      }
      assert ListMarkLen(s) == 0;
      assert forall c :: c in s[1..] ==> c in s;
      RewriteListNoMarker(s[1..], s[0] == '\n');
      assert s == [s[0]] + s[1..];
    }
  }

  /** Within a line (no line break ahead) nothing is rewritten. */
  lemma {:induction false} RewriteListMidLine(s: string)
    requires '\n' !in s
    ensures RewriteListFrom(s, false) == s
    decreases |s|
  {
    if s != [] {
      assert s[0] != '\n';
      RewriteListMidLine(s[1..]);
      assert s == [s[0]] + s[1..];
    }
  }

  /** A text with no markdown marks, no three line breaks in a row and no
      surrounding whitespace is its own plain text. */
  lemma PlainTextOfPlain(s: string)
    requires '#' !in s && '-' !in s && '*' !in s && '+' !in s
    requires NoTripleBreak(s)
    requires s == [] || (!IsSpace(s[0]) && !IsSpace(s[|s| - 1]))
    ensures PlainText(s) == s
  {
    StripHeadersNoHash(s, true);
    RewriteListNoMarker(s, true);
    CollapseKeepsShortRuns(s);
    assert TrimLeft(s) == s;
    assert TrimRight(s) == s;
  }

  /** A header line written by the converter loses its `# ` or `## ` again
      in step 1. */
  lemma HeaderMarkRoundTrip(line: string, marks: string)
    requires marks == "# " || marks == "## "
    requires line != [] && !IsSpace(line[0]) && '\n' !in line
    ensures StripHeaderMarks(marks + line) == line
  {
    var s := marks + line;
    var h := |marks| - 1;
    assert s[h] == ' ' && s[h + 1..] == line;
    assert RunOf(s[h..], '#') == 0;
    if h == 2 {
      assert RunOf(s, '#') == 1 + RunOf(s[1..], '#');
      assert s[1..][1..] == s[h..];
    }
    assert RunOf(s, '#') == h;
    assert SpaceRun(s[h..]) == 1 + SpaceRun(line) by {
      assert s[h..][1..] == line;
    }
    assert HeaderMarkLen(s) == h + 1;
    StripHeadersMidLine(line);
  }

  /** A list line written by the converter gets its bullet back in step 2. */
  lemma ListMarkRoundTrip(rest: string)
    requires rest != [] && !IsSpace(rest[0]) && '\n' !in rest
    ensures RewriteListMarkers("- " + rest) == "• " + rest
  {
    var s := "- " + rest;
    assert SpaceRun(s) == 0;
    assert s[1..] == " " + rest && (" " + rest)[1..] == rest;
    assert ListMarkLen(s) == 2;
    assert s[2..] == rest;
    RewriteListMidLine(rest);
  }

  /** Round trip of a header: converting a header line to markdown and
      stripping the header marks gives the stripped line back. */
  lemma HeaderLineRoundTrip(lines: seq<string>, i: nat, smart: Formatter)
    requires i < |lines| && '\n' !in lines[i]
    requires IsLikelyHeader(Strip(lines[i]), i, lines)
    ensures StripHeaderMarks(MarkdownLine(lines, i, smart)) == Strip(lines[i])
  {
    var line := Strip(lines[i]);
    StripKeepsOut(lines[i], '\n');
    var marks := if i == 0 || (i < 3 && |line| > 20) then "# " else "## ";
    HeaderMarkRoundTrip(line, marks);
  }

  /** Round trip of a bullet: a plain `• ` line that is not a header
      becomes a `- ` markdown line, and step 2 turns it back into the same
      line. */
  lemma BulletLineRoundTrip(lines: seq<string>, i: nat, smart: Formatter)
    requires i < |lines| && '\n' !in lines[i]
    requires |Strip(lines[i])| >= 2 && Strip(lines[i])[..2] == "• "
    requires !IsLikelyHeader(Strip(lines[i]), i, lines)
    requires !IsSpace(Strip(lines[i])[2])
    ensures RewriteListMarkers(MarkdownLine(lines, i, smart)) == Strip(lines[i])
  {
    var line := Strip(lines[i]);
    StripKeepsOut(lines[i], '\n');
    var rest := line[2..];
    assert rest[0] == line[2];
    assert forall k :: 0 <= k < |rest| ==> rest[k] == line[k + 2];
    assert IsListItem(line);
    ListMarkRoundTrip(rest);
    assert line == "• " + rest;
  }
}
