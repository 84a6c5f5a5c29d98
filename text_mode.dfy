/** The text-mode page (app/text-mode/page.tsx): the HTML-escaping
    markdown formatter, the line-by-line reader of the generation stream,
    and the replacement of a selected range of the response. */
module TextMode {
  import opened Wrappers
  import opened Strings
  import EventStream
  import GenerateStream

  // ---------------------------------------------------------------------
  // escapeHtml

  /** `str.replace(/c/g, r)` for a one-character pattern. */
  function ReplaceAll(s: string, c: char, r: string): (t: string)
    ensures c !in r ==> c !in t
  {
    if s == [] then "" else (if s[0] == c then r else [s[0]]) + ReplaceAll(s[1..], c, r)
  }

  lemma {:induction false} ReplaceAllAppend(a: string, b: string, c: char, r: string)
    ensures ReplaceAll(a + b, c, r) == ReplaceAll(a, c, r) + ReplaceAll(b, c, r)
  {
    if a != [] {
      assert (a + b)[0] == a[0];
      assert (a + b)[1..] == a[1..] + b;
      ReplaceAllAppend(a[1..], b, c, r);
    } else {
      assert a + b == b;
    }
  }

  /** `escapeHtml`: the five replacements in the order the page applies
      them, ampersands first. */
  function EscapeHtml(s: string): string
  {
    ReplaceAll(ReplaceAll(ReplaceAll(ReplaceAll(ReplaceAll(s, '&', "&amp;"), '<', "&lt;"), '>', "&gt;"), '"', "&quot;"), '\'', "&#039;")
  }

  /** The entity for one character. */
  function EscapeChar(c: char): (r: string)
    ensures r != []
  {
    match c
    case '&' => "&amp;"
    case '<' => "&lt;"
    case '>' => "&gt;"
    case '"' => "&quot;"
    case '\'' => "&#039;"
    case _ => [c]
  }

  /** Escaping one character at a time. */
  function Escaped(s: string): string
  {
    if s == [] then "" else EscapeChar(s[0]) + Escaped(s[1..])
  }

  lemma {:induction false} EscapeHtmlAppend(a: string, b: string)
    ensures EscapeHtml(a + b) == EscapeHtml(a) + EscapeHtml(b)
  {
    var a1, b1 := ReplaceAll(a, '&', "&amp;"), ReplaceAll(b, '&', "&amp;");
    ReplaceAllAppend(a, b, '&', "&amp;");
    var a2, b2 := ReplaceAll(a1, '<', "&lt;"), ReplaceAll(b1, '<', "&lt;");
    ReplaceAllAppend(a1, b1, '<', "&lt;");
    var a3, b3 := ReplaceAll(a2, '>', "&gt;"), ReplaceAll(b2, '>', "&gt;");
    ReplaceAllAppend(a2, b2, '>', "&gt;");
    var a4, b4 := ReplaceAll(a3, '"', "&quot;"), ReplaceAll(b3, '"', "&quot;");
    ReplaceAllAppend(a3, b3, '"', "&quot;");
    ReplaceAllAppend(a4, b4, '\'', "&#039;");
  }

  lemma {:induction false} ReplaceAllSingle(c: char, d: char, r: string)
    ensures ReplaceAll([c], d, r) == if c == d then r else [c]
  {
    assert [c][1..] == [];
  }

  lemma {:induction false} ReplaceAllAbsent(s: string, d: char, r: string)
    requires d !in s
    ensures ReplaceAll(s, d, r) == s
  {
    if s != [] {
      assert d !in s[1..];
      ReplaceAllAbsent(s[1..], d, r);
      assert s == [s[0]] + s[1..];
    }
  }

  /** The steps of the chain on one character, `d` being the first
      character replaced after the character's own entity was produced. */
  lemma {:induction false} EscapeHtmlChar(c: char)
    ensures EscapeHtml([c]) == EscapeChar(c)
  {
    ReplaceAllSingle(c, '&', "&amp;");
    if c == '&' {
      EscapeRest1("&amp;");
    } else {
      ReplaceAllSingle(c, '<', "&lt;");
      if c == '<' {
        EscapeRest2("&lt;");
      } else {
        EscapeTail(c);
      }
    }
  }

  lemma {:induction false} EscapeTail(c: char)
    requires c != '&' && c != '<'
    ensures ReplaceAll(ReplaceAll(ReplaceAll([c], '>', "&gt;"), '"', "&quot;"), '\'', "&#039;") == EscapeChar(c)
  {
    ReplaceAllSingle(c, '>', "&gt;");
    if c == '>' {
      ReplaceAllAbsent("&gt;", '"', "&quot;");
      ReplaceAllAbsent("&gt;", '\'', "&#039;");
    } else {
      ReplaceAllSingle(c, '"', "&quot;");
      if c == '"' {
        ReplaceAllAbsent("&quot;", '\'', "&#039;");
      } else {
        ReplaceAllSingle(c, '\'', "&#039;");
      }
    }
  }

  /** An entity the later replacements leave alone. */
  lemma {:induction false} EscapeRest1(x: string)
    requires '<' !in x && '>' !in x && '"' !in x && '\'' !in x
    ensures ReplaceAll(ReplaceAll(ReplaceAll(ReplaceAll(x, '<', "&lt;"), '>', "&gt;"), '"', "&quot;"), '\'', "&#039;") == x
  {
    ReplaceAllAbsent(x, '<', "&lt;");
    EscapeRest2(x);
  }

  lemma {:induction false} EscapeRest2(x: string)
    requires '>' !in x && '"' !in x && '\'' !in x
    ensures ReplaceAll(ReplaceAll(ReplaceAll(x, '>', "&gt;"), '"', "&quot;"), '\'', "&#039;") == x
  {
    ReplaceAllAbsent(x, '>', "&gt;");
    ReplaceAllAbsent(x, '"', "&quot;");
    ReplaceAllAbsent(x, '\'', "&#039;");
  }

  /** The chain of replacements escapes each character on its own: no
      replacement touches the text an earlier one produced. */
  lemma {:induction false} EscapeHtmlPerChar(s: string)
    ensures EscapeHtml(s) == Escaped(s)
  {
    if s != [] {
      assert s == [s[0]] + s[1..];
      EscapeHtmlAppend([s[0]], s[1..]);
      EscapeHtmlChar(s[0]);
      EscapeHtmlPerChar(s[1..]);
    }
  }

  /** No character that HTML would read as markup or as a quote. */
  predicate Inert(s: string)
  {
    forall i :: 0 <= i < |s| ==> s[i] != '<' && s[i] != '>' && s[i] != '"' && s[i] != '\''
  }

  /** Escaped text cannot open a tag or close an attribute. */
  lemma {:induction false} EscapedInert(s: string)
    ensures Inert(EscapeHtml(s))
  {
    EscapeHtmlPerChar(s);
    EscapedInertRec(s);
  }

  lemma {:induction false} EscapedInertRec(s: string)
    ensures Inert(Escaped(s))
  {
    if s != [] {
      EscapedInertRec(s[1..]);
      var e := EscapeChar(s[0]);
      assert Inert(e);
      var r := Escaped(s);
      assert r == e + Escaped(s[1..]);
      forall i | 0 <= i < |r| ensures r[i] != '<' && r[i] != '>' && r[i] != '"' && r[i] != '\'' {
        if i >= |e| { assert r[i] == Escaped(s[1..])[i - |e|]; }
      }
    }
  }

  /** Reading the five entities back. */
  function Unescape(s: string): string
  {
    if s == [] then ""
    else if s[0] != '&' then [s[0]] + Unescape(s[1..])
    else if StartsWith(s, "&amp;") then "&" + Unescape(s[5..])
    else if StartsWith(s, "&lt;") then "<" + Unescape(s[4..])
    else if StartsWith(s, "&gt;") then ">" + Unescape(s[4..])
    else if StartsWith(s, "&quot;") then "\"" + Unescape(s[6..])
    else if StartsWith(s, "&#039;") then "'" + Unescape(s[6..])
    else "&" + Unescape(s[1..])
  }

  /** Escaping loses nothing: the original text is read back. */
  lemma {:induction false} UnescapeEscapeHtml(s: string)
    ensures Unescape(EscapeHtml(s)) == s
  {
    EscapeHtmlPerChar(s);
    UnescapeEscaped(s);
  }

  lemma {:induction false} UnescapeEscaped(s: string)
    ensures Unescape(Escaped(s)) == s
  {
    if s != [] {
      var c := s[0];
      var rest := Escaped(s[1..]);
      var e := EscapeChar(c);
      var x := e + rest;
      assert Escaped(s) == x;
      UnescapeEscaped(s[1..]);
      UnescapeOne(c, rest);
      assert s == [c] + s[1..];
    }
  }

  lemma {:induction false} UnescapeOne(c: char, rest: string)
    ensures Unescape(EscapeChar(c) + rest) == [c] + Unescape(rest)
  {
    var x := EscapeChar(c) + rest;
    var e := EscapeChar(c);
    assert x[..|e|] == e;
    assert x[|e|..] == rest;
    if c == '<' || c == '>' {
      assert !StartsWith(x, "&amp;") by { if |x| >= 5 { assert x[..5][1] == x[1] == e[1]; } }
    } else if c == '"' {
      assert !StartsWith(x, "&amp;") by { assert x[..5][1] == x[1] == e[1]; }
      assert !StartsWith(x, "&lt;") by { assert x[..4][1] == x[1]; }
      assert !StartsWith(x, "&gt;") by { assert x[..4][1] == x[1]; }
    } else if c == '\'' {
      assert !StartsWith(x, "&amp;") by { assert x[..5][1] == x[1] == e[1]; }
      assert !StartsWith(x, "&lt;") by { assert x[..4][1] == x[1]; }
      assert !StartsWith(x, "&gt;") by { assert x[..4][1] == x[1]; }
      assert !StartsWith(x, "&quot;") by { assert x[..6][1] == x[1]; }
    }
  }

  // ---------------------------------------------------------------------
  // formatMarkdownText

  /** The placeholder kinds of the formatter and the tags each becomes. */
  datatype Style = Triple | DoubleHeader | Double | Single | PatternHeader | CharName

  /** A line after the asterisk and header patterns have been recognised:
      plain text, and the pieces each pattern marked. */
  datatype Segment = Plain(text: string) | Styled(style: Style, text: string)

  function Open(st: Style): string
  {
    "<" + OpenAttributes(st)
  }

  /** What follows `<` in each style's opening tag. */
  function OpenAttributes(st: Style): string
  {
    match st
    case Triple => "span style=\"display: block; font-size: 1.25rem; font-weight: 700; color: #4ade80; margin-top: 1.5rem; margin-bottom: 0.75rem;\">"
    case DoubleHeader => "span style=\"display: block; font-weight: 700; color: #fbbf24; margin-top: 1rem; margin-bottom: 0.5rem;\">"
    case Double => "strong style=\"font-weight: 600; color: #ffffff;\">"
    case Single => "em style=\"font-style: italic; color: #d1d5db;\">"
    case PatternHeader => "span style=\"display: block; font-weight: 700; color: #22d3ee; margin-top: 0.75rem; margin-bottom: 0.25rem; font-size: 1.1rem;\">"
    case CharName => "span style=\"font-weight: 700; color: #60a5fa; display: inline-block; margin-top: 0.5rem;\">"
  }

  function Close(st: Style): string
  {
    match st
    case Double => "</strong>"
    case Single => "</em>"
    case _ => "</span>"
  }

  /** A line's HTML: its text escaped, the marked pieces inside their tags. */
  function Render(segs: seq<Segment>): string
  {
    if segs == [] then "" else SegmentHtml(segs[0]) + Render(segs[1..])
  }

  /** One segment's HTML: its text escaped, inside its tags when marked. */
  function SegmentHtml(x: Segment): string
  {
    match x
    case Plain(t) => EscapeHtml(t)
    case Styled(st, t) => Open(st) + EscapeHtml(t) + Close(st)
  }

  /** The text of the segments, without markup. */
  function Text(segs: seq<Segment>): string
  {
    if segs == [] then "" else segs[0].text + Text(segs[1..])
  }

  /** The placeholder the marking stage writes before a piece of each
      style. */
  function StartMark(st: Style): (m: string)
    ensures |m| > 2 && m[..2] == "__"
    ensures StarFree(m)
  {
    match st
    case Triple => "__TRIPLE_START__"
    case DoubleHeader => "__DOUBLE_HEADER__"
    case Double => "__DOUBLE_START__"
    case Single => "__SINGLE_START__"
    case PatternHeader => "__PATTERN_HEADER__"
    case CharName => "__CHAR_START__"
  }

  /** The placeholder written after a piece; bold headers share the bold
      end placeholder. */
  function EndMark(st: Style): (m: string)
    ensures |m| > 2 && m[..2] == "__"
    ensures StarFree(m)
  {
    match st
    case Triple => "__TRIPLE_END__"
    case DoubleHeader => "__DOUBLE_END__"
    case Double => "__DOUBLE_END__"
    case Single => "__SINGLE_END__"
    case PatternHeader => "__PATTERN_END__"
    case CharName => "__CHAR_END__"
  }

  /** The line after the marking stage: plain text as it was, each marked
      piece between its style's placeholders. */
  function Marked(segs: seq<Segment>): string
  {
    if segs == [] then ""
    else
      (match segs[0]
       case Plain(t) => t
       case Styled(st, t) => StartMark(st) + t + EndMark(st))
      + Marked(segs[1..])
  }

  /** A piece of the text the replacement passes work on: a character, or
      a tag a pass has put in. A tag is kept whole because no later pass can
      match inside it: the tags hold no underscore, and every placeholder
      begins with one. */
  datatype Piece = Ch(c: char) | Tag(style: Style, opening: bool)

  /** The characters of a text, as pieces. */
  function Chars(s: string): (r: seq<Piece>)
    ensures |r| == |s| && forall i :: 0 <= i < |s| ==> r[i] == Ch(s[i])
  {
    if s == [] then [] else [Ch(s[0])] + Chars(s[1..])
  }

  /** The HTML of one piece. */
  function Spell(x: Piece): string
  {
    match x
    case Ch(c) => [c]
    case Tag(st, opening) => if opening then Open(st) else Close(st)
  }

  /** The HTML of the pieces, each tag spelled out. */
  function Html(p: seq<Piece>): string
  {
    if p == [] then "" else Spell(p[0]) + Html(p[1..])
  }

  /** The pieces begin with the characters of `m`. */
  predicate At(p: seq<Piece>, m: string)
  {
    |m| <= |p| && forall i :: 0 <= i < |m| ==> p[i] == Ch(m[i])
  }

  /** What `[^_]+` takes at the head of `p`: the longest prefix without an
      underscore. */
  function HeadRun(p: seq<Piece>): (r: seq<Piece>)
    ensures |r| <= |p| && r == p[..|r|]
    ensures Ch('_') !in r
    ensures |r| < |p| ==> p[|r|] == Ch('_')
  {
    if p == [] || p[0] == Ch('_') then [] else [p[0]] + HeadRun(p[1..])
  }

  /** The rest of a line after a start placeholder completes a match: a
      non-empty run without underscores, then the end placeholder. Since
      the end placeholder begins with `_`, no shorter run can match. */
  predicate Closes(rest: seq<Piece>, end: string)
  {
    var run := HeadRun(rest);
    run != [] && At(rest[|run|..], end)
  }

  /** `s.replace(/START([^_]+)END/g, OPEN + '$1' + CLOSE)` for the style
      `st`: scanning left to right, a `start` placeholder that `Closes`
      becomes its run between the style's tags, and every other piece is
      kept. */
  function Substitute(p: seq<Piece>, start: string, end: string, st: Style): (r: seq<Piece>)
    requires start != []
    ensures forall x :: x in r ==> x in p || x.Tag?
    decreases |p|
  {
    if p == [] then []
    else if At(p, start) && Closes(p[|start|..], end) then
      var rest := p[|start|..];
      var run := HeadRun(rest);
      assert run == p[|start|..|start| + |run|];
      assert rest[|run| + |end|..] == p[|start| + |run| + |end|..];
      [Tag(st, true)] + run + [Tag(st, false)] + Substitute(rest[|run| + |end|..], start, end, st)
    else [p[0]] + Substitute(p[1..], start, end, st)
  }

  /** The replacement of one style's placeholders by its tags. */
  function Pass(p: seq<Piece>, st: Style): seq<Piece>
  {
    Substitute(p, StartMark(st), EndMark(st), st)
  }

  /** The styles in the order the page replaces their placeholders. */
  const PageOrder: seq<Style> := [Triple, DoubleHeader, Double, Single, PatternHeader, CharName]

  /** The placeholder replacements of `order`, first to last. */
  function Passes(p: seq<Piece>, order: seq<Style>): seq<Piece>
    decreases |order|
  {
    if order == [] then p else Passes(Pass(p, order[0]), order[1..])
  }

  /** A line's HTML as the page computes it: the marked line escaped as a
      whole, then the placeholders replaced by tags. */
  function RenderAsWritten(segs: seq<Segment>): string
  {
    RenderMarked(Marked(segs))
  }

  /** A marked line escaped as a whole, then its placeholders replaced by
      tags. */
  function RenderMarked(m: string): string
  {
    Html(Passes(Chars(EscapeHtml(m)), PageOrder))
  }

  /** Text without the characters `escapeHtml` replaces is left as it is. */
  lemma {:induction false} EscapeHtmlPlain(s: string)
    requires '&' !in s && '<' !in s && '>' !in s && '"' !in s && '\'' !in s
    ensures EscapeHtml(s) == s
  {
    ReplaceAllAbsent(s, '&', "&amp;");
    ReplaceAllAbsent(s, '<', "&lt;");
    EscapeRest2(s);
  }

  lemma {:induction false} CharsAppend(a: string, b: string)
    ensures Chars(a + b) == Chars(a) + Chars(b)
  {
    assert |Chars(a + b)| == |Chars(a) + Chars(b)|;
    assert forall i :: 0 <= i < |a + b| ==> Chars(a + b)[i] == (Chars(a) + Chars(b))[i];
  }

  lemma {:induction false} HtmlAppend(p: seq<Piece>, q: seq<Piece>)
    ensures Html(p + q) == Html(p) + Html(q)
    decreases |p|
  {
    if p == [] {
      assert p + q == q;
    } else {
      assert (p + q)[0] == p[0];
      assert (p + q)[1..] == p[1..] + q;
      HtmlAppend(p[1..], q);
    }
  }

  /** Characters spell themselves. */
  lemma {:induction false} HtmlChars(s: string)
    ensures Html(Chars(s)) == s
    decreases |s|
  {
    if s != [] {
      assert Chars(s)[1..] == Chars(s[1..]);
      HtmlChars(s[1..]);
      assert s == [s[0]] + s[1..];
    }
  }

  /** Pieces lacking a character of `m` do not begin with `m`. */
  lemma {:induction false} NotAt(p: seq<Piece>, m: string, c: char)
    requires c in m && Ch(c) !in p
    ensures !At(p, m)
  {
    var i :| 0 <= i < |m| && m[i] == c;
    if |m| <= |p| {
      assert p[i] in p;
    }
  }

  /** A replacement whose start placeholder holds a character the pieces
      lack changes nothing. */
  lemma {:induction false} SubstituteIdle(p: seq<Piece>, start: string, end: string, st: Style, c: char)
    requires c in start && Ch(c) !in p
    ensures Substitute(p, start, end, st) == p
    decreases |p|
  {
    if p != [] {
      NotAt(p, start, c);
      assert Ch(c) !in p[1..];
      SubstituteIdle(p[1..], start, end, st, c);
      assert p == [p[0]] + p[1..];
    }
  }

  lemma {:induction false} CharsDrop(s: string, k: nat)
    requires k <= |s|
    ensures Chars(s)[k..] == Chars(s[k..])
  {
    assert |Chars(s)[k..]| == |Chars(s[k..])|;
    assert forall i :: 0 <= i < |s| - k ==> Chars(s)[k..][i] == Chars(s[k..])[i];
  }

  /** `[^_]+` stops exactly at the first underscore. */
  lemma {:induction false} HeadRunAt(a: seq<Piece>, b: seq<Piece>)
    requires Ch('_') !in a && (b == [] || b[0] == Ch('_'))
    ensures HeadRun(a + b) == a
    decreases |a|
  {
    if a == [] {
      assert a + b == b;
    } else {
      assert (a + b)[1..] == a[1..] + b;
      assert Ch('_') !in a[1..];
      HeadRunAt(a[1..], b);
      assert a == [a[0]] + a[1..];
    }
  }

  /** A match at the head of the pieces: the run between the placeholders
      comes out between the tags. */
  lemma {:induction false} SubstituteOne(r: seq<Piece>, start: string, end: string, st: Style)
    requires start != [] && r != [] && Ch('_') !in r && |end| > 0 && end[0] == '_'
    ensures Substitute(Chars(start) + r + Chars(end), start, end, st) == [Tag(st, true)] + r + [Tag(st, false)]
  {
    var p := Chars(start) + r + Chars(end);
    assert At(p, start);
    var rest := p[|start|..];
    assert rest == r + Chars(end);
    HeadRunAt(r, Chars(end));
    assert rest[|r|..] == Chars(end);
    assert rest[|r| + |end|..] == [];
  }

  /** The same, for the characters of a word. */
  lemma {:induction false} SubstituteHead(w: string, start: string, end: string, st: Style)
    requires start != [] && w != [] && '_' !in w && |end| > 0 && end[0] == '_'
    ensures Substitute(Chars(start + w + end), start, end, st) == [Tag(st, true)] + Chars(w) + [Tag(st, false)]
  {
    CharsAppend(start + w, end);
    CharsAppend(start, w);
    assert Ch('_') !in Chars(w) by {
      forall i | 0 <= i < |w| ensures Chars(w)[i] != Ch('_') {
        assert w[i] in w;
      }
    }
    SubstituteOne(Chars(w), start, end, st);
  }

  /** No match at the head: the run is followed by an underscore and then a
      character the end placeholder does not have there. */
  lemma {:induction false} SubstituteMiss(a: string, b: string, start: string, end: string, st: Style)
    requires start != [] && a != [] && '_' !in a && |b| >= 2 && b[0] == '_' && b[1] != '_'
    requires |end| >= 2 && end[..2] == "__"
    ensures var x := Substitute(Chars(start + (a + b) + end), start, end, st);
      |x| > 0 && x[0] == Ch(start[0])
  {
    var s := start + (a + b) + end;
    var p := Chars(s);
    var rest := p[|start|..];
    assert rest == Chars(a) + Chars(b + end) by {
      CharsDrop(s, |start|);
      assert s[|start|..] == a + (b + end);
      CharsAppend(a, b + end);
    }
    assert HeadRun(rest) == Chars(a) by {
      HeadRunAt(Chars(a), Chars(b + end));
    }
    assert !Closes(rest, end) by {
      assert rest[|a|..] == Chars(b + end);
      assert end[1] == '_' by { assert end[..2][1] == end[1]; }
      assert Chars(b + end)[1] == Ch(b[1]);
    }
    assert Substitute(p, start, end, st) == [p[0]] + Substitute(p[1..], start, end, st);
  }

  /** Each other pass's start placeholder holds a letter that the bold
      placeholders lack. */
  lemma {:induction false} PassLetters()
    ensures 'I' in StartMark(Triple) && 'H' in StartMark(DoubleHeader) && 'I' in StartMark(Single) &&
            'P' in StartMark(PatternHeader) && 'H' in StartMark(CharName)
  {
    assert StartMark(Triple)[4] == 'I';
    assert StartMark(DoubleHeader)[9] == 'H';
    assert StartMark(Single)[3] == 'I';
    assert StartMark(PatternHeader)[2] == 'P';
    assert StartMark(CharName)[3] == 'H';
  }

  /** The passes other than the bold one, each on pieces lacking the letter
      that tells its placeholder apart. */
  lemma {:induction false} OtherPassesIdle(p: seq<Piece>)
    ensures Ch('I') !in p ==> Pass(p, Triple) == p && Pass(p, Single) == p
    ensures Ch('H') !in p ==> Pass(p, DoubleHeader) == p && Pass(p, CharName) == p
    ensures Ch('P') !in p ==> Pass(p, PatternHeader) == p
  {
    PassLetters();
    if Ch('I') !in p {
      SubstituteIdle(p, StartMark(Triple), EndMark(Triple), Triple, 'I');
      SubstituteIdle(p, StartMark(Single), EndMark(Single), Single, 'I');
    }
    if Ch('H') !in p {
      SubstituteIdle(p, StartMark(DoubleHeader), EndMark(DoubleHeader), DoubleHeader, 'H');
      SubstituteIdle(p, StartMark(CharName), EndMark(CharName), CharName, 'H');
    }
    if Ch('P') !in p {
      SubstituteIdle(p, StartMark(PatternHeader), EndMark(PatternHeader), PatternHeader, 'P');
    }
  }

  lemma {:induction false} PassesStep(p: seq<Piece>, order: seq<Style>)
    requires order != []
    ensures Passes(p, order) == Passes(Pass(p, order[0]), order[1..])
  {
  }

  /** The page's passes on pieces lacking I, H and P: only the bold pass
      acts, and the pieces it gives back lack them too. */
  lemma {:induction false} OnlyBoldActs(p: seq<Piece>)
    requires Ch('I') !in p && Ch('H') !in p && Ch('P') !in p
    ensures Passes(p, PageOrder) == Pass(p, Double)
  {
    var x := Pass(p, Double);
    OtherPassesIdle(p);
    OtherPassesIdle(x);
    var o := PageOrder;
    assert o[0] == Triple && o[1] == DoubleHeader && o[2] == Double && o[3] == Single &&
           o[4] == PatternHeader && o[5] == CharName && |o| == 6;
    PassesStep(p, o);
    PassesStep(p, o[1..]);
    PassesStep(p, o[2..]);
    PassesStep(x, o[3..]);
    PassesStep(x, o[4..]);
    PassesStep(x, o[5..]);
    assert o[1..][1..] == o[2..] && o[2..][1..] == o[3..] && o[3..][1..] == o[4..] &&
           o[4..][1..] == o[5..] && o[5..][1..] == [];
  }

  /** Free of the letters that tell the other passes' placeholders apart
      and of the characters `escapeHtml` replaces. */
  predicate Safe(s: string)
  {
    forall i :: 0 <= i < |s| ==>
      s[i] != 'I' && s[i] != 'H' && s[i] != 'P' &&
      s[i] != '&' && s[i] != '<' && s[i] != '>' && s[i] != '"' && s[i] != '\''
  }

  /** A bold piece of lower-case text, marked with the bold placeholders
      and escaped: the escaping changes nothing, and the pieces lack I, H
      and P. */
  lemma {:induction false} BoldMarked(t: string)
    requires forall c :: c in t ==> 'a' <= c <= 'z' || c == '_'
    ensures var m := StartMark(Double) + t + EndMark(Double);
      EscapeHtml(m) == m && Ch('I') !in Chars(m) && Ch('H') !in Chars(m) && Ch('P') !in Chars(m)
  {
    var start, end := StartMark(Double), EndMark(Double);
    var m := start + t + end;
    assert Safe(start) && Safe(end);
    assert Safe(t) by {
      forall i | 0 <= i < |t| ensures 'a' <= t[i] <= 'z' || t[i] == '_' {
        assert t[i] in t;
      }
    }
    assert Safe(m) by {
      forall i | 0 <= i < |m|
        ensures m[i] == (if i < |start| then start[i] else if i < |start| + |t| then t[i - |start|] else end[i - |start| - |t|])
      {
      }
    }
    EscapeHtmlPlain(m);
  }

  /** Placeholders are matched with `([^_]+)`, so bold text holding an
      underscore, such as `**snake_case**` (`a` = "snake", `b` = "_case"),
      is never substituted: the line opens with the placeholder's
      underscores, not with the bold tag it was meant to open with. Here
      `a` has no underscore and `b` starts with an underscore not followed
      by another: the bold pass finds no end placeholder after the run `a`,
      and no other pass acts. */
  lemma {:induction false} UnderscoreNotBold(a: string, b: string)
    requires a != [] && '_' !in a && |b| >= 2 && b[0] == '_' && b[1] != '_'
    requires forall c :: c in a + b ==> 'a' <= c <= 'z' || c == '_'
    ensures !StartsWith(RenderAsWritten([Styled(Double, a + b)]), Open(Double))
    ensures StartsWith(Render([Styled(Double, a + b)]), Open(Double))
  {
    var t := a + b;
    var start, end := StartMark(Double), EndMark(Double);
    var m := start + t + end;
    OneSegment(Double, t);
    assert Marked([Styled(Double, t)]) == m;
    BoldMarked(t);
    OnlyBoldActs(Chars(m));
    var x := Pass(Chars(m), Double);
    assert RenderAsWritten([Styled(Double, t)]) == Html(x);
    SubstituteMiss(a, b, start, end, Double);
    assert Html(x) == "_" + Html(x[1..]) by {
      assert x[0] == Ch('_');
    }
    TagOpensWithLt(Double);
    NotPrefix(Html(x), Open(Double));
    PrefixOfFour(Open(Double), EscapeHtml(t), Close(Double), "");
  }

  /** Every opening tag begins with `<`. */
  lemma TagOpensWithLt(st: Style)
    ensures |Open(st)| > 0 && Open(st)[0] == '<'
  {
    assert Open(st) == "<" + OpenAttributes(st);
  }

  /** A run between two pieces, spelled out. */
  lemma {:induction false} HtmlBetween(x: Piece, w: string, y: Piece)
    ensures Html([x] + Chars(w) + [y]) == Spell(x) + w + Spell(y)
  {
    HtmlAppend([x] + Chars(w), [y]);
    HtmlAppend([x], Chars(w));
    HtmlChars(w);
    assert [x][1..] == [] && [y][1..] == [];
  }

  lemma {:induction false} NotPrefix(x: string, p: string)
    requires |x| > 0 && |p| > 0 && x[0] != p[0]
    ensures !StartsWith(x, p)
  {
  }

  lemma {:induction false} PrefixOfFour(p: string, q: string, r: string, u: string)
    ensures StartsWith(p + q + r + u, p)
  {
    assert (p + q + r + u)[..|p|] == p;
  }

  /** A one-segment line, marked and rendered as intended. */
  lemma {:induction false} OneSegment(st: Style, t: string)
    ensures Marked([Styled(st, t)]) == StartMark(st) + t + EndMark(st) + ""
    ensures Render([Styled(st, t)]) == Open(st) + EscapeHtml(t) + Close(st) + ""
  {
    assert [Styled(st, t)][1..] == [];
  }

  /** A plain text holding the bold placeholders around a word comes out
      bold, though nothing in it was marked. */
  lemma {:induction false} LiteralPlaceholderBold(w: string)
    requires w != [] && forall c :: c in w ==> 'a' <= c <= 'z'
    ensures RenderAsWritten([Plain(StartMark(Double) + w + EndMark(Double))]) == Render([Styled(Double, w)])
  {
    var start, end := StartMark(Double), EndMark(Double);
    var m := start + w + end;
    assert [Plain(m)][1..] == [];
    assert Marked([Plain(m)]) == m + "";
    assert m + "" == m;
    BoldMarked(w);
    OnlyBoldActs(Chars(m));
    SubstituteHead(w, start, end, Double);
    var x := [Tag(Double, true)] + Chars(w) + [Tag(Double, false)];
    assert RenderAsWritten([Plain(m)]) == Html(x);
    HtmlBetween(Tag(Double, true), w, Tag(Double, false));
    OneSegment(Double, w);
    assert EscapeHtml(w) == w by {
      assert forall c :: c in w ==> 'a' <= c <= 'z';
      EscapeHtmlPlain(w);
    }
  }

  // ---------------------------------------------------------------------
  // The marking stage of formatMarkdownText

  predicate StarFree(s: string)
  {
    forall i :: 0 <= i < |s| ==> s[i] != '*'
  }

  predicate NotStar(c: char)
  {
    c != '*'
  }

  /** What `[^*\n]` accepts. */
  predicate ItalicChar(c: char)
  {
    c != '*' && c != '\n'
  }

  predicate IsDigitChar(c: char)
  {
    '0' <= c <= '9'
  }

  predicate IsLetter(c: char)
  {
    'a' <= c <= 'z' || 'A' <= c <= 'Z'
  }

  /** The length of the longest prefix of `s` whose characters all satisfy
      `p`: what a greedy `[…]*` takes. */
  function Run(s: string, p: char -> bool): (n: nat)
    ensures n <= |s|
    ensures forall i :: 0 <= i < n ==> p(s[i])
    ensures n < |s| ==> !p(s[n])
  {
    if s != [] && p(s[0]) then 1 + Run(s[1..], p) else 0
  }

  /** `k` asterisks start at position `i` of `s`. */
  predicate StarsFrom(s: string, i: nat, k: nat)
  {
    i + k <= |s| && forall j :: i <= j < i + k ==> s[j] == '*'
  }

  /** The segments of a text with nothing marked. */
  function PlainOf(s: string): (r: seq<Segment>)
    ensures Marked(r) == s
  {
    if s == [] then [] else [Plain(s)]
  }

  /** One unmatched character kept in front of the segments, joined to the
      plain text that follows it. */
  function Cons(c: char, segs: seq<Segment>): (r: seq<Segment>)
    ensures Marked(r) == [c] + Marked(segs)
  {
    if segs != [] && segs[0].Plain? then
      var r := [Plain([c] + segs[0].text)] + segs[1..];
      assert r[1..] == segs[1..];
      r
    else
      var r := [Plain([c])] + segs;
      assert r[1..] == segs;
      r
  }

  /** How many asterisks open and close a triple or a double piece. */
  function Width(triple: bool): nat
  {
    if triple then 3 else 2
  }

  /** After the opening asterisks: a non-empty run without `*` and then the
      closing asterisks. Since the content cannot hold `*`, the lazy
      `([^*]+?)` can only end at the first asterisk. */
  predicate FenceCloses(rest: string, k: nat)
  {
    var n := Run(rest, NotStar);
    n > 0 && StarsFrom(rest, n, k)
  }

  /** The piece a match with content `c` becomes: a triple piece holds the
      trimmed content; a double piece whose trimmed content ends with `:` is
      a bold header holding the trimmed content, and otherwise a bold piece
      holding the content as it was. */
  function FencePiece(triple: bool, c: string): Segment
  {
    if triple then Styled(Triple, Trim(c))
    else if EndsWith(Trim(c), ":") then Styled(DoubleHeader, Trim(c))
    else Styled(Double, c)
  }

  /** The global replacement of `\*\*\*([^*]+?)\*\*\*` (`triple`) or of
      `\*\*([^*]+?)\*\*`: scanning left to right, a match
      becomes its piece and scanning resumes after it; any other character
      is kept. */
  function Fenced(s: string, triple: bool): seq<Segment>
    decreases |s|
  {
    var k := Width(triple);
    if s == [] then []
    else if StarsFrom(s, 0, k) && FenceCloses(s[k..], k) then
      var n := Run(s[k..], NotStar);
      [FencePiece(triple, s[k..k + n])] + Fenced(s[k + n + k..], triple)
    else Cons(s[0], Fenced(s[1..], triple))
  }

  /** After an opening `*`: a non-empty run without `*` or a line break,
      then a `*` not followed by another. */
  predicate ItalicCloses(rest: string)
  {
    var n := Run(rest, ItalicChar);
    n > 0 && n < |rest| && rest[n] == '*' && (n + 1 == |rest| || rest[n + 1] != '*')
  }

  /** `s.replace(/(?<!\*)\*([^*\n]+?)\*(?!\*)/g, …)`; `afterStar` says
      whether the character before `s` in the text being scanned is `*`,
      which the look-behind forbids. After a match that character is its
      closing `*`. */
  function Italic(s: string, afterStar: bool): seq<Segment>
    decreases |s|
  {
    if s == [] then []
    else if s[0] == '*' && !afterStar && ItalicCloses(s[1..]) then
      var n := Run(s[1..], ItalicChar);
      [Styled(Single, s[1..1 + n])] + Italic(s[n + 2..], true)
    else Cons(s[0], Italic(s[1..], s[0] == '*'))
  }

  /** `s` begins with the letters of the lower-case word `w`, in either
      case, followed by `:`. */
  predicate KeywordColon(s: string, w: string)
  {
    |s| > |w| && ToLower(s[..|w|]) == w && s[|w|] == ':'
  }

  /** The match of `Scene\s*\d+:` (any case) at the start of `s`, or 0.
      Spaces and digits are disjoint, so the greedy runs need no
      backtracking. */
  function SceneColon(s: string): (n: nat)
    ensures n <= |s|
  {
    if |s| >= 5 && ToLower(s[..5]) == "scene" then
      var sp := Run(s[5..], IsSpace);
      var d := Run(s[5 + sp..], IsDigitChar);
      if d > 0 && 5 + sp + d < |s| && s[5 + sp + d] == ':' then 5 + sp + d + 1 else 0
    else 0
  }

  /** The length of what
      `/^(Title|Scene\s*\d+|Setting|Action|Dialogue|Text overlay):/i`
      matches at the start of `s`, colon included; 0 when nothing does.
      The `i` flag without `u` folds ASCII letters only. */
  function HeaderLength(s: string): (n: nat)
    ensures n <= |s|
  {
    if KeywordColon(s, "title") then 6
    else if SceneColon(s) > 0 then SceneColon(s)
    else if KeywordColon(s, "setting") then 8
    else if KeywordColon(s, "action") then 7
    else if KeywordColon(s, "dialogue") then 9
    else if KeywordColon(s, "text overlay") then 13
    else 0
  }

  /** The script-pattern pass: the matched prefix becomes a pattern header. */
  function HeaderMark(s: string): seq<Segment>
  {
    var n := HeaderLength(s);
    if n == 0 then [Plain(s)] else [Styled(PatternHeader, s[..n]), Plain(s[n..])]
  }

  /** The length of the name that `^[A-Z][a-zA-Z]*:` matches at the start
      of `s`, colon excluded; 0 when it does not match. */
  function NameLength(s: string): (n: nat)
    ensures n > 0 ==> n < |s| && s[n] == ':'
  {
    if s != [] && 'A' <= s[0] <= 'Z' then
      var n := 1 + Run(s[1..], IsLetter);
      if n < |s| && s[n] == ':' then n else 0
    else 0
  }

  /** The character-name pass: only on a text without `__`, the name, its
      colon and the whitespace after it become a character-name piece. */
  function CharMark(s: string): seq<Segment>
  {
    var n := NameLength(s);
    if n > 0 && !Contains(s, "__") then
      var sp := Run(s[n + 1..], IsSpace);
      [Styled(CharName, s[..n + 1 + sp]), Plain(s[n + 1 + sp..])]
    else [Plain(s)]
  }

  function Triples(s: string): seq<Segment>
  {
    Fenced(s, true)
  }

  function Doubles(s: string): seq<Segment>
  {
    Fenced(s, false)
  }

  function Singles(s: string): seq<Segment>
  {
    Italic(s, false)
  }

  /** The marking stage as the page runs it: each pass rewrites the whole
      text the previous one wrote, placeholders included. */
  function MarkLine(line: string): string
  {
    var tripled := Marked(Triples(line));
    var bolded := Marked(Doubles(tripled));
    var italic := Marked(Singles(bolded));
    var headed := Marked(HeaderMark(italic));
    Marked(CharMark(headed))
  }

  /** `f` applied to each plain segment; marked pieces are kept. */
  function Lift(segs: seq<Segment>, f: string -> seq<Segment>): seq<Segment>
  {
    if segs == [] then []
    else (if segs[0].Plain? then f(segs[0].text) else [segs[0]]) + Lift(segs[1..], f)
  }

  predicate AllPlain(segs: seq<Segment>)
  {
    forall i :: 0 <= i < |segs| ==> segs[i].Plain?
  }

  /** The corrected marking stage: the same passes, each applied to the
      text the earlier passes left plain, so no pass sees a placeholder and
      no piece is marked inside another. */
  function MarkSegments(line: string): seq<Segment>
  {
    var tripled := Triples(line);
    var bolded := Lift(tripled, Doubles);
    var italic := Lift(bolded, Singles);
    var headed := if italic != [] && italic[0].Plain? then HeaderMark(italic[0].text) + italic[1..] else italic;
    if AllPlain(headed) then CharMark(Text(headed)) else headed
  }

  /** An unmatched first character joins the plain rest of the text. */
  lemma {:induction false} ConsPlain(s: string)
    requires s != []
    ensures Cons(s[0], PlainOf(s[1..])) == PlainOf(s)
  {
    if s[1..] == [] {
      assert s == [s[0]];
    } else {
      assert [s[0]] + s[1..] == s;
    }
  }

  /** A run ends at the first character `p` refuses. */
  lemma {:induction false} RunStops(s: string, p: char -> bool, k: nat)
    requires k < |s| && !p(s[k])
    requires forall i :: 0 <= i < k ==> p(s[i])
    ensures Run(s, p) == k
  {
  }

  /** Three texts without asterisks, joined. */
  lemma {:induction false} StarFreeJoin(a: string, t: string, b: string)
    requires StarFree(a) && StarFree(t) && StarFree(b)
    ensures StarFree(a + t + b)
  {
    var m := a + t + b;
    forall i | 0 <= i < |m| ensures m[i] != '*' {
      if i < |a| {
        assert m[i] == a[i];
      } else if i < |a| + |t| {
        assert m[i] == t[i - |a|];
      } else {
        assert m[i] == b[i - |a| - |t|];
      }
    }
  }

  /** A pass over a text with no run of `k` asterisks keeps it plain. */
  lemma {:induction false} FencedUnfenced(s: string, triple: bool)
    requires forall i :: 0 <= i < |s| ==> !StarsFrom(s, i, Width(triple))
    ensures Fenced(s, triple) == PlainOf(s)
    decreases |s|
  {
    if s != [] {
      var k := Width(triple);
      assert !StarsFrom(s, 0, k);
      forall i | 0 <= i < |s[1..]| ensures !StarsFrom(s[1..], i, k) {
        StarsShift(s, i, k);
      }
      FencedUnfenced(s[1..], triple);
      assert Fenced(s, triple) == Cons(s[0], Fenced(s[1..], triple));
      ConsPlain(s);
    }
  }

  lemma {:induction false} StarsShift(s: string, i: nat, k: nat)
    requires s != []
    ensures StarsFrom(s[1..], i, k) <==> StarsFrom(s, i + 1, k)
  {
    if i + 1 + k <= |s| {
      assert forall j :: i <= j < i + k ==> s[1..][j] == s[j + 1];
    }
  }

  /** A text without asterisks holds no fence. */
  lemma {:induction false} StarFreeUnfenced(s: string, triple: bool)
    requires StarFree(s)
    ensures Fenced(s, triple) == PlainOf(s)
  {
    forall i | 0 <= i < |s| ensures !StarsFrom(s, i, Width(triple)) {
      assert s[i] != '*';
    }
    FencedUnfenced(s, triple);
  }

  /** The italic pass keeps a text without asterisks plain. */
  lemma {:induction false} StarFreeItalic(s: string, afterStar: bool)
    requires StarFree(s)
    ensures Italic(s, afterStar) == PlainOf(s)
    decreases |s|
  {
    if s != [] {
      assert s[0] != '*';
      assert StarFree(s[1..]) by {
        forall i | 0 <= i < |s[1..]| ensures s[1..][i] != '*' {
          assert s[1..][i] == s[i + 1];
        }
      }
      StarFreeItalic(s[1..], false);
      if s[1..] == [] {
        assert s == [s[0]];
      } else {
        assert [s[0]] + s[1..] == s;
      }
    }
  }

  /** Neither start-of-line pattern matches a text that does not begin
      with a letter. */
  lemma {:induction false} NoLeadingLetter(s: string)
    requires s != [] && !IsLetter(s[0])
    ensures HeaderMark(s) == [Plain(s)] && CharMark(s) == [Plain(s)]
  {
    assert LowerChar(s[0]) == s[0];
    forall w: string | w != [] && IsLetter(w[0]) ensures !KeywordColon(s, w) {
      if |s| > |w| {
        assert ToLower(s[..|w|])[0] == s[0];
      }
    }
    assert !KeywordColon(s, "title") && !KeywordColon(s, "setting") && !KeywordColon(s, "action") &&
      !KeywordColon(s, "dialogue") && !KeywordColon(s, "text overlay");
    if |s| >= 5 {
      assert ToLower(s[..5])[0] == s[0];
    }
  }

  /** A marked text beginning with a placeholder. */
  lemma {:induction false} PlaceholderFirst(st: Style, t: string, rest: seq<Segment>)
    ensures var m := Marked([Styled(st, t)] + rest); m != [] && m[0] == '_'
  {
    var segs := [Styled(st, t)] + rest;
    assert segs[0] == Styled(st, t) && segs[1..] == rest;
    assert StartMark(st)[0] == '_';
  }

  /** A line with no asterisk that does not begin with a letter is shown as
      it is, by both marking stages. */
  lemma {:induction false} PlainLine(s: string)
    requires s != [] && StarFree(s) && !IsLetter(s[0])
    ensures MarkLine(s) == s
    ensures MarkSegments(s) == [Plain(s)]
  {
    StarFreeUnfenced(s, true);
    StarFreeUnfenced(s, false);
    StarFreeItalic(s, false);
    NoLeadingLetter(s);
    assert Lift([Plain(s)], Doubles) == [Plain(s)] + [];
    assert Lift([Plain(s)], Singles) == [Plain(s)] + [];
    assert [Plain(s)] + [Plain(s)][1..] == [Plain(s)];
    assert Text([Plain(s)]) == s + "";
  }

  /** `**w**` holds no run of three asterisks, so the triple pass keeps
      it plain. */
  lemma {:induction false} BoldNoTriple(w: string)
    requires w != [] && StarFree(w)
    ensures Triples("**" + w + "**") == [Plain("**" + w + "**")]
  {
    var s := "**" + w + "**";
    var k := |w|;
    assert |s| == k + 4;
    forall i | 0 <= i < |s| ensures !StarsFrom(s, i, 3) {
      if i + 3 <= |s| {
        var j := if i < 2 then 2 else i;
        assert s[j] == w[j - 2];
        assert w[j - 2] != '*';
      }
    }
    FencedUnfenced(s, true);
  }

  /** The double pass on `**w**`: one double piece holding `w`. */
  lemma {:induction false} BoldDouble(w: string)
    requires w != [] && StarFree(w) && !EndsWith(Trim(w), ":")
    ensures Doubles("**" + w + "**") == [Styled(Double, w)]
  {
    var s := "**" + w + "**";
    var k := |w|;
    var rest := s[2..];
    assert rest == w + "**";
    assert rest[k] == '*' && rest[k + 1] == '*';
    assert forall i :: 0 <= i < k ==> NotStar(rest[i]) by {
      assert forall i :: 0 <= i < k ==> rest[i] == w[i];
    }
    RunStops(rest, NotStar, k);
    assert StarsFrom(rest, k, 2);
    assert StarsFrom(s, 0, 2);
    assert FenceCloses(rest, 2);
    assert s[2..2 + k] == w;
    assert s[k + 4..] == [];
    assert Fenced(s, false) == [FencePiece(false, w)] + Fenced([], false);
  }

  /** One marked piece of text without asterisks: the marked text has no
      asterisk and opens with an underscore. */
  lemma {:induction false} MarkedPiece(st: Style, t: string)
    requires StarFree(t)
    ensures var m := Marked([Styled(st, t)]);
      StarFree(m) && m != [] && !IsLetter(m[0])
  {
    var a, b := StartMark(st), EndMark(st);
    var segs := [Styled(st, t)];
    assert segs[0] == Styled(st, t) && segs[1..] == [];
    assert Marked(segs) == a + t + b + Marked(segs[1..]);
    assert a + t + b + [] == a + t + b;
    StarFreeJoin(a, t, b);
    assert (a + t + b)[0] == a[0] == '_';
  }

  /** `**w**`, with `w` free of asterisks and not a header, is marked as
      one bold piece holding `w` by the page's marking stage. */
  lemma {:induction false} BoldLine(w: string)
    requires w != [] && StarFree(w) && !EndsWith(Trim(w), ":")
    ensures MarkLine("**" + w + "**") == Marked([Styled(Double, w)])
  {
    var s := "**" + w + "**";
    BoldNoTriple(w);
    BoldDouble(w);
    var m := Marked([Styled(Double, w)]);
    MarkedPiece(Double, w);
    assert Marked(Triples(s)) == s;
    StarFreeItalic(m, false);
    assert Marked(Singles(m)) == m;
    NoLeadingLetter(m);
    assert Marked(HeaderMark(m)) == m by {
      assert HeaderMark(m) == PlainOf(m);
    }
    assert CharMark(m) == PlainOf(m);
  }

  /** The corrected marking stage on the same line: one bold piece. */
  lemma {:induction false} BoldLineCorrected(w: string)
    requires w != [] && StarFree(w) && !EndsWith(Trim(w), ":")
    ensures MarkSegments("**" + w + "**") == [Styled(Double, w)]
  {
    var s := "**" + w + "**";
    BoldNoTriple(w);
    BoldDouble(w);
    assert Lift([Plain(s)], Doubles) == [Styled(Double, w)] + [];
    assert Lift([Styled(Double, w)], Singles) == [Styled(Double, w)] + [];
    assert !AllPlain([Styled(Double, w)]);
  }

  /** A lower-case word, with or without underscores, needs no escaping,
      has no asterisk and is no header. */
  lemma {:induction false} LowerWord(t: string)
    requires t != [] && forall c :: c in t ==> 'a' <= c <= 'z' || c == '_'
    ensures StarFree(t) && !EndsWith(Trim(t), ":")
  {
    assert t[0] in t && t[|t| - 1] in t;
    assert Trim(t) == t;
    forall i | 0 <= i < |t| ensures t[i] != '*' {
      assert t[i] in t;
    }
  }

  /** The line `**w**` of a lower-case word comes out bold on the page, as
      it does with the corrected renderer. */
  lemma {:induction false} BoldLineRenders(w: string)
    requires w != [] && forall c :: c in w ==> 'a' <= c <= 'z'
    ensures LineHtml("**" + w + "**") == Open(Double) + w + Close(Double)
    ensures LineHtmlCorrected("**" + w + "**") == Open(Double) + w + Close(Double)
  {
    var start, end := StartMark(Double), EndMark(Double);
    LowerWord(w);
    BoldLine(w);
    BoldLineCorrected(w);
    OneSegment(Double, w);
    assert MarkLine("**" + w + "**") == start + w + end;
    LiteralPlaceholderBold(w);
    assert [Plain(start + w + end)][1..] == [];
    assert Marked([Plain(start + w + end)]) == start + w + end + "";
    assert EscapeHtml(w) == w by {
      EscapeHtmlPlain(w);
    }
  }

  /** The line `**snake_case**` (`a` = "snake", `b` = "_case") is marked
      bold, yet the page does not show it bold while the corrected
      renderer does. */
  lemma {:induction false} SnakeCaseLine(a: string, b: string)
    requires a != [] && '_' !in a && |b| >= 2 && b[0] == '_' && b[1] != '_'
    requires forall c :: c in a + b ==> 'a' <= c <= 'z' || c == '_'
    ensures !StartsWith(LineHtml("**" + (a + b) + "**"), Open(Double))
    ensures StartsWith(LineHtmlCorrected("**" + (a + b) + "**"), Open(Double))
  {
    LowerWord(a + b);
    BoldLine(a + b);
    BoldLineCorrected(a + b);
    UnderscoreNotBold(a, b);
  }

  /** `Title:` opens a pattern header, whatever follows. */
  lemma {:induction false} TitleHeader(rest: string)
    ensures HeaderMark("Title:" + rest) == [Styled(PatternHeader, "Title:"), Plain(rest)]
  {
    var s := "Title:" + rest;
    assert s[..5] == "Title" && s[5] == ':';
    assert ToLower("Title") == "title";
    assert s[..6] == "Title:" && s[6..] == rest;
  }

  /** "Title:" followed by a text without asterisks has none. */
  lemma {:induction false} TitleStarFree(rest: string)
    requires StarFree(rest)
    ensures StarFree("Title:" + rest)
  {
    var s := "Title:" + rest;
    forall i | 0 <= i < |s| ensures s[i] != '*' {
      if i >= 6 {
        assert s[i] == rest[i - 6];
      }
    }
  }

  /** A line opening with `Title:` and holding no asterisk is marked as a
      pattern header followed by the rest by the page's marking stage. */
  lemma {:induction false} TitleLine(rest: string)
    requires StarFree(rest)
    ensures MarkLine("Title:" + rest) == Marked([Styled(PatternHeader, "Title:"), Plain(rest)])
  {
    var s := "Title:" + rest;
    TitleStarFree(rest);
    StarFreeUnfenced(s, true);
    StarFreeUnfenced(s, false);
    StarFreeItalic(s, false);
    assert Marked(Triples(s)) == s;
    assert Marked(Doubles(s)) == s;
    assert Marked(Singles(s)) == s;
    var segs := [Styled(PatternHeader, "Title:"), Plain(rest)];
    TitleHeader(rest);
    PlaceholderFirst(PatternHeader, "Title:", [Plain(rest)]);
    var m := Marked(segs);
    NoLeadingLetter(m);
    assert CharMark(m) == PlainOf(m);
  }

  /** The corrected marking stage on the same line. */
  lemma {:induction false} TitleLineCorrected(rest: string)
    requires StarFree(rest)
    ensures MarkSegments("Title:" + rest) == [Styled(PatternHeader, "Title:"), Plain(rest)]
  {
    var s := "Title:" + rest;
    TitleStarFree(rest);
    StarFreeUnfenced(s, true);
    StarFreeUnfenced(s, false);
    StarFreeItalic(s, false);
    var segs := [Styled(PatternHeader, "Title:"), Plain(rest)];
    TitleHeader(rest);
    assert Lift([Plain(s)], Doubles) == [Plain(s)] + [];
    assert Lift([Plain(s)], Singles) == [Plain(s)] + [];
    assert [Plain(s)][1..] == [];
    assert segs + [] == segs;
    assert !segs[0].Plain?;
  }

  const Spacer := "<div class=\"h-3\"></div>"
  const LineOpen := "<div style=\"margin-bottom: 0.375rem; line-height: 1.6;\">"
  const LineClose := "</div>"

  function Wrap(html: string): string
  {
    LineOpen + html + LineClose
  }

  /** One entry of the output: the spacer between paragraphs, or a line
      inside its div. */
  datatype Div = SpacerDiv | LineDiv(inner: string)

  function DivHtml(d: Div): string
  {
    match d
    case SpacerDiv => Spacer
    case LineDiv(h) => Wrap(h)
  }

  /** The HTML of each entry, in order. */
  function Htmls(ds: seq<Div>): (r: seq<string>)
    ensures |r| == |ds|
  {
    if ds == [] then [] else Htmls(ds[..|ds| - 1]) + [DivHtml(Last(ds))]
  }

  lemma {:induction false} HtmlsAppend(a: seq<Div>, b: seq<Div>)
    requires |b| <= 1
    ensures Htmls(a + b) == Htmls(a) + Htmls(b)
  {
    if b != [] {
      assert (a + b)[..|a + b| - 1] == a;
      assert b[..0] == [];
    } else {
      assert a + b == a;
    }
  }

  /** What line `i` adds: nothing or a spacer for a blank line (a spacer
      only between two non-blank lines), and one wrapped line otherwise.
      `html` renders a non-blank line. */
  function Entry(lines: seq<string>, i: nat, html: string -> string): (r: seq<Div>)
    requires i < |lines|
    ensures |r| <= 1
  {
    var line := TrimEnd(lines[i]);
    var prev := if i > 0 then Trim(lines[i - 1]) else "";
    var next := if i < |lines| - 1 then Trim(lines[i + 1]) else "";
    if IsBlank(line) then
      (if prev != "" && next != "" then [SpacerDiv] else [])
    else [LineDiv(html(line))]
  }

  /** The entries of the first n lines. */
  function Entries(lines: seq<string>, n: nat, html: string -> string): (r: seq<Div>)
    requires n <= |lines|
    ensures |r| <= n
  {
    if n == 0 then [] else Entries(lines, n - 1, html) + Entry(lines, n - 1, html)
  }

  /** A non-blank line's HTML as the page computes it: the line marked,
      escaped as a whole, and its placeholders replaced by tags. */
  function LineHtml(line: string): string
  {
    RenderMarked(MarkLine(line))
  }

  /** The corrected line renderer: the marked pieces straight inside their
      tags, with no placeholders in between. */
  function LineHtmlCorrected(line: string): string
  {
    Render(MarkSegments(line))
  }

  /** `formatMarkdownText` as the page computes it. */
  method FormatMarkdownText(text: string) returns (html: string)
    ensures text == "" ==> html == ""
    ensures text != "" ==> html == Concat(Htmls(Entries(Split(text, "\n"), |Split(text, "\n")|, LineHtml)))
  {
    html := FormatLines(text, LineHtml);
  }

  /** `formatMarkdownText` with the corrected marking stage and renderer. */
  method FormatMarkdownTextCorrected(text: string) returns (html: string)
    ensures text == "" ==> html == ""
    ensures text != "" ==> html == Concat(Htmls(Entries(Split(text, "\n"), |Split(text, "\n")|, LineHtmlCorrected)))
  {
    html := FormatLines(text, LineHtmlCorrected);
  }

  /** The loop of `formatMarkdownText`: the entries of every line, joined
      with nothing; `render` gives a non-blank line's HTML. */
  method FormatLines(text: string, render: string -> string) returns (html: string)
    ensures text == "" ==> html == ""
    ensures text != "" ==> html == Concat(Htmls(Entries(Split(text, "\n"), |Split(text, "\n")|, render)))
  {
    if text == "" {
      return "";
    }
    var lines := Split(text, "\n");
    var formatted: seq<string> := [];
    for i := 0 to |lines|
      invariant formatted == Htmls(Entries(lines, i, render))
    {
      FormatStep(lines, i, render);
      var line := TrimEnd(lines[i]);
      var prev := if i > 0 then Trim(lines[i - 1]) else "";
      var next := if i < |lines| - 1 then Trim(lines[i + 1]) else "";
      if IsBlank(line) {
        if prev != "" && next != "" {
          formatted := formatted + [Spacer];
        }
        continue;
      }
      formatted := formatted + [Wrap(render(line))];
    }
    html := Concat(formatted);
  }

  /** The loop step of `FormatLines`: line `i` adds the HTML of its entry. */
  lemma {:induction false} FormatStep(lines: seq<string>, i: nat, render: string -> string)
    requires i < |lines|
    ensures var line := TrimEnd(lines[i]);
      var prev := if i > 0 then Trim(lines[i - 1]) else "";
      var next := if i < |lines| - 1 then Trim(lines[i + 1]) else "";
      Htmls(Entries(lines, i + 1, render)) ==
        Htmls(Entries(lines, i, render)) +
        (if IsBlank(line) then (if prev != "" && next != "" then [Spacer] else []) else [Wrap(render(line))])
  {
    var line := TrimEnd(lines[i]);
    var e := Entry(lines, i, render);
    assert Entries(lines, i + 1, render) == Entries(lines, i, render) + e;
    HtmlsAppend(Entries(lines, i, render), e);
    if IsBlank(line) {
      if e != [] {
        assert e == [SpacerDiv];
        assert Htmls(e) == [Spacer] by { assert e[..0] == []; }
      }
    } else {
      assert e == [LineDiv(render(line))];
      assert Htmls(e) == [Wrap(render(line))] by { assert e[..0] == []; }
    }
  }

  /** Number of non-blank lines among the first n. */
  function NonBlank(lines: seq<string>, n: nat): nat
    requires n <= |lines|
  {
    if n == 0 then 0 else NonBlank(lines, n - 1) + (if IsBlank(lines[n - 1]) then 0 else 1)
  }

  /** Number of entries that are wrapped lines (not spacers). */
  function Wrapped(es: seq<Div>): nat
  {
    if es == [] then 0 else Wrapped(es[..|es| - 1]) + (if Last(es).LineDiv? then 1 else 0)
  }

  lemma {:induction false} WrappedAppend(a: seq<Div>, b: seq<Div>)
    requires |b| <= 1
    ensures Wrapped(a + b) == Wrapped(a) + Wrapped(b)
  {
    if b != [] {
      assert (a + b)[..|a + b| - 1] == a;
      assert b[..0] == [];
    } else {
      assert a + b == a;
    }
  }

  /** Blankness does not depend on trailing whitespace. */
  lemma {:induction false} TrimEndBlank(s: string)
    ensures IsBlank(TrimEnd(s)) == IsBlank(s)
  {
    TrimSpec(s);
    TrimSpec(TrimEnd(s));
    TrimEndSpec(s);
    TrimStartSpec(s);
    TrimStartSpec(TrimEnd(s));
    TrimEndSpec(TrimEnd(s));
  }

  /** One line gives one wrapped line when it is not blank, none otherwise. */
  lemma {:induction false} EntryWrapped(lines: seq<string>, i: nat, html: string -> string)
    requires i < |lines|
    ensures Wrapped(Entry(lines, i, html)) == (if IsBlank(lines[i]) then 0 else 1)
  {
    var e := Entry(lines, i, html);
    TrimEndBlank(lines[i]);
    if !IsBlank(lines[i]) {
      assert e[..0] == [];
    } else if e != [] {
      assert e[..0] == [];
    }
  }

  /** Each non-blank line gives exactly one wrapped line. */
  lemma {:induction false} OneDivPerLine(lines: seq<string>, n: nat, html: string -> string)
    requires n <= |lines|
    ensures Wrapped(Entries(lines, n, html)) == NonBlank(lines, n)
  {
    var k := 0;
    var es: seq<Div> := [];
    while k < n
      invariant k <= n && es == Entries(lines, k, html) && Wrapped(es) == NonBlank(lines, k)
    {
      var e := Entry(lines, k, html);
      EntryWrapped(lines, k, html);
      WrappedAppend(es, e);
      es := es + e;
      k := k + 1;
    }
  }

  /** A blank line gives a spacer exactly when the lines on both sides
      are non-blank. */
  lemma {:induction false} SpacerBetween(lines: seq<string>, i: nat, html: string -> string)
    requires i < |lines| && IsBlank(lines[i])
    ensures Entry(lines, i, html) == [SpacerDiv] <==>
      0 < i < |lines| - 1 && !IsBlank(lines[i - 1]) && !IsBlank(lines[i + 1])
    ensures Entry(lines, i, html) != [SpacerDiv] ==> Entry(lines, i, html) == []
  {
    TrimEndBlank(lines[i]);
    if i > 0 {
      BlankTrim(lines[i - 1]);
    }
    if i < |lines| - 1 {
      BlankTrim(lines[i + 1]);
    }
  }

  /** The text of every segment reaches the page escaped: the rendered
      line holds the tags and the escaped pieces, and the escaped pieces
      read back to the line's text. */
  lemma {:induction false} RenderEscapes(segs: seq<Segment>)
    ensures Unescape(Escaped(Text(segs))) == Text(segs)
    ensures forall i :: 0 <= i < |segs| ==> Inert(EscapeHtml(segs[i].text))
  {
    UnescapeEscaped(Text(segs));
    forall i | 0 <= i < |segs| ensures Inert(EscapeHtml(segs[i].text)) {
      EscapedInert(segs[i].text);
    }
  }

  /** The corrected renderer, for a styled piece holding any text at all,
      underscores and placeholders included: the line opens with the
      style's tag, and the piece's text follows escaped, reads back to the
      text and cannot open a tag. */
  lemma {:induction false} StyledAnyText(st: Style, t: string, rest: seq<Segment>)
    ensures Prefixes(Render([Styled(st, t)] + rest), Open(st), EscapeHtml(t))
    ensures Unescape(EscapeHtml(t)) == t && Inert(EscapeHtml(t))
  {
    var o, e, c := Open(st), EscapeHtml(t), Close(st);
    var r := Render([Styled(st, t)] + rest);
    assert r == o + e + c + Render(rest) by {
      RenderCons(Styled(st, t), rest);
    }
    Between(r, o, e, c, Render(rest));
    UnescapeEscapeHtml(t);
    EscapedInert(t);
  }

  lemma {:induction false} RenderCons(x: Segment, rest: seq<Segment>)
    ensures Render([x] + rest) == SegmentHtml(x) + Render(rest)
  {
    assert ([x] + rest)[0] == x && ([x] + rest)[1..] == rest;
  }

  /** `r` begins with `o` and then `e`. */
  predicate Prefixes(r: string, o: string, e: string)
  {
    |o| + |e| <= |r| && r[..|o|] == o && r[|o|..|o| + |e|] == e
  }

  lemma {:induction false} Between(r: string, o: string, e: string, c: string, tail: string)
    requires r == o + e + c + tail
    ensures Prefixes(r, o, e)
  {
    assert r[..|o|] == o;
    assert r[|o|..|o| + |e|] == e;
  }

  // ---------------------------------------------------------------------
  // The stream reader of handleGenerateText

  /** How the reader treats one complete line. */
  datatype LineKind = Skip | Chunk(text: string) | Stop

  const DoneMarker := "[DONE]"
  const NoText := "No text was generated. Please try again."

  /** `content.replace(/\r?\n$/, '')`. */
  function DropLineEnd(c: string): string
  {
    if EndsWith(c, "\n") then
      (if |c| >= 2 && c[|c| - 2] == '\r' then c[..|c| - 2] else c[..|c| - 1])
    else c
  }

  function Kind(line: string): LineKind
  {
    if line == "" || IsBlank(line) then Skip
    else if StartsWith(line, EventStream.DataPrefix) then
      var content := DropLineEnd(line[|EventStream.DataPrefix|..]);
      if Trim(content) == DoneMarker then Stop
      else if content == "" || IsBlank(content) then Skip
      else Chunk(content)
    else if Contains(line, "event: done") then Stop
    else Skip
  }

  function TextOf(k: LineKind): string
  {
    if k.Chunk? then k.text else ""
  }

  predicate NoStop(lines: seq<string>)
  {
    forall i :: 0 <= i < |lines| ==> !Kind(lines[i]).Stop?
  }

  /** What one batch of lines adds: the chunks up to the first stop line. */
  function Collect(lines: seq<string>): string
  {
    if lines == [] then ""
    else if Kind(lines[0]).Stop? then ""
    else TextOf(Kind(lines[0])) + Collect(lines[1..])
  }

  lemma {:induction false} CollectAppend(a: seq<string>, b: seq<string>)
    requires NoStop(a)
    ensures Collect(a + b) == Collect(a) + Collect(b)
  {
    if a != [] {
      assert (a + b)[0] == a[0];
      assert (a + b)[1..] == a[1..] + b;
      assert NoStop(a[1..]) by {
        forall i | 0 <= i < |a[1..]| ensures !Kind(a[1..][i]).Stop? { assert a[1..][i] == a[i + 1]; }
      }
      assert !Kind(a[0]).Stop?;
      CollectAppend(a[1..], b);
    } else {
      assert a + b == b;
    }
  }

  /** The lines read so far, and the unfinished one. */
  function Lines(s: string): seq<string>
  {
    AllButLast(Split(s, "\n"))
  }

  function Leftover(s: string): string
  {
    Last(Split(s, "\n"))
  }

  /** The lines a read completes, given what came before it. */
  function Batch(before: string, chunk: string): seq<string>
  {
    Lines(Leftover(before) + chunk)
  }

  /** The text gathered from the reads: each read's lines are collected
      up to its first stop line, and a stop line ends only that read's
      batch. */
  function Streamed(chunks: seq<string>): string
    decreases |chunks|
  {
    if chunks == [] then ""
    else
      var pre := chunks[..|chunks| - 1];
      Streamed(pre) + Collect(Batch(Concat(pre), Last(chunks)))
  }

  /** The unfinished line left at the end, read as a last `data: ` line. */
  function TailText(buffer: string): string
  {
    if buffer == "" then ""
    else
      var tb := Trim(buffer);
      if StartsWith(tb, EventStream.DataPrefix) then
        var text := tb[|EventStream.DataPrefix|..];
        if text != "" && Trim(text) != DoneMarker then text else ""
      else ""
  }

  /** The response, trimmed, or the error for an empty one. */
  function Outcome(full: string): (r: Result<string, string>)
    ensures r.Ok? <==> !IsBlank(full)
    ensures r.Err? ==> r.error == NoText
  {
    BlankTrim(full);
    if Trim(full) != "" then Ok(Trim(full)) else Err(NoText)
  }

  /** The reading loop: a carry buffer split on "\n", each batch read
      until a stop line, then the unfinished line, then the outcome. */
  method ReadTextStream(chunks: seq<string>) returns (r: Result<string, string>)
    ensures r == Outcome(Streamed(chunks) + TailText(Leftover(Concat(chunks))))
  {
    var full := "";
    var buffer := "";
    var k := 0;
    while k < |chunks|
      invariant 0 <= k <= |chunks|
      invariant full == Streamed(chunks[..k])
      invariant buffer == Leftover(Concat(chunks[..k]))
    {
      var parts := Split(buffer + chunks[k], "\n");
      var lines := AllButLast(parts);
      buffer := Last(parts);
      TextRead(chunks, k);
      var got := ReadBatch(lines);
      full := full + got;
      k := k + 1;
    }
    assert chunks[..k] == chunks;
    if buffer != "" {
      var tb := Trim(buffer);
      if StartsWith(tb, EventStream.DataPrefix) {
        var text := tb[|EventStream.DataPrefix|..];
        if text != "" && Trim(text) != DoneMarker {
          full := full + text;
        }
      }
    }
    assert full == Streamed(chunks) + TailText(buffer);
    if Trim(full) != "" {
      r := Ok(Trim(full));
    } else {
      r := Err(NoText);
    }
  }

  /** The inner loop over one read's lines; `break` leaves only it. */
  method ReadBatch(lines: seq<string>) returns (got: string)
    ensures got == Collect(lines)
  {
    got := "";
    var j := 0;
    while j < |lines|
      invariant 0 <= j <= |lines|
      invariant got + Collect(lines[j..]) == Collect(lines)
    {
      var kind := Kind(lines[j]);
      CollectFrom(lines, j);
      if kind.Stop? {
        return;
      }
      AppendAssoc(got, TextOf(kind), Collect(lines[j + 1..]));
      got := got + TextOf(kind);
      j := j + 1;
    }
    assert lines[j..] == [];
  }

  /** From line `j` on, a stop line ends the batch, and any other line adds
      its content before what the later lines add. */
  lemma {:induction false} CollectFrom(lines: seq<string>, j: nat)
    requires j < |lines|
    ensures Kind(lines[j]).Stop? ==> Collect(lines[j..]) == ""
    ensures !Kind(lines[j]).Stop? ==> Collect(lines[j..]) == TextOf(Kind(lines[j])) + Collect(lines[j + 1..])
  {
    assert lines[j..][0] == lines[j];
    assert lines[j..][1..] == lines[j + 1..];
  }

  /** The loop step: read k adds its batch and leaves its unfinished line. */
  lemma {:induction false} TextRead(chunks: seq<string>, k: nat)
    requires k < |chunks|
    ensures Streamed(chunks[..k + 1]) ==
      Streamed(chunks[..k]) + Collect(AllButLast(Split(Leftover(Concat(chunks[..k])) + chunks[k], "\n")))
    ensures Leftover(Concat(chunks[..k + 1])) == Last(Split(Leftover(Concat(chunks[..k])) + chunks[k], "\n"))
  {
    var p := chunks[..k + 1];
    assert p[..|p| - 1] == chunks[..k];
    assert Last(p) == chunks[k];
    ConcatStep(chunks, k);
    CompleteAppend(Concat(chunks[..k]), chunks[k], "\n");
  }

  /** Without stop lines, where the reads break the stream does not
      matter: the text is the chunks of all complete lines. */
  lemma {:induction false} ReadBoundariesIrrelevant(chunks: seq<string>)
    requires NoStop(Lines(Concat(chunks)))
    ensures Streamed(chunks) == Collect(Lines(Concat(chunks)))
    decreases |chunks|
  {
    if chunks == [] {
      assert Lines("") == [];
    } else {
      var pre := chunks[..|chunks| - 1];
      var k := |chunks| - 1;
      assert chunks[..k + 1] == chunks;
      ConcatStep(chunks, k);
      CompleteAppend(Concat(pre), Last(chunks), "\n");
      var a := Lines(Concat(pre));
      var b := Batch(Concat(pre), Last(chunks));
      assert Lines(Concat(chunks)) == a + b;
      assert NoStop(a) by {
        forall i | 0 <= i < |a| ensures !Kind(a[i]).Stop? { assert a[i] == (a + b)[i]; }
      }
      ReadBoundariesIrrelevant(pre);
      CollectAppend(a, b);
    }
  }

  /** A payload the route frames that this reader takes as text. */
  predicate Readable(p: string)
  {
    '\n' !in p && !IsBlank(p) && Trim(p) != DoneMarker
  }

  lemma {:induction false} ReadableKind(p: string)
    requires Readable(p)
    ensures Kind(EventStream.DataPrefix + p) == Chunk(p)
  {
    var line := EventStream.DataPrefix + p;
    assert line[..|EventStream.DataPrefix|] == EventStream.DataPrefix;
    assert line[|EventStream.DataPrefix|..] == p;
    assert line[0] == 'd';
    assert !IsBlank(line) by {
      TrimSpec(line);
      TrimStartSpec(line);
    }
    assert !EndsWith(p, "\n") by {
      if |p| >= 1 { assert p[|p| - 1] in p; assert p[|p| - 1..] == [p[|p| - 1]]; }
    }
  }

  /** The lines of framed payloads: each payload's line, then the empty
      line of the separator. */
  lemma {:induction false} FramedLines(ps: seq<string>, rest: string)
    requires forall i :: 0 <= i < |ps| ==> Readable(ps[i])
    ensures Split(GenerateStream.Frames(ps) + rest, "\n") == DataLines(ps) + Split(rest, "\n")
  {
    if ps == [] {
      assert GenerateStream.Frames(ps) + rest == rest;
    } else {
      var tail := GenerateStream.Frames(ps[1..]) + rest;
      FrameLines(ps[0], tail);
      ReadableTail(ps);
      FramedLines(ps[1..], rest);
      AppendAssoc(EventStream.Frame(ps[0]), GenerateStream.Frames(ps[1..]), rest);
      AppendAssoc([EventStream.DataPrefix + ps[0], ""], DataLines(ps[1..]), Split(rest, "\n"));
    }
  }

  /** One framed payload is its line and an empty line. */
  lemma {:induction false} FrameLines(p: string, tail: string)
    requires Readable(p)
    ensures Split(EventStream.Frame(p) + tail, "\n") == [EventStream.DataPrefix + p, ""] + Split(tail, "\n")
  {
    var x := EventStream.DataPrefix + p;
    assert EventStream.Frame(p) + tail == x + ['\n'] + ("" + ['\n'] + tail);
    assert forall i :: 0 <= i < |x| ==> x[i] != '\n' by {
      forall i | 0 <= i < |x| ensures x[i] != '\n' {
        if i >= 6 { assert x[i] == p[i - 6]; }
      }
    }
    SplitAtChar(x, '\n', "" + ['\n'] + tail);
    SplitAtChar("", '\n', tail);
  }

  lemma {:induction false} ReadableTail(ps: seq<string>)
    requires ps != [] && forall i :: 0 <= i < |ps| ==> Readable(ps[i])
    ensures forall i :: 0 <= i < |ps[1..]| ==> Readable(ps[1..][i])
  {
    forall i | 0 <= i < |ps[1..]| ensures Readable(ps[1..][i]) { assert ps[1..][i] == ps[i + 1]; }
  }

  function DataLines(ps: seq<string>): (r: seq<string>)
    ensures |r| == 2 * |ps|
  {
    if ps == [] then [] else [EventStream.DataPrefix + ps[0], ""] + DataLines(ps[1..])
  }

  lemma {:induction false} CollectDataLines(ps: seq<string>)
    requires forall i :: 0 <= i < |ps| ==> Readable(ps[i])
    ensures NoStop(DataLines(ps)) && Collect(DataLines(ps)) == Concat(ps)
  {
    if ps != [] {
      var x := EventStream.DataPrefix + ps[0];
      ReadableTail(ps);
      CollectDataLines(ps[1..]);
      CollectPair(ps[0]);
      assert DataLines(ps) == [x, ""] + DataLines(ps[1..]);
      CollectAppend([x, ""], DataLines(ps[1..]));
      NoStopAppend([x, ""], DataLines(ps[1..]));
    }
  }

  lemma {:induction false} CollectPair(p: string)
    requires Readable(p)
    ensures NoStop([EventStream.DataPrefix + p, ""])
    ensures Collect([EventStream.DataPrefix + p, ""]) == p
  {
    var x := EventStream.DataPrefix + p;
    ReadableKind(p);
    assert Kind("") == Skip;
    assert [x, ""][1..] == [""];
    assert [""][1..] == [];
  }

  lemma {:induction false} NoStopAppend(a: seq<string>, b: seq<string>)
    requires NoStop(a) && NoStop(b)
    ensures NoStop(a + b)
  {
    forall i | 0 <= i < |a + b| ensures !Kind((a + b)[i]).Stop? {
      if i >= |a| { assert (a + b)[i] == b[i - |a|]; } else { assert (a + b)[i] == a[i]; }
    }
  }

  /** The page reads back what the stream route sends: the concatenated
      payloads, trimmed, however the reads break the stream. */
  lemma {:induction false} ReadsRouteFrames(chunks: seq<string>, ps: seq<string>)
    requires Concat(chunks) == GenerateStream.Frames(ps)
    requires forall i :: 0 <= i < |ps| ==> Readable(ps[i])
    ensures Streamed(chunks) + TailText(Leftover(Concat(chunks))) == Concat(ps)
  {
    FramedLines(ps, "");
    assert GenerateStream.Frames(ps) + "" == GenerateStream.Frames(ps);
    assert Split("", "\n") == [""];
    var s := Split(Concat(chunks), "\n");
    assert s == DataLines(ps) + [""];
    assert Lines(Concat(chunks)) == DataLines(ps);
    assert Leftover(Concat(chunks)) == "";
    CollectDataLines(ps);
    ReadBoundariesIrrelevant(chunks);
  }

  // ---------------------------------------------------------------------
  // handleAITextReplace

  /** JavaScript's `s.substring(a, b)`: both ends clamped to the string,
      and swapped when the first is the larger. */
  function Substring(s: string, a: int, b: int): (r: string)
    ensures |r| <= |s|
  {
    var x := if a < 0 then 0 else if a > |s| then |s| else a;
    var y := if b < 0 then 0 else if b > |s| then |s| else b;
    if x <= y then s[x..y] else s[y..x]
  }

  datatype Range = Range(start: int, end: int)

  /** The response and the selection it carries. */
  datatype Editor = Editor(response: string, selectedText: string, range: Option<Range>)

  /** `handleAITextReplace`: with a selection (and the text area mounted),
      the selected range is replaced and the selection cleared; otherwise
      nothing changes. */
  function AITextReplace(e: Editor, newText: string, mounted: bool): (r: Editor)
    ensures e.selectedText == "" || !mounted || e.range.None? ==> r == e
    ensures e.selectedText != "" && mounted && e.range.Some? ==> r.selectedText == "" && r.range.None?
  {
    if e.selectedText != "" && mounted && e.range.Some? then
      Editor(Substring(e.response, 0, e.range.value.start) + newText + Substring(e.response, e.range.value.end, |e.response|), "", None)
    else e
  }

  /** For a range inside the response, the splice keeps the text before
      and after it, and replacing a range by its own text changes nothing. */
  lemma {:induction false} SpliceInRange(e: Editor, newText: string)
    requires e.selectedText != "" && e.range.Some?
    requires 0 <= e.range.value.start <= e.range.value.end <= |e.response|
    ensures var s, t := e.range.value.start, e.range.value.end;
      AITextReplace(e, newText, true).response == e.response[..s] + newText + e.response[t..]
    ensures var s, t := e.range.value.start, e.range.value.end;
      AITextReplace(e, e.response[s..t], true).response == e.response
  {
    var s, t := e.range.value.start, e.range.value.end;
    assert e.response[..s] + e.response[s..t] + e.response[t..] == e.response;
  }
}
