/** The response panel (components/ProgressiveResponse.tsx): how a response
    is cut into a short part shown first and a detailed part shown on
    request, how the detailed part is laid out in paragraphs, and when the
    expandable view is used. */
module ProgressiveResponse {
  import opened Wrappers
  import opened Strings

  datatype Style = Concise | Detailed

  /** A character of the sentence-ending class `[.!?]`. */
  predicate Terminator(c: char)
  {
    c == '.' || c == '!' || c == '?'
  }

  /** Drops a leading run of terminators. */
  function DropTerminators(s: string): (r: string)
    ensures |r| <= |s|
    ensures r == [] || !Terminator(r[0])
  {
    if s != [] && Terminator(s[0]) then DropTerminators(s[1..]) else s
  }

  /** `s.split(/[.!?]+/)`: the pieces between maximal runs of terminators. */
  function SplitSentences(s: string): (r: seq<string>)
    ensures |r| >= 1
    ensures forall i :: 0 <= i < |r| ==> forall j :: 0 <= j < |r[i]| ==> !Terminator(r[i][j])
    decreases |s|
  {
    if s == [] then [""]
    else if Terminator(s[0]) then [""] + SplitSentences(DropTerminators(s))
    else
      var rest := SplitSentences(s[1..]);
      [[s[0]] + rest[0]] + rest[1..]
  }

  /** The non-blank sentences of a text. */
  function Sentences(s: string): (r: seq<string>)
    ensures forall i :: 0 <= i < |r| ==> !IsBlank(r[i])
  {
    NonBlankOf(SplitSentences(s))
  }

  /** A text with no terminator is one piece. */
  lemma {:induction false} SplitNoTerminator(s: string)
    requires forall j :: 0 <= j < |s| ==> !Terminator(s[j])
    ensures SplitSentences(s) == [s]
  {
    if s != [] {
      SplitNoTerminator(s[1..]);
      assert s == [s[0]] + s[1..];
    }
  }

  /** The short part, and the detailed part when there is one. */
  datatype Parts = Parts(concise: string, detailed: Option<string>)

  /** `Math.min(2, Math.ceil(n * 0.3))`. */
  function ConciseCount(n: nat): (c: nat)
    ensures c == (if n <= 3 && n > 0 then 1 else if n == 0 then 0 else 2)
  {
    var up := (3 * n + 9) / 10;
    if up < 2 then up else 2
  }

  const ImageMarker := "[AiO Image Generated]"
  const UrlMarker := "Image URL:"

  /** The `useMemo` that cuts the response. A response with a generated
      image is never cut; a long concise one is cut at the middle into its
      trimmed halves; one of at most two sentences (one, in concise style)
      is shown whole. */
  function SplitResponse(content: string, style: Style): (r: Parts)
    ensures Contains(content, ImageMarker) || Contains(content, UrlMarker) ==> r == Parts(content, None)
    ensures !Contains(content, ImageMarker) && !Contains(content, UrlMarker) && style == Concise && |content| > 100 ==>
      var mid := |content| / 2;
      r == Parts(Trim(content[..mid]), Some(Trim(content[mid..]))) &&
      |r.concise| <= mid && |r.detailed.value| <= |content| - mid
    ensures (style == Concise ==> |content| <= 100) && |Sentences(content)| <= 2 ==> r == Parts(content, None)
  {
    var ss := Sentences(content);
    if Contains(content, ImageMarker) || Contains(content, UrlMarker) then Parts(content, None)
    else if style == Concise && |content| > 100 then
      var mid := |content| / 2;
      Parts(Trim(content[..mid]), Some(Trim(content[mid..])))
    else if style == Concise && |ss| <= 1 then Parts(content, None)
    else if |ss| <= 2 then Parts(content, None)
    else
      var c := ConciseCount(|ss|);
      Parts(Join(ss[..c], ". ") + ".", Some(Join(ss[c..], ". ") + "."))
  }

  /** Otherwise the sentences are dealt out in order: one or two to the
      short part, at least one to the detailed part, and together they are
      every sentence. */
  lemma {:induction false} SentencesDealt(content: string, style: Style)
    requires !Contains(content, ImageMarker) && !Contains(content, UrlMarker)
    requires style == Concise ==> |content| <= 100
    requires |Sentences(content)| > 2
    ensures var ss := Sentences(content); var c := ConciseCount(|ss|); var r := SplitResponse(content, style);
      1 <= c <= 2 && c < |ss| && r.detailed.Some? &&
      r.concise == Join(ss[..c], ". ") + "." && r.detailed.value == Join(ss[c..], ". ") + "." &&
      Join(ss[..c], ". ") + ". " + Join(ss[c..], ". ") == Join(ss, ". ")
  {
    var ss := Sentences(content);
    var c := ConciseCount(|ss|);
    assert ss == ss[..c] + ss[c..];
    JoinAppend(ss[..c], ss[c..], ". ");
  }

  /** The paragraphs the detailed view shows: the blocks between blank
      lines, or else the lines, or else the sentences each closed by '.'. */
  function Paragraphs(content: string): (r: seq<string>)
  {
    var blocks := NonBlankOf(Split(content, "\n\n"));
    if |blocks| > 1 then blocks
    else
      var lines := NonBlankOf(Split(content, "\n"));
      if |lines| > 1 then lines
      else Closed(Sentences(content))
  }

  function Closed(ss: seq<string>): (r: seq<string>)
    ensures |r| == |ss|
    ensures forall i :: 0 <= i < |r| ==> r[i] == Trim(ss[i]) + "."
  {
    if ss == [] then [] else [Trim(ss[0]) + "."] + Closed(ss[1..])
  }

  /** Every paragraph has text, and the fallbacks come in order: blocks
      when there are two or more, lines when there are two or more. */
  lemma {:induction false} ParagraphsFallback(content: string)
    ensures forall i :: 0 <= i < |Paragraphs(content)| ==> !IsBlank(Paragraphs(content)[i])
    ensures |NonBlankOf(Split(content, "\n\n"))| > 1 ==> Paragraphs(content) == NonBlankOf(Split(content, "\n\n"))
    ensures |NonBlankOf(Split(content, "\n\n"))| <= 1 && |NonBlankOf(Split(content, "\n"))| > 1 ==>
      Paragraphs(content) == NonBlankOf(Split(content, "\n"))
  {
    var p := Paragraphs(content);
    if |NonBlankOf(Split(content, "\n\n"))| <= 1 && |NonBlankOf(Split(content, "\n"))| <= 1 {
      var ss := Sentences(content);
      forall i | 0 <= i < |p| ensures !IsBlank(p[i]) {
        ClosedNotBlank(ss[i]);
      }
    }
  }

  lemma {:induction false} ClosedNotBlank(s: string)
    ensures !IsBlank(Trim(s) + ".")
  {
    var t := Trim(s) + ".";
    TrimSpec(t);
    TrimStartSpec(t);
    TrimEndSpec(t);
    assert t[|t| - 1] == '.';
  }

  /** `shouldShowProgressive`: the expandable view is used only in concise
      style, when there is a detailed part with text or more can be
      fetched. */
  function ShowProgressive(style: Style, detailed: Option<string>, canShowMore: bool): (b: bool)
    ensures b ==> style == Concise
    ensures b <==> style == Concise && ((detailed.Some? && !IsBlank(detailed.value)) || canShowMore)
  {
    BlankTrim(if detailed.Some? then detailed.value else "");
    style == Concise && ((detailed.Some? && Trim(detailed.value) != []) || canShowMore)
  }
}
