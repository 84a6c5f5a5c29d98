/** Reading the encoded-data file and cutting its sequences into training
    pairs (load_encoded_data.py). The file is given as its list of lines,
    each possibly ending in its line break, as `readlines` returns them. */
module LoadEncodedData {
  import opened Strings
  import opened Wrappers
  import opened Numbers

  // ---------------------------------------------------------------------
  // `load_encoded_data`
  // ---------------------------------------------------------------------

  /** `[int(x) for x in words]`: `None` as soon as one token is not a number. */
  function ParseAll(words: seq<string>): (r: Option<seq<int>>)
    ensures r.Some? ==> |r.value| == |words|
  {
    if words == [] then Some([])
    else
      match ParseAll(words[..|words| - 1])
      case None => None
      case Some(xs) =>
        match ParseInt(words[|words| - 1])
        case None => None
        case Some(x) => Some(xs + [x])
  }

  /** One line: stripped, split on whitespace, every token an integer. */
  function ParseLine(line: string): Option<seq<int>>
  {
    ParseAll(Words(Trim(line)))
  }

  /** The whole file: one list per line, or `None` when `int` raises on some
      token. */
  function Load(lines: seq<string>): (r: Option<seq<seq<int>>>)
    ensures r.Some? ==> |r.value| == |lines|
    ensures r.None? <==> exists k :: 0 <= k < |lines| && ParseLine(lines[k]).None?
  {
    if lines == [] then Some([])
    else
      var init := lines[..|lines| - 1];
      assert forall k :: 0 <= k < |init| ==> init[k] == lines[k];
      match Load(init)
      case None => None
      case Some(xss) =>
        match ParseLine(lines[|lines| - 1])
        case None => None
        case Some(xs) => Some(xss + [xs])
  }

  /** `load_encoded_data`, after the file has been read into its lines. */
  method LoadEncoded(lines: seq<string>) returns (r: Option<seq<seq<int>>>)
    ensures r == Load(lines)
  {
    var sequences: seq<seq<int>> := [];
    for k := 0 to |lines|
      invariant Load(lines[..k]) == Some(sequences)
    {
      assert lines[..k + 1][..k] == lines[..k];
      var sequence := ParseTokens(Words(Trim(lines[k])));
      if sequence.None? {
        return None;
      }
      sequences := sequences + [sequence.value];
    }
    assert lines[..|lines|] == lines;
    r := Some(sequences);
  }

  /** `[int(x) for x in words]`, stopping at the first token `int` rejects. */
  method ParseTokens(words: seq<string>) returns (r: Option<seq<int>>)
    ensures r == ParseAll(words)
  {
    var sequence: seq<int> := [];
    for j := 0 to |words|
      invariant ParseAll(words[..j]) == Some(sequence)
    {
      assert words[..j + 1][..j] == words[..j];
      var x := ParseInt(words[j]);
      if x.None? {
        ParseAllFails(words, j);
        return None;
      }
      sequence := sequence + [x.value];
    }
    assert words[..|words|] == words;
    r := Some(sequence);
  }

  lemma {:induction false} ParseAllFails(words: seq<string>, j: nat)
    requires j < |words| && ParseInt(words[j]).None?
    ensures ParseAll(words).None?
  {
    if j < |words| - 1 {
      var init := words[..|words| - 1];
      assert init[j] == words[j];
      ParseAllFails(init, j);
    }
  }

  /** The line the encoding step writes for a sequence: `' '.join(map(str, ids))`. */
  function WriteLine(ids: seq<nat>): string
  {
    Join(seq(|ids|, i requires 0 <= i < |ids| => Show(ids[i])), " ")
  }

  function AsInts(ids: seq<nat>): (r: seq<int>)
    ensures |r| == |ids| && forall i :: 0 <= i < |ids| ==> r[i] == ids[i] as int
  {
    seq(|ids|, i requires 0 <= i < |ids| => ids[i] as int)
  }

  /** Every number is a non-empty, whitespace-free token. */
  lemma {:induction false} ShowWords(ids: seq<nat>)
    ensures var ws := seq(|ids|, i requires 0 <= i < |ids| => Show(ids[i]));
      forall i :: 0 <= i < |ws| ==> ws[i] != [] && NoSpace(ws[i])
  {
  }

  lemma {:induction false} ParseShows(ids: seq<nat>)
    ensures ParseAll(seq(|ids|, i requires 0 <= i < |ids| => Show(ids[i]))) == Some(AsInts(ids))
  {
    if ids != [] {
      var init := ids[..|ids| - 1];
      ParseShows(init);
      ShowParse(ids[|ids| - 1]);
      var ws := seq(|ids|, i requires 0 <= i < |ids| => Show(ids[i]));
      assert ws[..|ws| - 1] == seq(|init|, i requires 0 <= i < |init| => Show(init[i]));
      assert AsInts(ids) == AsInts(init) + [ids[|ids| - 1] as int];
    }
  }

  /** Reading a written line, with or without its line break, gives the
      sequence back; a blank line gives the empty sequence. */
  lemma {:induction false} ReadWritten(ids: seq<nat>)
    ensures ParseLine(WriteLine(ids)) == Some(AsInts(ids))
    ensures ParseLine(WriteLine(ids) + "\n") == Some(AsInts(ids))
  {
    var ws := seq(|ids|, i requires 0 <= i < |ids| => Show(ids[i]));
    var j := WriteLine(ids);
    ShowWords(ids);
    WordsJoin(ws);
    ParseShows(ids);
    if ids == [] {
      assert j == [];
      assert Trim("\n") == [];
    } else {
      JoinEnds(ws, " ");
      assert !IsSpace(Last(ws)[|Last(ws)| - 1]);
      TrimLine(j);
    }
  }

  /** Blank lines, and lines holding only whitespace, give `[]`. */
  lemma {:induction false} BlankLine(line: string)
    requires forall i :: 0 <= i < |line| ==> IsSpace(line[i])
    ensures ParseLine(line) == Some([])
  {
    TrimSpec(line);
  }

  /** The lines of a file written one sequence per line. */
  function WriteLines(idss: seq<seq<nat>>): (r: seq<string>)
    ensures |r| == |idss| && forall k :: 0 <= k < |idss| ==> r[k] == WriteLine(idss[k]) + "\n"
  {
    seq(|idss|, k requires 0 <= k < |idss| => WriteLine(idss[k]) + "\n")
  }

  function AllAsInts(idss: seq<seq<nat>>): (r: seq<seq<int>>)
    ensures |r| == |idss| && forall k :: 0 <= k < |idss| ==> r[k] == AsInts(idss[k])
  {
    seq(|idss|, k requires 0 <= k < |idss| => AsInts(idss[k]))
  }

  /** A file written one sequence per line loads back as those sequences. */
  lemma {:induction false} LoadWritten(idss: seq<seq<nat>>)
    ensures Load(WriteLines(idss)) == Some(AllAsInts(idss))
  {
    if idss != [] {
      var init := idss[..|idss| - 1];
      var last := idss[|idss| - 1];
      var lines := WriteLines(idss);
      assert Load(lines[..|lines| - 1]) == Some(AllAsInts(init)) by {
        assert lines[..|lines| - 1] == WriteLines(init);
        LoadWritten(init);
      }
      assert ParseLine(lines[|lines| - 1]) == Some(AsInts(last)) by {
        ReadWritten(last);
      }
      LoadSnoc(lines, AllAsInts(init), AsInts(last));
      assert AllAsInts(init) + [AsInts(last)] == AllAsInts(idss) by {
        var all := AllAsInts(idss);
        assert all[..|all| - 1] == AllAsInts(init);
        LastSplit(all);
      }
    }
  }

  lemma {:induction false} LastSplit<T>(s: seq<T>)
    requires s != []
    ensures s == s[..|s| - 1] + [s[|s| - 1]]
  {
  }

  lemma {:induction false} LoadSnoc(lines: seq<string>, xss: seq<seq<int>>, xs: seq<int>)
    requires lines != []
    requires Load(lines[..|lines| - 1]) == Some(xss) && ParseLine(lines[|lines| - 1]) == Some(xs)
    ensures Load(lines) == Some(xss + [xs])
  {
  }

  // ---------------------------------------------------------------------
  // `create_training_pairs`
  // ---------------------------------------------------------------------

  /** How many pairs one sequence contributes: none when it is shorter than
      `c + 1`, otherwise one per start offset `0 .. len - c - 1`. */
  function PairCount(s: seq<int>, c: nat): nat
  {
    if |s| < c + 1 then 0 else |s| - c
  }

  /** The inputs one sequence contributes: the windows `s[i:i+c]`. */
  function Windows(s: seq<int>, c: nat): (r: seq<seq<int>>)
    ensures |r| == PairCount(s, c)
  {
    if |s| < c + 1 then [] else seq(|s| - c, i requires 0 <= i < |s| - c => s[i..i + c])
  }

  /** The targets one sequence contributes: the token after each window. */
  function Nexts(s: seq<int>, c: nat): (r: seq<int>)
    ensures |r| == PairCount(s, c)
  {
    if |s| < c + 1 then [] else seq(|s| - c, i requires 0 <= i < |s| - c => s[i + c])
  }

  /** What `f` contributes for every sequence, sequence after sequence. */
  function Collect<T>(ss: seq<seq<int>>, f: seq<int> -> seq<T>): seq<T>
  {
    if ss == [] then [] else Collect(ss[..|ss| - 1], f) + f(ss[|ss| - 1])
  }

  /** All inputs, sequence after sequence. */
  function Inputs(ss: seq<seq<int>>, c: nat): seq<seq<int>>
  {
    Collect(ss, s => Windows(s, c))
  }

  /** All targets, in the same order. */
  function Targets(ss: seq<seq<int>>, c: nat): seq<int>
  {
    Collect(ss, s => Nexts(s, c))
  }

  /** The total number of pairs. */
  function Total(ss: seq<seq<int>>, c: nat): nat
  {
    if ss == [] then 0 else Total(ss[..|ss| - 1], c) + PairCount(ss[|ss| - 1], c)
  }

  /** `create_training_pairs`: for every long enough sequence and every
      offset, the window of `c` tokens as input and the next token as target. */
  method CreateTrainingPairs(sequences: seq<seq<int>>, c: nat) returns (inputs: seq<seq<int>>, targets: seq<int>)
    ensures inputs == Inputs(sequences, c) && targets == Targets(sequences, c)
  {
    inputs, targets := [], [];
    for k := 0 to |sequences|
      invariant inputs == Inputs(sequences[..k], c) && targets == Targets(sequences[..k], c)
    {
      var s := sequences[k];
      CollectSnoc(sequences, k, s0 => Windows(s0, c));
      CollectSnoc(sequences, k, s0 => Nexts(s0, c));
      if |s| < c + 1 {
        continue;
      }
      inputs, targets := AddPairs(inputs, targets, s, c);
    }
    assert sequences[..|sequences|] == sequences;
  }

  /** The inner loop of `create_training_pairs` over one sequence that is
      long enough. */
  method AddPairs(inputs: seq<seq<int>>, targets: seq<int>, s: seq<int>, c: nat)
    returns (inputs': seq<seq<int>>, targets': seq<int>)
    requires |s| >= c + 1
    ensures inputs' == inputs + Windows(s, c) && targets' == targets + Nexts(s, c)
  {
    inputs', targets' := inputs, targets;
    for i := 0 to |s| - c
      invariant inputs' == inputs + Windows(s, c)[..i]
      invariant targets' == targets + Nexts(s, c)[..i]
    {
      PairsPrefix(s, c, i);
      inputs' := inputs' + [s[i..i + c]];
      targets' := targets' + [s[i + c]];
    }
    PairsWhole(s, c);
  }

  lemma {:induction false} PairsPrefix(s: seq<int>, c: nat, i: nat)
    requires |s| >= c + 1 && i < |s| - c
    ensures Windows(s, c)[..i + 1] == Windows(s, c)[..i] + [s[i..i + c]]
    ensures Nexts(s, c)[..i + 1] == Nexts(s, c)[..i] + [s[i + c]]
  {
  }

  lemma {:induction false} PairsWhole(s: seq<int>, c: nat)
    requires |s| >= c + 1
    ensures Windows(s, c)[..|s| - c] == Windows(s, c) && Nexts(s, c)[..|s| - c] == Nexts(s, c)
  {
  }

  lemma {:induction false} CollectSnoc<T>(ss: seq<seq<int>>, k: nat, f: seq<int> -> seq<T>)
    requires k < |ss|
    ensures Collect(ss[..k + 1], f) == Collect(ss[..k], f) + f(ss[k])
  {
    assert ss[..k + 1][..k] == ss[..k];
  }

  /** Inputs and targets line up: both hold one entry per pair, and every
      input is exactly `c` tokens long. */
  lemma {:induction false} PairsShape(ss: seq<seq<int>>, c: nat)
    ensures |Inputs(ss, c)| == |Targets(ss, c)| == Total(ss, c)
    ensures forall i :: 0 <= i < |Inputs(ss, c)| ==> |Inputs(ss, c)[i]| == c
  {
    if ss != [] {
      var init := ss[..|ss| - 1];
      PairsShape(init, c);
      var w := Windows(ss[|ss| - 1], c);
      assert Inputs(ss, c) == Inputs(init, c) + w;
      assert Targets(ss, c) == Targets(init, c) + Nexts(ss[|ss| - 1], c);
      forall i | 0 <= i < |Inputs(ss, c)| ensures |Inputs(ss, c)[i]| == c {
        if i >= |Inputs(init, c)| {
          assert Inputs(ss, c)[i] == w[i - |Inputs(init, c)|];
        }
      }
    }
  }

  lemma {:induction false} CollectAppend<T>(a: seq<seq<int>>, b: seq<seq<int>>, f: seq<int> -> seq<T>)
    ensures Collect(a + b, f) == Collect(a, f) + Collect(b, f)
  {
    if b == [] {
      assert a + b == a;
    } else {
      var b' := b[..|b| - 1];
      CollectAppend(a, b', f);
      var ab := a + b;
      assert ab[..|ab| - 1] == a + b';
      assert ab[|ab| - 1] == b[|b| - 1];
      calc {
        Collect(ab, f);
        Collect(a + b', f) + f(b[|b| - 1]);
        (Collect(a, f) + Collect(b', f)) + f(b[|b| - 1]);
        Collect(a, f) + (Collect(b', f) + f(b[|b| - 1]));
        Collect(a, f) + Collect(b, f);
      }
    }
  }

  /** Pair `i` of sequence `k` sits after all pairs of the sequences before
      it: its input is `s[i:i+c]` and its target `s[i+c]`. */
  lemma {:induction false} PairAt(ss: seq<seq<int>>, c: nat, k: nat, i: nat)
    requires k < |ss| && i < PairCount(ss[k], c)
    ensures var p := Total(ss[..k], c) + i;
      p < |Inputs(ss, c)| && p < |Targets(ss, c)| &&
      Inputs(ss, c)[p] == ss[k][i..i + c] && Targets(ss, c)[p] == ss[k][i + c]
  {
    InputAt(ss, c, k, i);
    TargetAt(ss, c, k, i);
  }

  lemma {:induction false} InputAt(ss: seq<seq<int>>, c: nat, k: nat, i: nat)
    requires k < |ss| && i < PairCount(ss[k], c)
    ensures var p := Total(ss[..k], c) + i;
      p < |Inputs(ss, c)| && Inputs(ss, c)[p] == ss[k][i..i + c]
  {
    PairsShape(ss[..k], c);
    CollectAt(ss, k, s => Windows(s, c));
  }

  lemma {:induction false} TargetAt(ss: seq<seq<int>>, c: nat, k: nat, i: nat)
    requires k < |ss| && i < PairCount(ss[k], c)
    ensures var p := Total(ss[..k], c) + i;
      p < |Targets(ss, c)| && Targets(ss, c)[p] == ss[k][i + c]
  {
    PairsShape(ss[..k], c);
    CollectAt(ss, k, s => Nexts(s, c));
  }

  /** The contribution of sequence `k` sits between those of the sequences
      before and after it. */
  lemma {:induction false} CollectAt<T>(ss: seq<seq<int>>, k: nat, f: seq<int> -> seq<T>)
    requires k < |ss|
    ensures Collect(ss, f) == Collect(ss[..k], f) + f(ss[k]) + Collect(ss[k + 1..], f)
  {
    var pre, mid, post := ss[..k], ss[..k + 1], ss[k + 1..];
    assert Collect(mid, f) == Collect(pre, f) + f(ss[k]) by {
      CollectSnoc(ss, k, f);
    }
    assert ss == mid + post;
    CollectAppend(mid, post, f);
  }

  /** A sequence shorter than `c + 1` adds no pair. */
  lemma {:induction false} ShortSequence(ss: seq<seq<int>>, s: seq<int>, c: nat)
    requires |s| < c + 1
    ensures Inputs(ss + [s], c) == Inputs(ss, c) && Targets(ss + [s], c) == Targets(ss, c)
  {
    assert (ss + [s])[..|ss|] == ss;
  }
}
