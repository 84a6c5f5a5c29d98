/** The word tokenizer of tokenizer.py: text normalisation, whitespace
    tokenising, vocabulary building by frequency, and encoding and decoding
    through the vocabulary. A Python dict is modelled as its list of entries
    in insertion order, which is what `dict.items()` iterates. Case mapping,
    whitespace and the `\w` class are narrowed to ASCII; Python's are
    Unicode-aware (`\w` takes accented letters and other scripts' digits,
    `lower()` maps non-ASCII capitals, and U+00A0 is whitespace). */
module Tokenizer {
  import opened Strings
  import ApiServer

  predicate IsUpper(c: char)
  {
    'A' <= c <= 'Z'
  }

  /** `\w` narrowed to ASCII: letters, digits and the underscore. */
  predicate IsWordChar(c: char)
  {
    'a' <= c <= 'z' || 'A' <= c <= 'Z' || '0' <= c <= '9' || c == '_'
  }

  /** The characters `[^\w\s\']` does not match. */
  predicate Kept(c: char)
  {
    IsWordChar(c) || IsSpace(c) || c == '\''
  }

  /** `re.sub(r'[^\w\s\']', '', text)`. */
  function RemovePunctuation(s: string): (r: string)
    ensures forall c :: c in r ==> c in s && Kept(c)
    ensures (forall i :: 0 <= i < |s| ==> Kept(s[i])) ==> r == s
    ensures (forall i :: 0 <= i < |s| ==> !Kept(s[i])) ==> r == []
  {
    if s == [] then []
    else
      assert s == [s[0]] + s[1..];
      (if Kept(s[0]) then [s[0]] else []) + RemovePunctuation(s[1..])
  }

  /** `re.sub(r'\s+', ' ', text)`: every maximal run of whitespace becomes a
      single space. */
  function Collapse(s: string): (r: string)
    ensures r == [] <==> s == []
    ensures s != [] && !IsSpace(s[0]) ==> r[0] == s[0]
    decreases |s|
  {
    if s == [] then []
    else if IsSpace(s[0]) then [' '] + Collapse(TrimStart(s))
    else [s[0]] + Collapse(s[1..])
  }

  /** Collapsing leaves only single ' ' characters as whitespace and adds no
      character other than ' '. */
  lemma {:induction false} CollapseSpaced(s: string)
    ensures SingleSpaced(Collapse(s))
    ensures forall c :: c in Collapse(s) ==> c == ' ' || c in s
    decreases |s|
  {
    if s != [] {
      TrimStartSpec(s);
      var t := if IsSpace(s[0]) then TrimStart(s) else s[1..];
      var h := if IsSpace(s[0]) then ' ' else s[0];
      CollapseSpaced(t);
      assert Collapse(s) == [h] + Collapse(t);
      SpacedCons(h, Collapse(t));
      assert t == s[|s| - |t|..];
      assert forall c :: c in t ==> c in s;
    }
  }

  /** One more character in front of a single-spaced text. */
  lemma {:induction false} SpacedCons(h: char, t: string)
    requires SingleSpaced(t)
    requires IsSpace(h) ==> h == ' ' && (t == [] || !IsSpace(t[0]))
    ensures SingleSpaced([h] + t)
    ensures forall c :: c in [h] + t ==> c == h || c in t
  {
    var r := [h] + t;
    assert forall i :: 1 <= i < |r| ==> r[i] == t[i - 1];
  }

  /** A slice of a single-spaced text is single-spaced. */
  lemma {:induction false} SpacedSlice(s: string, a: nat, b: nat)
    requires SingleSpaced(s) && a <= b <= |s|
    ensures SingleSpaced(s[a..b])
    ensures forall c :: c in s[a..b] ==> c in s
  {
    var u := s[a..b];
    assert forall i :: 0 <= i < |u| ==> u[i] == s[a + i];
  }

  /** Characters of `Trim(s)` are characters of `s`, and single spacing
      survives trimming. */
  lemma {:induction false} TrimKeeps(s: string)
    requires SingleSpaced(s)
    ensures forall c :: c in Trim(s) ==> c in s
    ensures SingleSpaced(Trim(s))
  {
    var t := TrimStart(s);
    TrimStartSpec(s);
    SpacedSlice(s, |s| - |t|, |s|);
    var r := TrimEnd(t);
    TrimEndSpec(t);
    SpacedSlice(t, 0, |r|);
  }

  /** Collapsing and stripping gives a single-spaced text with no
      whitespace at either end, made of `' '` and characters of the input. */
  lemma {:induction false} NormalForm(b: string)
    ensures var r := Trim(Collapse(b));
      SingleSpaced(r) && (r == [] || (!IsSpace(r[0]) && !IsSpace(r[|r| - 1]))) &&
      forall x :: x in r ==> x == ' ' || x in b
  {
    var c := Collapse(b);
    CollapseSpaced(b);
    TrimKeeps(c);
    TrimSpec(c);
  }

  /** A tokenizer's flags and its current vocabulary, a dict from word to id
      kept as its entries in insertion order. */
  class Tokenizer {
    const lowercase: bool
    const removePunctuation: bool
    var vocab: seq<(string, nat)>
    var vocabSize: nat

    /** The vocabulary is what `build_vocab` leaves: entry `j` has id `j`,
        the words are distinct, and the size field is its length. */
    ghost predicate Valid()
      reads this
    {
      Indexed(vocab) && UniqueWords(vocab) && vocabSize == |vocab|
    }

    constructor(lowercase: bool, removePunctuation: bool)
      ensures Valid() && vocab == [] && vocabSize == 0
      ensures this.lowercase == lowercase && this.removePunctuation == removePunctuation
    {
      this.lowercase := lowercase;
      this.removePunctuation := removePunctuation;
      vocab := [];
      vocabSize := 0;
    }

    /** `preprocess_text`: lower-casing and punctuation removal as the flags
        say, then whitespace runs collapsed and the ends stripped. */
    function PreprocessText(text: string): (r: string)
      ensures lowercase ==> forall c :: c in r ==> !IsUpper(c)
      ensures removePunctuation ==> forall c :: c in r ==> Kept(c)
      ensures SingleSpaced(r)
      ensures r == [] || (!IsSpace(r[0]) && !IsSpace(r[|r| - 1]))
    {
      var a := if lowercase then ToLower(text) else text;
      var b := if removePunctuation then RemovePunctuation(a) else a;
      NormalForm(b);
      assert lowercase ==> forall x :: x in a ==> !IsUpper(x);
      Trim(Collapse(b))
    }

    /** `tokenize`: the preprocessed text split on whitespace. */
    function Tokenize(text: string): (r: seq<string>)
      ensures forall i :: 0 <= i < |r| ==> r[i] != [] && NoSpace(r[i])
    {
      Words(PreprocessText(text))
    }

    /** Joining the tokens with single spaces gives the preprocessed text
        back, so tokenizing loses nothing but the normalisation. */
    lemma {:induction false} TokensJoin(text: string)
      ensures Join(Tokenize(text), " ") == PreprocessText(text)
    {
      var p := PreprocessText(text);
      if p != [] {
        WordsSplit(p);
        JoinSplit(p, " ");
      }
    }

    /** Empty text, and text made only of punctuation when punctuation is
        removed, give no tokens. */
    lemma {:induction false} NoTokens(text: string)
      requires text == [] || (removePunctuation && forall i :: 0 <= i < |text| ==> !Kept(text[i]))
      ensures Tokenize(text) == []
    {
      var a := if lowercase then ToLower(text) else text;
      if text != [] {
        assert forall i :: 0 <= i < |a| ==> !Kept(a[i]) by {
          forall i | 0 <= i < |a| ensures !Kept(a[i]) {
            assert !Kept(text[i]);
          }
        }
      }
    }

    /** The tokens of all texts, in order: what the Counter is updated with. */
    function AllTokens(texts: seq<string>): seq<string>
    {
      if texts == [] then [] else AllTokens(texts[..|texts| - 1]) + Tokenize(texts[|texts| - 1])
    }

    /** `build_vocab`: counts every token of every text, orders the words by
        decreasing count (ties in order of first appearance, as
        `Counter.most_common` does), keeps those counted at least `min_freq`
        times with their rank as id, and replaces the vocabulary. */
    method BuildVocab(texts: seq<string>, minFreq: int) returns (v: seq<(string, nat)>)
      modifies this
      ensures Valid() && vocab == v && vocabSize == |v|
      ensures var ws := AllTokens(texts);
        var mc := MostCommon(ws);
        v == Frequent(ws, mc, minFreq, 0)
    {
      var keys, counts := CountTokens(texts);
      BuildVocabCorrect(AllTokens(texts), keys, counts, minFreq);
      var mc := RankByCount(keys, counts);
      v := FrequentEntries(mc, counts, minFreq, 0);
      vocab := v;
      vocabSize := |v|;
    }

    /** The Counter `build_vocab` fills: `counter.update(tokenize(text))`
        for every text. */
    method CountTokens(texts: seq<string>) returns (keys: seq<string>, counts: map<string, nat>)
      ensures CounterOf(AllTokens(texts), keys, counts)
    {
      keys, counts := [], map[];
      ghost var ws: seq<string> := [];
      for i := 0 to |texts|
        invariant ws == AllTokens(texts[..i])
        invariant CounterOf(ws, keys, counts)
      {
        var tokens := Tokenize(texts[i]);
        keys, counts := Update(ws, keys, counts, tokens);
        ws := ws + tokens;
        AllTokensSnoc(texts, i);
      }
      assert texts[..|texts|] == texts;
    }

    lemma {:induction false} AllTokensSnoc(texts: seq<string>, i: nat)
      requires i < |texts|
      ensures AllTokens(texts[..i + 1]) == AllTokens(texts[..i]) + Tokenize(texts[i])
    {
      var u := texts[..i + 1];
      assert u[..|u| - 1] == texts[..i];
      assert u[|u| - 1] == texts[i];
      assert AllTokens(u) == AllTokens(u[..|u| - 1]) + Tokenize(u[|u| - 1]);
    }

    /** `encode`: the id of every token, 0 for a word not in the vocabulary. */
    function Encode(text: string): (r: seq<nat>)
      reads this
      ensures |r| == |Tokenize(text)|
    {
      EncodeTokens(vocab, Tokenize(text))
    }

    /** `decode`: every id mapped back through the reversed vocabulary,
        `<UNK>` for an id no word has, joined with single spaces. */
    function Decode(ids: seq<int>): string
      reads this
    {
      Join(DecodeIds(vocab, ids), " ")
    }

    /** Encoding and decoding give back the joined tokens when every token
        is in the vocabulary. */
    lemma {:induction false} DecodeEncode(text: string)
      requires Valid()
      requires forall i :: 0 <= i < |Tokenize(text)| ==> HasWord(vocab, Tokenize(text)[i])
      ensures Decode(Encode(text)) == Join(Tokenize(text), " ") == PreprocessText(text)
    {
      var ts := Tokenize(text);
      var ids := Encode(text);
      var back := DecodeIds(vocab, ids);
      forall i | 0 <= i < |ts| ensures back[i] == ts[i] {
        GetReverse(vocab, ts[i]);
      }
      assert back == ts;
      TokensJoin(text);
    }

    /** Unknown words share id 0 with the most frequent word, and ids no
        word has decode to `<UNK>`. */
    lemma {:induction false} UnknownIds(text: string, ids: seq<int>)
      requires Valid()
      ensures forall i :: 0 <= i < |Tokenize(text)| && !HasWord(vocab, Tokenize(text)[i]) ==> Encode(text)[i] == 0
      ensures vocab != [] ==> vocab[0].1 == 0
      ensures forall i :: 0 <= i < |ids| && (ids[i] < 0 || ids[i] >= |vocab|) ==> ReverseGet(vocab, ids[i]) == Unknown
    {
      forall i | 0 <= i < |ids| && (ids[i] < 0 || ids[i] >= |vocab|) ensures ReverseGet(vocab, ids[i]) == Unknown {
        ReverseMissing(vocab, ids[i]);
      }
    }

    /** `get_stats`. */
    function GetStats(): (s: Stats)
      reads this
      ensures Valid() ==> s.vocabSize == |vocab|
      ensures s.lowercase == lowercase && s.removePunctuation == removePunctuation
    {
      Stats(vocabSize, lowercase, removePunctuation)
    }
  }

  datatype Stats = Stats(vocabSize: nat, lowercase: bool, removePunctuation: bool)

  const Unknown := "<UNK>"

  // ---------------------------------------------------------------------
  // Dicts as entry lists
  // ---------------------------------------------------------------------

  predicate Indexed(d: seq<(string, nat)>)
  {
    forall j :: 0 <= j < |d| ==> d[j].1 == j
  }

  predicate UniqueWords(d: seq<(string, nat)>)
  {
    forall a, b :: 0 <= a < b < |d| ==> d[a].0 != d[b].0
  }

  predicate HasWord(d: seq<(string, nat)>, w: string)
  {
    exists j :: 0 <= j < |d| && d[j].0 == w
  }

  /** Every token looked up with `get(t, 0)`. */
  function EncodeTokens(d: seq<(string, nat)>, ts: seq<string>): (r: seq<nat>)
    ensures |r| == |ts| && forall i :: 0 <= i < |ts| ==> r[i] == Get(d, ts[i])
  {
    seq(|ts|, i requires 0 <= i < |ts| => Get(d, ts[i]))
  }

  /** Every id looked up in the reversed dict. */
  function DecodeIds(d: seq<(string, nat)>, ids: seq<int>): (r: seq<string>)
    ensures |r| == |ids| && forall i :: 0 <= i < |ids| ==> r[i] == ReverseGet(d, ids[i])
  {
    seq(|ids|, i requires 0 <= i < |ids| => ReverseGet(d, ids[i]))
  }

  /** `d.get(w, 0)`. */
  function Get(d: seq<(string, nat)>, w: string): (r: nat)
    ensures !HasWord(d, w) ==> r == 0
    ensures HasWord(d, w) ==> exists j :: 0 <= j < |d| && d[j].0 == w && d[j].1 == r
  {
    if d == [] then 0
    else if d[|d| - 1].0 == w then d[|d| - 1].1
    else
      var r := Get(d[..|d| - 1], w);
      assert forall j :: 0 <= j < |d| - 1 ==> d[..|d| - 1][j] == d[j];
      r
  }

  /** `{idx: word for word, idx in d.items()}.get(i, '<UNK>')`: the last
      entry with that id wins. */
  function ReverseGet(d: seq<(string, nat)>, i: int): string
  {
    if d == [] then Unknown
    else if d[|d| - 1].1 == i then d[|d| - 1].0
    else ReverseGet(d[..|d| - 1], i)
  }

  lemma {:induction false} GetReverse(d: seq<(string, nat)>, w: string)
    requires Indexed(d) && UniqueWords(d) && HasWord(d, w)
    ensures ReverseGet(d, Get(d, w)) == w
  {
    var j :| 0 <= j < |d| && d[j].0 == w && d[j].1 == Get(d, w);
    ReverseAt(d, j);
  }

  lemma {:induction false} ReverseAt(d: seq<(string, nat)>, j: nat)
    requires Indexed(d) && j < |d|
    ensures ReverseGet(d, j) == d[j].0
    decreases |d|
  {
    if j < |d| - 1 {
      var e := d[..|d| - 1];
      assert Indexed(e);
      ReverseAt(e, j);
    }
  }

  lemma {:induction false} ReverseMissing(d: seq<(string, nat)>, i: int)
    requires Indexed(d) && (i < 0 || i >= |d|)
    ensures ReverseGet(d, i) == Unknown
    decreases |d|
  {
    if d != [] {
      var e := d[..|d| - 1];
      assert Indexed(e);
      ReverseMissing(e, i);
    }
  }

  // ---------------------------------------------------------------------
  // The Counter and `most_common`
  // ---------------------------------------------------------------------

  /** How often `w` occurs in `ws`. */
  function Occurrences(ws: seq<string>, w: string): nat
  {
    if ws == [] then 0
    else Occurrences(ws[..|ws| - 1], w) + (if ws[|ws| - 1] == w then 1 else 0)
  }

  /** `Counter.update(tokens)`: one more count for every token, new words
      appended to the key order. */
  method Update(ghost ws: seq<string>, keys: seq<string>, counts: map<string, nat>, tokens: seq<string>)
    returns (keys': seq<string>, counts': map<string, nat>)
    requires CounterOf(ws, keys, counts)
    ensures CounterOf(ws + tokens, keys', counts')
  {
    keys', counts' := keys, counts;
    assert ws + tokens[..0] == ws;
    for j := 0 to |tokens|
      invariant CounterOf(ws + tokens[..j], keys', counts')
    {
      var t := tokens[j];
      CounterStep(ws + tokens[..j], keys', counts', t);
      if t in counts' {
        counts' := counts'[t := counts'[t] + 1];
      } else {
        keys' := keys' + [t];
        counts' := counts'[t := 1];
      }
      SliceSnoc(ws, tokens, j);
    }
    assert tokens[..|tokens|] == tokens;
  }

  lemma {:induction false} SliceSnoc(a: seq<string>, b: seq<string>, j: nat)
    requires j < |b|
    ensures a + b[..j + 1] == (a + b[..j]) + [b[j]]
  {
    assert b[..j + 1] == b[..j] + [b[j]];
  }

  lemma {:induction false} OccurrencesAbsent(ws: seq<string>, w: string)
    requires w !in ws
    ensures Occurrences(ws, w) == 0
  {
    if ws != [] {
      OccurrencesAbsent(ws[..|ws| - 1], w);
    }
  }

  /** The distinct words of `ws` in order of first occurrence: the
      Counter's key order. */
  function FirstSeen(ws: seq<string>): (r: seq<string>)
    ensures forall w :: w in r <==> w in ws
    ensures forall a, b :: 0 <= a < b < |r| ==> r[a] != r[b]
  {
    if ws == [] then []
    else
      var f := FirstSeen(ws[..|ws| - 1]);
      assert forall w :: w in ws <==> w in ws[..|ws| - 1] || w == ws[|ws| - 1] by {
        assert ws == ws[..|ws| - 1] + [ws[|ws| - 1]];
      }
      if ws[|ws| - 1] in f then f else f + [ws[|ws| - 1]]
  }

  /** `keys` (insertion order) and `counts` are the Counter of `ws`. */
  ghost predicate CounterOf(ws: seq<string>, keys: seq<string>, counts: map<string, nat>)
  {
    keys == FirstSeen(ws) &&
    (forall w :: w in counts <==> w in keys) &&
    (forall w :: w in counts ==> counts[w] == Occurrences(ws, w))
  }

  lemma {:induction false} CounterStep(ws: seq<string>, keys: seq<string>, counts: map<string, nat>, t: string)
    requires CounterOf(ws, keys, counts)
    ensures t in counts ==> CounterOf(ws + [t], keys, counts[t := counts[t] + 1])
    ensures t !in counts ==> CounterOf(ws + [t], keys + [t], counts[t := 1])
  {
    var ws' := ws + [t];
    assert ws'[..|ws'| - 1] == ws;
    assert FirstSeen(ws') == if t in ws then keys else keys + [t];
    if t !in ws {
      OccurrencesAbsent(ws, t);
    }
    assert forall w :: Occurrences(ws', w) == Occurrences(ws, w) + (if t == w then 1 else 0);
  }

  /** The count of every word of `ws`, as the values `most_common` sorts. */
  function CountValues(ws: seq<string>, keys: seq<string>): (xs: seq<real>)
    ensures |xs| == |keys|
    ensures forall i :: 0 <= i < |keys| ==> xs[i] == Occurrences(ws, keys[i]) as real
  {
    seq(|keys|, i requires 0 <= i < |keys| => Occurrences(ws, keys[i]) as real)
  }

  /** `Counter(ws).most_common()` as a list of words: all distinct words by
      decreasing count, ties kept in first-occurrence order (a stable sort). */
  function MostCommon(ws: seq<string>): (mc: seq<string>)
    ensures |mc| == |FirstSeen(ws)|
    ensures forall w :: w in mc <==> w in ws
    ensures forall a, b :: 0 <= a < b < |mc| ==> mc[a] != mc[b]
    ensures forall a, b :: 0 <= a < b < |mc| ==> Occurrences(ws, mc[a]) >= Occurrences(ws, mc[b])
  {
    var keys := FirstSeen(ws);
    var r := ApiServer.Ranking(CountValues(ws, keys), |keys|);
    PickRanked(ws, keys, r);
    Pick(keys, r)
  }

  /** The words at the ranked positions. */
  function Pick(keys: seq<string>, r: seq<nat>): (mc: seq<string>)
    requires forall j :: 0 <= j < |r| ==> r[j] < |keys|
    ensures |mc| == |r| && forall j :: 0 <= j < |r| ==> mc[j] == keys[r[j]]
  {
    seq(|r|, j requires 0 <= j < |r| => keys[r[j]])
  }

  lemma {:induction false} PickRanked(ws: seq<string>, keys: seq<string>, r: seq<nat>)
    requires keys == FirstSeen(ws) && r == ApiServer.Ranking(CountValues(ws, keys), |keys|)
    ensures var mc := Pick(keys, r);
      |mc| == |keys| &&
      (forall w :: w in mc <==> w in ws) &&
      (forall a, b :: 0 <= a < b < |mc| ==> mc[a] != mc[b]) &&
      (forall a, b :: 0 <= a < b < |mc| ==> Occurrences(ws, mc[a]) >= Occurrences(ws, mc[b]))
  {
    var xs := CountValues(ws, keys);
    var mc := Pick(keys, r);
    forall w | w in keys ensures w in mc {
      var i :| 0 <= i < |keys| && keys[i] == w;
      var inat: nat := i;
      assert inat in r;
      var j :| 0 <= j < |r| && r[j] == inat;
      assert mc[j] == w;
    }
    forall a, b | 0 <= a < b < |mc| ensures Occurrences(ws, mc[a]) >= Occurrences(ws, mc[b]) {
      assert xs[r[a]] >= xs[r[b]];
    }
  }

  /** `most_common` computed from the Counter the loop built. */
  function RankByCount(keys: seq<string>, counts: map<string, nat>): (mc: seq<string>)
    requires forall w :: w in keys ==> w in counts
    ensures forall w :: w in mc ==> w in counts
  {
    var xs := seq(|keys|, i requires 0 <= i < |keys| => counts[keys[i]] as real);
    Pick(keys, ApiServer.Ranking(xs, |keys|))
  }

  /** `{word: idx for idx, (word, count) in enumerate(mc) if count >= min_freq}`
      from position `j` on, as entries in insertion order. */
  function Frequent(ws: seq<string>, mc: seq<string>, minFreq: int, j: nat): seq<(string, nat)>
    decreases |mc| - j
  {
    if j >= |mc| then []
    else (if Occurrences(ws, mc[j]) >= minFreq then [(mc[j], j)] else []) + Frequent(ws, mc, minFreq, j + 1)
  }

  /** The same comprehension over the Counter the loop built. */
  function FrequentEntries(mc: seq<string>, counts: map<string, nat>, minFreq: int, j: nat): seq<(string, nat)>
    requires forall w :: w in mc ==> w in counts
    decreases |mc| - j
  {
    if j >= |mc| then []
    else (if counts[mc[j]] >= minFreq then [(mc[j], j)] else []) + FrequentEntries(mc, counts, minFreq, j + 1)
  }

  /** The vocabulary computed from the Counter is the comprehension over
      `most_common`, and it is indexed and duplicate-free. */
  lemma {:induction false} BuildVocabCorrect(ws: seq<string>, keys: seq<string>, counts: map<string, nat>, minFreq: int)
    requires CounterOf(ws, keys, counts)
    ensures forall w :: w in keys ==> w in counts
    ensures var mc := RankByCount(keys, counts);
      var v := FrequentEntries(mc, counts, minFreq, 0);
      mc == MostCommon(ws) && v == Frequent(ws, mc, minFreq, 0) && Indexed(v) && UniqueWords(v)
  {
    var mc := RankByCount(keys, counts);
    RankSame(ws, keys, counts);
    FrequentSame(ws, mc, counts, minFreq, 0);
    FrequentValid(ws, mc, minFreq, 0);
  }

  /** `most_common` of the Counter the loop built is `most_common` of the
      tokens. */
  lemma {:induction false} RankSame(ws: seq<string>, keys: seq<string>, counts: map<string, nat>)
    requires CounterOf(ws, keys, counts)
    ensures RankByCount(keys, counts) == MostCommon(ws)
  {
    var xs := seq(|keys|, i requires 0 <= i < |keys| => counts[keys[i]] as real);
    assert xs == CountValues(ws, keys);
  }

  lemma {:induction false} FrequentSame(ws: seq<string>, mc: seq<string>, counts: map<string, nat>, minFreq: int, j: nat)
    requires forall w :: w in mc ==> w in counts && counts[w] == Occurrences(ws, w)
    ensures FrequentEntries(mc, counts, minFreq, j) == Frequent(ws, mc, minFreq, j)
    decreases |mc| - j
  {
    if j < |mc| {
      FrequentSame(ws, mc, counts, minFreq, j + 1);
    }
  }

  /** The index of the first word counted fewer than `min_freq` times (or
      the length). */
  function FirstRare(ws: seq<string>, mc: seq<string>, minFreq: int, j: nat): (n: nat)
    requires j <= |mc|
    ensures j <= n <= |mc|
    decreases |mc| - j
  {
    if j == |mc| || Occurrences(ws, mc[j]) < minFreq then j else FirstRare(ws, mc, minFreq, j + 1)
  }

  /** The words `mc[j..n]`, each with its index as id. */
  function Numbered(mc: seq<string>, j: nat, n: nat): seq<(string, nat)>
    requires j <= n <= |mc|
    decreases n - j
  {
    if j == n then [] else [(mc[j], j)] + Numbered(mc, j + 1, n)
  }

  lemma {:induction false} NumberedAt(mc: seq<string>, j: nat, n: nat)
    requires j <= n <= |mc|
    ensures |Numbered(mc, j, n)| == n - j
    ensures forall k :: 0 <= k < n - j ==> Numbered(mc, j, n)[k] == (mc[j + k], j + k)
    decreases n - j
  {
    if j < n {
      NumberedAt(mc, j + 1, n);
    }
  }

  /** `mc` lists words by decreasing count in `ws`. */
  ghost predicate ByCount(ws: seq<string>, mc: seq<string>)
  {
    forall a, b :: 0 <= a < b < |mc| ==> Occurrences(ws, mc[a]) >= Occurrences(ws, mc[b])
  }

  /** Because the words are sorted by decreasing count, the kept words are
      a prefix: the comprehension from `j` on numbers `mc[j..n]`, and a word
      from `j` on is kept exactly when it is counted at least `min_freq`
      times. */
  lemma {:induction false} FrequentPrefix(ws: seq<string>, mc: seq<string>, minFreq: int, j: nat)
    requires ByCount(ws, mc) && j <= |mc|
    ensures var n := FirstRare(ws, mc, minFreq, j);
      Frequent(ws, mc, minFreq, j) == Numbered(mc, j, n) &&
      forall k :: j <= k < |mc| ==> (Occurrences(ws, mc[k]) >= minFreq <==> k < n)
    decreases |mc| - j
  {
    if j < |mc| {
      if Occurrences(ws, mc[j]) < minFreq {
        RareSuffix(ws, mc, minFreq, j);
      } else {
        FrequentPrefix(ws, mc, minFreq, j + 1);
      }
    }
  }

  lemma {:induction false} RareSuffix(ws: seq<string>, mc: seq<string>, minFreq: int, j: nat)
    requires ByCount(ws, mc) && j < |mc| && Occurrences(ws, mc[j]) < minFreq
    ensures Frequent(ws, mc, minFreq, j) == []
    ensures forall k :: j <= k < |mc| ==> Occurrences(ws, mc[k]) < minFreq
    decreases |mc| - j
  {
    if j + 1 < |mc| {
      assert Occurrences(ws, mc[j]) >= Occurrences(ws, mc[j + 1]);
      RareSuffix(ws, mc, minFreq, j + 1);
    }
  }

  /** The vocabulary `build_vocab` makes satisfies the class invariant. */
  lemma {:induction false} FrequentValid(ws: seq<string>, mc: seq<string>, minFreq: int, j: nat)
    requires mc == MostCommon(ws) && j == 0
    ensures Indexed(Frequent(ws, mc, minFreq, j)) && UniqueWords(Frequent(ws, mc, minFreq, j))
  {
    var n := FirstRare(ws, mc, minFreq, 0);
    FrequentPrefix(ws, mc, minFreq, 0);
    NumberedAt(mc, 0, n);
  }

  /** The words kept by `build_vocab` are exactly those counted at least
      `min_freq` times; the ids are `0..n-1` in order of decreasing count. */
  lemma {:induction false} BuildVocabSpec(ws: seq<string>, minFreq: int)
    ensures var mc := MostCommon(ws);
      var v := Frequent(ws, mc, minFreq, 0);
      Indexed(v) && UniqueWords(v) &&
      (forall w :: HasWord(v, w) <==> w in ws && Occurrences(ws, w) >= minFreq) &&
      (forall a, b :: 0 <= a < b < |v| ==> Occurrences(ws, v[a].0) >= Occurrences(ws, v[b].0))
  {
    var mc := MostCommon(ws);
    var n := FirstRare(ws, mc, minFreq, 0);
    FrequentValid(ws, mc, minFreq, 0);
    FrequentPrefix(ws, mc, minFreq, 0);
    var v := Numbered(mc, 0, n);
    NumberedAt(mc, 0, n);
    KeptWords(ws, mc, minFreq, v);
  }

  /** A prefix of the ranking that stops at the first rare word holds
      exactly the frequent words, most frequent first. */
  lemma {:induction false} KeptWords(ws: seq<string>, mc: seq<string>, minFreq: int, v: seq<(string, nat)>)
    requires forall w :: w in mc <==> w in ws
    requires forall a, b :: 0 <= a < b < |mc| ==> Occurrences(ws, mc[a]) >= Occurrences(ws, mc[b])
    requires |v| <= |mc| && forall k :: 0 <= k < |v| ==> v[k].0 == mc[k]
    requires forall k :: 0 <= k < |mc| ==> (Occurrences(ws, mc[k]) >= minFreq <==> k < |v|)
    ensures forall w :: HasWord(v, w) <==> w in ws && Occurrences(ws, w) >= minFreq
    ensures forall a, b :: 0 <= a < b < |v| ==> Occurrences(ws, v[a].0) >= Occurrences(ws, v[b].0)
  {
    forall w ensures HasWord(v, w) <==> w in ws && Occurrences(ws, w) >= minFreq {
      if w in ws && Occurrences(ws, w) >= minFreq {
        var k :| 0 <= k < |mc| && mc[k] == w;
        assert v[k].0 == w;
      }
    }
  }
}
