/** String helpers shared by the modules: the whitespace class, trimming,
    prefix and substring tests, ASCII case mapping, splitting on a separator
    (the semantics shared by JavaScript's `String.prototype.split` and
    Python's `str.split(sep)`), joining, and whitespace tokenising (Python's
    `str.split()` with no argument). */
module Strings {

  /** The six ASCII whitespace characters. JavaScript's `\s` and `trim`, and
      Python's `\s`, `strip` and `split()`, also take Unicode spaces such as
      U+00A0 and U+2028; this model narrows them to these six. */
  predicate IsSpace(c: char)
  {
    c == ' ' || c == '\t' || c == '\n' || c == '\r' || c == '\U{000B}' || c == '\U{000C}'
  }

  predicate NoSpace(s: string)
  {
    forall i :: 0 <= i < |s| ==> !IsSpace(s[i])
  }

  /** `trimStart()` / `lstrip()`. */
  function TrimStart(s: string): (r: string)
    ensures |r| <= |s|
  {
    if s != [] && IsSpace(s[0]) then TrimStart(s[1..]) else s
  }

  /** `trimEnd()` / `rstrip()`. */
  function TrimEnd(s: string): (r: string)
    ensures |r| <= |s|
  {
    if s != [] && IsSpace(s[|s| - 1]) then TrimEnd(s[..|s| - 1]) else s
  }

  /** `trim()` / `strip()`. */
  function Trim(s: string): (r: string)
    ensures |r| <= |s|
  {
    TrimEnd(TrimStart(s))
  }

  /** Left trimming drops exactly the leading whitespace: what is left is a
      suffix that is empty or starts with non-whitespace. */
  lemma {:induction false} TrimStartSpec(s: string)
    ensures var r := TrimStart(s);
      r == s[|s| - |r|..] && (r == [] || !IsSpace(r[0])) &&
      (forall i :: 0 <= i < |s| - |r| ==> IsSpace(s[i])) &&
      (s != [] && IsSpace(s[0]) ==> |r| < |s|)
    decreases |s|
  {
    if s != [] && IsSpace(s[0]) {
      TrimStartSpec(s[1..]);
      var r := TrimStart(s);
      forall i | 0 <= i < |s| - |r| ensures IsSpace(s[i]) {
        if i > 0 {
          assert s[i] == s[1..][i - 1];
        }
      }
    }
  }

  /** Right trimming drops exactly the trailing whitespace. */
  lemma {:induction false} TrimEndSpec(s: string)
    ensures var r := TrimEnd(s);
      r == s[..|r|] && (r == [] || !IsSpace(r[|r| - 1])) &&
      (forall i :: |r| <= i < |s| ==> IsSpace(s[i]))
    decreases |s|
  {
    if s != [] && IsSpace(s[|s| - 1]) {
      var p := s[..|s| - 1];
      TrimEndSpec(p);
      var r := TrimEnd(s);
      assert r == TrimEnd(p);
      assert r == s[..|r|] by {
        assert p[..|r|] == s[..|r|];
      }
      forall i | |r| <= i < |s| ensures IsSpace(s[i]) {
        if i < |s| - 1 {
          assert s[i] == p[i];
        }
      }
    }
  }

  /** `trim()` leaves no whitespace at either end, and gives the empty text
      exactly for an all-whitespace text. */
  lemma {:induction false} TrimSpec(s: string)
    ensures var r := Trim(s);
      (r == [] || (!IsSpace(r[0]) && !IsSpace(r[|r| - 1]))) &&
      (r == [] <==> forall i :: 0 <= i < |s| ==> IsSpace(s[i]))
  {
    var t := TrimStart(s);
    var r := TrimEnd(t);
    TrimStartSpec(s);
    TrimEndSpec(t);
    if r != [] {
      assert r[0] == t[0];
    }
    if r == [] {
      assert t == [];
    }
  }

  /** `s.trim() === ''`: every character is whitespace. */
  predicate IsBlank(s: string)
  {
    forall i :: 0 <= i < |s| ==> IsSpace(s[i])
  }

  /** Concatenation is associative; stating it saves the solver an
      element-by-element proof. */
  lemma {:induction false} AppendAssoc<T>(a: seq<T>, b: seq<T>, c: seq<T>)
    ensures a + b + c == a + (b + c)
  {
  }

  /** A text is blank exactly when trimming leaves nothing. */
  lemma {:induction false} BlankTrim(s: string)
    ensures IsBlank(s) <==> Trim(s) == []
  {
    TrimSpec(s);
  }

  predicate StartsWith(s: string, p: string)
  {
    |p| <= |s| && s[..|p|] == p
  }

  predicate EndsWith(s: string, p: string)
  {
    |p| <= |s| && s[|s| - |p|..] == p
  }

  /** `s.includes(p)` / `p in s`. */
  predicate Contains(s: string, p: string)
    decreases |s|
  {
    StartsWith(s, p) || (s != [] && Contains(s[1..], p))
  }

  predicate ContainsAny(s: string, ps: seq<string>)
  {
    exists i :: 0 <= i < |ps| && Contains(s, ps[i])
  }

  function LowerChar(c: char): char
  {
    if 'A' <= c <= 'Z' then (c as int + 32) as char else c
  }

  function UpperChar(c: char): char
  {
    if 'a' <= c <= 'z' then (c as int - 32) as char else c
  }

  /** `toLowerCase()` / `lower()` on ASCII letters; other letters, which
      the originals also map, are left as they are here. */
  function ToLower(s: string): (r: string)
    ensures |r| == |s|
    ensures forall i :: 0 <= i < |s| ==> r[i] == LowerChar(s[i])
  {
    if s == [] then [] else [LowerChar(s[0])] + ToLower(s[1..])
  }

  /** Splits `s` at every non-overlapping occurrence of `sep`, scanning left
      to right; there is always at least one piece. */
  function Split(s: string, sep: string): (r: seq<string>)
    requires sep != []
    ensures |r| >= 1
    decreases |s|
  {
    if |s| < |sep| then [s]
    else if s[..|sep|] == sep then [""] + Split(s[|sep|..], sep)
    else
      var rest := Split(s[1..], sep);
      [[s[0]] + rest[0]] + rest[1..]
  }

  function Join(parts: seq<string>, sep: string): string
  {
    if parts == [] then ""
    else if |parts| == 1 then parts[0]
    else parts[0] + sep + Join(parts[1..], sep)
  }

  function Concat(parts: seq<string>): string
  {
    if parts == [] then "" else parts[0] + Concat(parts[1..])
  }

  function Last<T>(s: seq<T>): T
    requires s != []
  {
    s[|s| - 1]
  }

  function AllButLast<T>(s: seq<T>): seq<T>
    requires s != []
  {
    s[..|s| - 1]
  }

  lemma {:induction false} ConcatAppend(a: seq<string>, b: seq<string>)
    ensures Concat(a + b) == Concat(a) + Concat(b)
  {
    if a != [] {
      assert (a + b)[1..] == a[1..] + b;
      ConcatAppend(a[1..], b);
    } else {
      assert a + b == b;
    }
  }

  lemma {:induction false} JoinCons(x: string, parts: seq<string>, sep: string)
    requires parts != []
    ensures Join([x] + parts, sep) == x + sep + Join(parts, sep)
  {
    assert ([x] + parts)[1..] == parts;
  }

  /** Joining the pieces with the separator gives back the input. */
  lemma {:induction false} JoinSplit(s: string, sep: string)
    requires sep != []
    ensures Join(Split(s, sep), sep) == s
    decreases |s|
  {
    if |s| < |sep| {
    } else if s[..|sep|] == sep {
      var rest := Split(s[|sep|..], sep);
      assert Split(s, sep) == [""] + rest;
      assert Join(rest, sep) == s[|sep|..] by { JoinSplit(s[|sep|..], sep); }
      JoinCons("", rest, sep);
      assert s == sep + s[|sep|..];
    } else {
      var rest := Split(s[1..], sep);
      assert Split(s, sep) == [[s[0]] + rest[0]] + rest[1..];
      assert Join(rest, sep) == s[1..] by { JoinSplit(s[1..], sep); }
      JoinPrepend([s[0]], rest, sep);
      assert s == [s[0]] + s[1..];
    }
  }

  lemma {:induction false} JoinPrepend(c: string, parts: seq<string>, sep: string)
    requires parts != []
    ensures Join([c + parts[0]] + parts[1..], sep) == c + Join(parts, sep)
  {
    var q := [c + parts[0]] + parts[1..];
    if |parts| > 1 {
      assert q[1..] == parts[1..];
      assert Join(q, sep) == (c + parts[0]) + sep + Join(parts[1..], sep);
      assert Join(parts, sep) == parts[0] + sep + Join(parts[1..], sep);
    }
  }

  /** Joining two non-empty lists: the joins of each, with one separator
      between them. */
  lemma {:induction false} JoinAppend(a: seq<string>, b: seq<string>, sep: string)
    requires a != [] && b != []
    ensures Join(a + b, sep) == Join(a, sep) + sep + Join(b, sep)
    decreases |a|
  {
    if |a| == 1 {
      assert a + b == [a[0]] + b;
      JoinCons(a[0], b, sep);
    } else {
      assert a + b == [a[0]] + (a[1..] + b);
      JoinCons(a[0], a[1..] + b, sep);
      JoinAppend(a[1..], b, sep);
      JoinCons(a[0], a[1..], sep);
      assert a == [a[0]] + a[1..];
    }
  }

  /** The pieces that are not blank, in order. */
  function NonBlankOf(ps: seq<string>): (r: seq<string>)
    ensures |r| <= |ps|
    ensures forall i :: 0 <= i < |r| ==> !IsBlank(r[i])
  {
    if ps == [] then []
    else (if IsBlank(ps[0]) then [] else [ps[0]]) + NonBlankOf(ps[1..])
  }

  /** A single piece is the whole input. */
  lemma {:induction false} SplitOne(s: string, sep: string)
    requires sep != [] && |Split(s, sep)| == 1
    ensures Split(s, sep) == [s]
    decreases |s|
  {
    if |s| >= |sep| {
      assert s[..|sep|] != sep;
      SplitOne(s[1..], sep);
      assert s == [s[0]] + s[1..];
    }
  }

  /** Splitting `a + b` splits `a` first: all complete pieces of `a` are
      pieces of `a + b`, and the last, possibly partial, piece of `a` is
      continued by `b`. This is what makes a split-and-carry buffer
      independent of where the input was cut. */
  lemma {:induction false} SplitAppend(a: string, b: string, sep: string)
    requires sep != []
    ensures Split(a + b, sep) == AllButLast(Split(a, sep)) + Split(Last(Split(a, sep)) + b, sep)
    decreases |a|
  {
    if |a| < |sep| {
      assert Split(a, sep) == [a];
    } else if a[..|sep|] == sep {
      SplitAppend(a[|sep|..], b, sep);
      SplitAppendSep(a, b, sep);
    } else {
      SplitAppend(a[1..], b, sep);
      SplitAppendCons(a, b, sep);
    }
  }

  /** The step of `SplitAppend` when `a` starts with the separator. */
  lemma {:induction false} SplitAppendSep(a: string, b: string, sep: string)
    requires sep != [] && |a| >= |sep| && a[..|sep|] == sep
    requires var r := Split(a[|sep|..], sep);
      Split(a[|sep|..] + b, sep) == AllButLast(r) + Split(Last(r) + b, sep)
    ensures Split(a + b, sep) == AllButLast(Split(a, sep)) + Split(Last(Split(a, sep)) + b, sep)
  {
    var r := Split(a[|sep|..], sep);
    assert Split(a + b, sep) == [""] + Split(a[|sep|..] + b, sep) by {
      assert (a + b)[..|sep|] == sep;
      assert (a + b)[|sep|..] == a[|sep|..] + b;
    }
    assert Split(a, sep) == [""] + r;
    assert AllButLast([""] + r) == [""] + AllButLast(r);
    assert Last([""] + r) == Last(r);
    AppendAssoc([""], AllButLast(r), Split(Last(r) + b, sep));
  }

  /** The step of `SplitAppend` when `a` does not start with the separator. */
  lemma {:induction false} SplitAppendCons(a: string, b: string, sep: string)
    requires sep != [] && |a| >= |sep| && a[..|sep|] != sep
    requires var r := Split(a[1..], sep);
      Split(a[1..] + b, sep) == AllButLast(r) + Split(Last(r) + b, sep)
    ensures Split(a + b, sep) == AllButLast(Split(a, sep)) + Split(Last(Split(a, sep)) + b, sep)
  {
    var r := Split(a[1..], sep);
    SplitConsAppend(a, b, sep);
    SplitCons(a, sep);
    if |r| == 1 {
      SplitConsOne(a, sep);
    } else {
      SplitAppendMany(a[0], r, Split(Last(r) + b, sep), Split(a[1..] + b, sep));
    }
  }

  lemma {:induction false} SplitConsAppend(a: string, b: string, sep: string)
    requires sep != [] && |a| >= |sep| && a[..|sep|] != sep
    ensures var r2 := Split(a[1..] + b, sep);
      Split(a + b, sep) == [[a[0]] + r2[0]] + r2[1..]
  {
    assert (a + b)[1..] == a[1..] + b;
    assert (a + b)[..|sep|] == a[..|sep|];
    SplitCons(a + b, sep);
  }

  lemma {:induction false} SplitConsOne(a: string, sep: string)
    requires sep != [] && |a| >= |sep| && a[..|sep|] != sep && |Split(a[1..], sep)| == 1
    ensures Split(a, sep) == [a]
  {
    SplitOne(a[1..], sep);
    assert [a[0]] + a[1..] == a;
  }

  /** One unfolding of `Split` at a position where the separator does not start. */
  lemma {:induction false} SplitCons(s: string, sep: string)
    requires sep != [] && |s| >= |sep| && s[..|sep|] != sep
    ensures Split(s, sep) == [[s[0]] + Split(s[1..], sep)[0]] + Split(s[1..], sep)[1..]
  {
  }

  lemma {:induction false} SplitAppendMany(c: char, r: seq<string>, t: seq<string>, r2: seq<string>)
    requires |r| > 1 && r2 == AllButLast(r) + t && t != []
    ensures [[c] + r2[0]] + r2[1..] == AllButLast([[c] + r[0]] + r[1..]) + t
    ensures Last([[c] + r[0]] + r[1..]) == Last(r)
  {
    assert r2[0] == r[0];
    assert r2[1..] == r[1..|r| - 1] + t;
    assert AllButLast([[c] + r[0]] + r[1..]) == [[c] + r[0]] + r[1..|r| - 1];
  }

  /** A string without the separator is a single piece. */
  lemma {:induction false} SplitNoSep(s: string, sep: string)
    requires sep != [] && !Contains(s, sep)
    ensures Split(s, sep) == [s]
    decreases |s|
  {
    if |s| >= |sep| {
      assert !StartsWith(s, sep);
      SplitNoSep(s[1..], sep);
      assert s == [s[0]] + s[1..];
    }
  }

  /** Python's `str.split()` without argument: maximal runs of
      non-whitespace characters. */
  function Words(s: string): (r: seq<string>)
    ensures forall i :: 0 <= i < |r| ==> r[i] != [] && NoSpace(r[i])
    decreases |s|
  {
    if s == [] then []
    else if IsSpace(s[0]) then Words(s[1..])
    else
      var rest := Words(s[1..]);
      if |s| > 1 && !IsSpace(s[1]) then
        [[s[0]] + rest[0]] + rest[1..]
      else [[s[0]]] + rest
  }

  /** Whitespace occurs only as single ' ' characters. */
  predicate SingleSpaced(s: string)
  {
    (forall i :: 0 <= i < |s| && IsSpace(s[i]) ==> s[i] == ' ') &&
    (forall i :: 0 <= i < |s| - 1 ==> !IsSpace(s[i]) || !IsSpace(s[i + 1]))
  }

  /** On a single-spaced text without whitespace at its ends, splitting on
      whitespace runs and splitting on ' ' agree. */
  lemma {:induction false} WordsSplit(s: string)
    requires s != [] && SingleSpaced(s) && !IsSpace(s[0]) && !IsSpace(s[|s| - 1])
    ensures Words(s) == Split(s, " ")
    decreases |s|
  {
    if |s| == 1 {
      assert s[1..] == [] && s == [s[0]];
      assert Split(s[1..], " ") == [""];
      assert s[..1] != " ";
      assert Words(s) == [[s[0]]];
      assert Split(s, " ") == [[s[0]] + ""];
      assert [s[0]] + "" == [s[0]];
    } else if !IsSpace(s[1]) {
      WordsSplit(s[1..]);
    } else {
      var t := s[2..];
      assert s[1] == ' ';
      assert |s| > 2;
      assert !IsSpace(s[2]);
      assert s[1..][1..] == t;
      assert Words(s[1..]) == Words(t);
      assert s[1..][..1] == " ";
      var rest := Split(s[1..], " ");
      assert rest == [""] + Split(t, " ");
      assert s[..1] != " ";
      assert Split(s, " ") == [[s[0]] + rest[0]] + rest[1..];
      assert Words(s) == [[s[0]]] + Words(s[1..]);
      WordsSplit(t);
      assert [s[0]] + rest[0] == [s[0]];
      assert rest[1..] == Split(t, " ");
    }
  }

  /** A word followed by a space and more text: the word is the first piece
      `str.split()` returns. */
  lemma {:induction false} WordsPrefix(w: string, t: string)
    requires w != [] && NoSpace(w)
    ensures Words(w + " " + t) == [w] + Words(t)
    decreases |w|
  {
    var s := w + " " + t;
    assert s[1..] == w[1..] + " " + t;
    if |w| == 1 {
      assert s[1..][1..] == t;
      assert Words(s[1..]) == Words(t);
      assert w == [s[0]];
    } else {
      WordsPrefix(w[1..], t);
      assert s[1] == w[1];
      assert [s[0]] + w[1..] == w;
    }
  }

  /** A non-empty word without whitespace is its own single piece. */
  lemma {:induction false} WordsSingle(w: string)
    requires w != [] && NoSpace(w)
    ensures Words(w) == [w]
    decreases |w|
  {
    if |w| > 1 {
      WordsSingle(w[1..]);
      assert [w[0]] + w[1..] == w;
    } else {
      assert w[1..] == [];
      assert w == [w[0]];
    }
  }

  /** Splitting on whitespace undoes joining non-empty, whitespace-free words
      with single spaces. */
  lemma {:induction false} WordsJoin(ws: seq<string>)
    requires forall i :: 0 <= i < |ws| ==> ws[i] != [] && NoSpace(ws[i])
    ensures Words(Join(ws, " ")) == ws
  {
    if |ws| == 1 {
      WordsSingle(ws[0]);
    } else if |ws| > 1 {
      WordsJoin(ws[1..]);
      WordsPrefix(ws[0], Join(ws[1..], " "));
      assert ws == [ws[0]] + ws[1..];
    }
  }

  /** Joining non-empty words starts with the first word's first character
      and ends with the last word's last character. */
  lemma {:induction false} JoinEnds(ws: seq<string>, sep: string)
    requires ws != [] && forall i :: 0 <= i < |ws| ==> ws[i] != []
    ensures var j := Join(ws, sep);
      j != [] && j[0] == ws[0][0] && j[|j| - 1] == Last(ws)[|Last(ws)| - 1]
  {
    if |ws| > 1 {
      JoinEnds(ws[1..], sep);
    }
  }

  /** Trimming a text that already starts and ends with non-whitespace,
      possibly followed by a line break, gives the text. */
  lemma {:induction false} TrimLine(j: string)
    requires j != [] && !IsSpace(j[0]) && !IsSpace(j[|j| - 1])
    ensures Trim(j) == j && Trim(j + "\n") == j
  {
    var l := j + "\n";
    assert TrimStart(l) == l;
    assert l[..|l| - 1] == j;
  }

  /** A single-character separator: a piece without that character is read
      back as that piece. */
  lemma {:induction false} SplitAtChar(x: string, c: char, rest: string)
    requires forall i :: 0 <= i < |x| ==> x[i] != c
    ensures Split(x + [c] + rest, [c]) == [x] + Split(rest, [c])
    decreases |x|
  {
    var s := x + [c] + rest;
    if x == [] {
      assert s == [c] + rest;
      assert s[1..] == rest;
    } else {
      assert s[..1] == [x[0]];
      assert s[1..] == x[1..] + [c] + rest;
      SplitAtChar(x[1..], c, rest);
      assert x == [x[0]] + x[1..];
    }
  }

  /** `SplitJoinChar` for parts given as lines that do not hold `c`. */
  lemma {:induction false} SplitJoinLines(parts: seq<string>, c: char)
    requires parts != []
    requires forall i :: 0 <= i < |parts| ==> c !in parts[i]
    ensures Split(Join(parts, [c]), [c]) == parts
  {
    forall i, j | 0 <= i < |parts| && 0 <= j < |parts[i]|
      ensures parts[i][j] != c
    {
      assert parts[i][j] in parts[i];
    }
    SplitJoinChar(parts, c);
  }

  /** Joining pieces that do not hold the separator character and splitting
      again gives the pieces back. */
  lemma {:induction false} SplitJoinChar(parts: seq<string>, c: char)
    requires parts != []
    requires forall i, j :: 0 <= i < |parts| && 0 <= j < |parts[i]| ==> parts[i][j] != c
    ensures Split(Join(parts, [c]), [c]) == parts
    decreases |parts|
  {
    if |parts| == 1 {
      SplitNoChar(parts[0], c);
    } else {
      assert forall j :: 0 <= j < |parts[0]| ==> parts[0][j] != c;
      SplitJoinChar(parts[1..], c);
      SplitAtChar(parts[0], c, Join(parts[1..], [c]));
      assert parts == [parts[0]] + parts[1..];
    }
  }

  /** A string without the separator character is a single piece. */
  lemma {:induction false} SplitNoChar(x: string, c: char)
    requires forall i :: 0 <= i < |x| ==> x[i] != c
    ensures Split(x, [c]) == [x]
    decreases |x|
  {
    if x != [] {
      assert x[..1] != [c] by { assert x[..1][0] == x[0]; }
      SplitNoChar(x[1..], c);
      assert [x[0]] + x[1..] == x;
    }
  }

  /** One more read: the concatenation of the first k + 1 reads. */
  lemma {:induction false} ConcatStep(chunks: seq<string>, k: nat)
    requires k < |chunks|
    ensures Concat(chunks[..k + 1]) == Concat(chunks[..k]) + chunks[k]
  {
    assert chunks[..k + 1] == chunks[..k] + [chunks[k]];
    ConcatAppend(chunks[..k], [chunks[k]]);
    assert Concat([chunks[k]]) == chunks[k] + Concat([]);
  }

  /** The reads from k on continue the first k. */
  lemma {:induction false} ConcatSplitAt(chunks: seq<string>, k: nat)
    requires k <= |chunks|
    ensures Concat(chunks) == Concat(chunks[..k]) + Concat(chunks[k..])
  {
    assert chunks == chunks[..k] + chunks[k..];
    ConcatAppend(chunks[..k], chunks[k..]);
  }

  /** The complete lines (every piece but the last) of `a + b`: those of
      `a`, then those of `a`'s unfinished piece continued by `b`; the
      unfinished piece of `a + b` is that continuation's. */
  lemma {:induction false} CompleteAppend(a: string, b: string, sep: string)
    requires sep != []
    ensures var t := Split(Last(Split(a, sep)) + b, sep);
      AllButLast(Split(a + b, sep)) == AllButLast(Split(a, sep)) + AllButLast(t) &&
      Last(Split(a + b, sep)) == Last(t)
  {
    SplitAppend(a, b, sep);
  }

  /** Lower-casing is idempotent. */
  lemma {:induction false} ToLowerIdem(s: string)
    ensures ToLower(ToLower(s)) == ToLower(s)
  {
    var l := ToLower(s);
    assert forall i :: 0 <= i < |l| ==> ToLower(l)[i] == l[i];
  }

  /** Trimming a trimmed text changes nothing, so a trimmed text that is
      not empty is not blank. */
  lemma {:induction false} TrimIdem(s: string)
    ensures Trim(Trim(s)) == Trim(s)
    ensures Trim(s) != [] ==> !IsBlank(Trim(s))
  {
    TrimSpec(s);
    var r := Trim(s);
    if r != [] {
      assert TrimStart(r) == r;
      assert TrimEnd(r) == r;
    }
  }

  /** An occurrence at a known position makes `s` contain `p`. */
  lemma {:induction false} ContainsAt(s: string, p: string, k: nat)
    requires k + |p| <= |s| && s[k..k + |p|] == p
    ensures Contains(s, p)
    decreases k
  {
    if k > 0 {
      assert s[1..][k - 1..k - 1 + |p|] == s[k..k + |p|];
      ContainsAt(s[1..], p, k - 1);
    }
  }

}
