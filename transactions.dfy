/** The display rules of the transaction history (app/transactions/page.tsx):
    the readable transaction type, the direction shown for an amount, and
    the shortened reference id. */
module Transactions {
  import opened Wrappers
  import opened Strings
  import opened Numbers

  /** `word.charAt(0).toUpperCase() + word.slice(1)`; the empty word stays
      empty. */
  function Capitalise(w: string): (r: string)
    ensures |r| == |w|
    ensures w != [] ==> r[0] == UpperChar(w[0]) && r[1..] == w[1..]
  {
    if w == [] then [] else [UpperChar(w[0])] + w[1..]
  }

  function Capitalised(ws: seq<string>): (r: seq<string>)
    ensures |r| == |ws|
    ensures forall i :: 0 <= i < |ws| ==> r[i] == Capitalise(ws[i])
  {
    if ws == [] then [] else [Capitalise(ws[0])] + Capitalised(ws[1..])
  }

  /** `formatTransactionType`: split at `_`, capitalise each piece, join
      with spaces. */
  function FormatType(t: string): string
  {
    Join(Capitalised(Split(t, "_")), " ")
  }

  predicate Free(s: string, c: char)
  {
    forall j :: 0 <= j < |s| ==> s[j] != c
  }

  predicate AllFree(ps: seq<string>, c: char)
  {
    forall i :: 0 <= i < |ps| ==> Free(ps[i], c)
  }

  function Count(s: string, c: char): (r: nat)
    ensures r <= |s|
  {
    if s == [] then 0 else (if s[0] == c then 1 else 0) + Count(s[1..], c)
  }

  /** The pieces of a split hold no separator, and there is one more piece
      than there are separators. */
  lemma {:induction false} SplitPieces(s: string, c: char)
    ensures AllFree(Split(s, [c]), c)
    ensures |Split(s, [c])| == Count(s, c) + 1
    decreases |s|
  {
    if |s| >= 1 {
      SplitPieces(s[1..], c);
      if s[..1] != [c] {
        assert s[0] != c by { assert s[..1][0] == s[0]; }
        var rest := Split(s[1..], [c]);
        var r := Split(s, [c]);
        assert r == [[s[0]] + rest[0]] + rest[1..];
        forall i | 0 <= i < |r| ensures Free(r[i], c) {
          if i > 0 {
            assert r[i] == rest[i];
          } else {
            assert Free(rest[0], c);
          }
        }
      } else {
        assert s[0] == c by { assert s[..1][0] == s[0]; }
      }
    }
  }

  /** Capitalising neither makes nor removes an underscore. */
  lemma {:induction false} CapitalisedFree(ws: seq<string>)
    requires AllFree(ws, '_')
    ensures AllFree(Capitalised(ws), '_')
  {
    var r := Capitalised(ws);
    forall i | 0 <= i < |r| ensures Free(r[i], '_') {
      var w := ws[i];
      assert Free(w, '_');
      forall j | 0 <= j < |r[i]| ensures r[i][j] != '_' {
        if j > 0 {
          assert r[i][j] == r[i][1..][j - 1] == w[1..][j - 1] == w[j];
        }
      }
    }
  }

  lemma {:induction false} JoinFree(ps: seq<string>, sep: char, c: char)
    requires AllFree(ps, c) && sep != c
    ensures Free(Join(ps, [sep]), c)
    decreases |ps|
  {
    if |ps| > 1 {
      JoinFree(ps[1..], sep, c);
      var r := Join(ps, [sep]);
      var rest := Join(ps[1..], [sep]);
      assert r == ps[0] + [sep] + rest;
      assert Free(ps[0], c);
      forall j | 0 <= j < |r| ensures r[j] != c {
        if j < |ps[0]| {
          assert r[j] == ps[0][j];
        } else if j > |ps[0]| {
          assert r[j] == rest[j - |ps[0]| - 1];
        }
      }
    } else if |ps| == 1 {
      assert Free(ps[0], c);
    }
  }

  /** Swapping the separator for one of the same width and capitalising
      keeps the length. */
  lemma {:induction false} JoinCapitalisedLength(ps: seq<string>)
    ensures |Join(Capitalised(ps), " ")| == |Join(ps, "_")|
    decreases |ps|
  {
    if |ps| > 1 {
      JoinCapitalisedLength(ps[1..]);
      var cs := Capitalised(ps);
      assert cs[1..] == Capitalised(ps[1..]);
    }
  }

  /** The readable type has no underscore, is as long as the stored type,
      and has one word per underscore plus one. */
  lemma {:induction false} FormatTypeShape(t: string)
    ensures Free(FormatType(t), '_')
    ensures |FormatType(t)| == |t|
    ensures |Capitalised(Split(t, "_"))| == Count(t, '_') + 1
  {
    var ps := Split(t, "_");
    SplitPieces(t, '_');
    CapitalisedFree(ps);
    JoinFree(Capitalised(ps), ' ', '_');
    JoinCapitalisedLength(ps);
    JoinSplit(t, "_");
  }

  /** A type written as words joined by underscores is shown as those
      words, capitalised, joined by spaces. */
  lemma {:induction false} FormatTypeWords(ws: seq<string>)
    requires ws != [] && AllFree(ws, '_')
    ensures FormatType(Join(ws, "_")) == Join(Capitalised(ws), " ")
  {
    SplitJoinChar(ws, '_');
  }

  datatype Icon = ArrowUpCircle | ArrowDownCircle

  /** `getTransactionIcon`: up for credits added, down otherwise. */
  function IconOf(amount: int): Icon
  {
    if amount > 0 then ArrowUpCircle else ArrowDownCircle
  }

  /** `getTransactionColor`. */
  function ColourOf(amount: int): string
  {
    if amount > 0 then "text-green-400" else "text-red-400"
  }

  /** The amount as shown: `+` before a positive amount, the number's own
      minus before a negative one. */
  function ShownAmount(amount: int): (r: string)
    ensures r != []
  {
    (if amount > 0 then "+" else "") + ShowInt(amount)
  }

  /** Icon, colour and sign agree: all three say "added" exactly for a
      positive amount; zero is shown bare, in red, with the down icon. */
  lemma {:induction false} DirectionAgrees(amount: int)
    ensures IconOf(amount) == ArrowUpCircle <==> amount > 0
    ensures ColourOf(amount) == "text-green-400" <==> amount > 0
    ensures ShownAmount(amount)[0] == '+' <==> amount > 0
    ensures ShownAmount(amount)[0] == '-' <==> amount < 0
    ensures amount == 0 ==> ShownAmount(0) == "0"
  {
    var r := ShownAmount(amount);
    if amount == 0 {
      assert r == "0";
    } else if amount < 0 {
      assert r[0] == '-';
    } else {
      assert r[0] == '+';
    }
    if amount > 0 {
    } else if amount >= 0 {
      assert r == Show(amount);
      assert IsDigit(r[0]);
    } else {
      assert r == "-" + Show(-amount);
    }
    assert ColourOf(amount) != "text-green-400" || amount > 0 by {
      if amount <= 0 {
        assert ColourOf(amount)[5] == 'r';
      }
    }
  }

  /** `ID: ${reference_id.slice(0, 8)}...`, shown only for a present,
      non-empty reference. */
  function ShortReference(reference: Option<string>): (r: Option<string>)
    ensures r.Some? <==> reference.Some? && reference.value != []
    ensures r.Some? && |reference.value| >= 8 ==>
      |r.value| == 15 && StartsWith(r.value, "ID: ") && r.value[4..12] == reference.value[..8] && EndsWith(r.value, "...")
    ensures r.Some? && |reference.value| < 8 ==> r.value == "ID: " + reference.value + "..."
  {
    match reference
    case None => None
    case Some(id) =>
      if id == [] then None
      else
        var shown := if |id| >= 8 then id[..8] else id;
        var v := "ID: " + shown + "...";
        assert v[..4] == "ID: " && v[4..4 + |shown|] == shown && v[|v| - 3..] == "...";
        Some(v)
  }
}
