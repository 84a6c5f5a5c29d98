/** The event-stream wire format of section 9.2 (Server-sent events) of the
    WHATWG HTML Living Standard as the programs use it: every event is a
    block of lines ended by a blank line, so a stream is a concatenation of
    blocks each followed by "\n\n"; a line starting with ':' is a comment. */
module EventStream {
  import opened Strings

  const BlockSep := "\n\n"
  const DataPrefix := "data: "
  /** The keep-alive comment block. */
  const Heartbeat := ":hb\n\n"
  /** The terminal block of the Python backend, and its body. */
  const DoneBody := "event: done\ndata: {}"
  const DoneBlock := DoneBody + BlockSep

  /** `data: <payload>\n\n`. */
  function Frame(payload: string): string
  {
    DataPrefix + payload + BlockSep
  }

  /** A block body that the "\n\n" splitter reads back as one piece: it has
      no blank-line separator inside and does not end in a newline. */
  predicate Piece(x: string)
  {
    !Contains(x, BlockSep) && !EndsWith(x, "\n")
  }

  predicate NoNewline(s: string)
  {
    forall i :: 0 <= i < |s| ==> s[i] != '\n'
  }

  lemma {:induction false} NoNewlineNoSep(x: string)
    requires NoNewline(x)
    ensures !Contains(x, BlockSep)
    decreases |x|
  {
    if x != [] {
      assert !StartsWith(x, BlockSep) by {
        if |x| >= 2 { assert x[..2][0] == x[0]; }
      }
      NoNewlineNoSep(x[1..]);
    }
  }

  /** A one-line payload framed as `data: ...` is a piece. */
  lemma {:induction false} FramedIsPiece(payload: string)
    requires NoNewline(payload)
    ensures Piece(DataPrefix + payload)
  {
    var x := DataPrefix + payload;
    assert NoNewline(x) by {
      forall i | 0 <= i < |x| ensures x[i] != '\n' {
        if i >= |DataPrefix| { assert x[i] == payload[i - |DataPrefix|]; }
      }
    }
    NoNewlineNoSep(x);
    assert x[|x| - 1] != '\n';
  }

  /** The blank-line splitter reads a piece followed by "\n\n" as that
      piece, and continues with the rest. */
  lemma {:induction false} SplitPiece(x: string, rest: string)
    requires Piece(x)
    ensures Split(x + BlockSep + rest, BlockSep) == [x] + Split(rest, BlockSep)
    decreases |x|
  {
    var s := x + BlockSep + rest;
    if x == [] {
      assert s == BlockSep + rest;
      assert s[..2] == BlockSep;
      assert s[2..] == rest;
    } else {
      assert s[..2] != BlockSep by {
        if |x| >= 2 {
          assert s[..2] == x[..2];
          assert !StartsWith(x, BlockSep);
        } else {
          assert s[..2] == [x[0], '\n'];
          assert x[|x| - 1] != '\n';
        }
      }
      var x' := x[1..];
      assert Piece(x') by {
        assert !Contains(x', BlockSep);
        if x' != [] { assert x'[|x'| - 1] == x[|x| - 1]; }
      }
      assert s[1..] == x' + BlockSep + rest;
      SplitPiece(x', rest);
      assert x == [x[0]] + x';
    }
  }

  lemma {:induction false} SplitPieceEnd(x: string)
    requires Piece(x)
    ensures Split(x + BlockSep, BlockSep) == [x, ""]
  {
    SplitPiece(x, "");
    assert x + BlockSep + "" == x + BlockSep;
  }
}
