/** Sequence helpers shared by the line diff and by the wire framing: cutting a sequence at a
    separator, and gluing the pieces back together. */
module Sequences {

  /** The pieces in order, with `sep` between neighbours. */
  function Join<T>(pieces: seq<seq<T>>, sep: T): seq<T>
    requires |pieces| > 0
  {
    if |pieces| == 1 then pieces[0] else pieces[0] + [sep] + Join(pieces[1..], sep)
  }

  /** The pieces of `text` between occurrences of `sep`; there is always at least one piece. */
  function Split<T(==)>(text: seq<T>, sep: T): (pieces: seq<seq<T>>)
    ensures |pieces| > 0
    ensures forall k :: 0 <= k < |pieces| ==> sep !in pieces[k]
    ensures Join(pieces, sep) == text
  {
    if text == [] then [[]]
    else
      var rest := Split(text[1..], sep);
      if text[0] == sep then
        var pieces := [[]] + rest;
        assert pieces[1..] == rest;
        pieces
      else
        var pieces := [[text[0]] + rest[0]] + rest[1..];
        assert pieces[1..] == rest[1..];
        pieces
  }

  lemma {:induction false} SplitFree<T>(piece: seq<T>, sep: T)
    requires sep !in piece
    ensures Split(piece, sep) == [piece]
  {
    if piece != [] {
      SplitFree(piece[1..], sep);
    }
  }

  /** The text up to the first separator is the first piece. */
  lemma {:induction false} SplitPrefix<T>(piece: seq<T>, rest: seq<T>, sep: T)
    requires sep !in piece
    ensures Split(piece + [sep] + rest, sep) == [piece] + Split(rest, sep)
  {
    var text := piece + [sep] + rest;
    if piece == [] {
      assert text[1..] == rest;
    } else {
      SplitPrefix(piece[1..], rest, sep);
      assert text[1..] == piece[1..] + [sep] + rest;
      assert [text[0]] + piece[1..] == piece;
    }
  }

  /** Cutting is unique: separator-free pieces are recovered from their join. */
  lemma {:induction false} SplitJoin<T>(pieces: seq<seq<T>>, sep: T)
    requires |pieces| > 0
    requires forall k :: 0 <= k < |pieces| ==> sep !in pieces[k]
    ensures Split(Join(pieces, sep), sep) == pieces
  {
    if |pieces| == 1 {
      SplitFree(pieces[0], sep);
    } else {
      SplitJoin(pieces[1..], sep);
      SplitPrefix(pieces[0], Join(pieces[1..], sep), sep);
      assert Join(pieces, sep) == pieces[0] + [sep] + Join(pieces[1..], sep);
    }
  }
}
