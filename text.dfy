/** JavaScript's `split(sep)` and `join(sep)` on strings, for a one-character
    separator, and how they undo each other. */
module Text {
  /** `s.split(sep)`: the pieces between single separators. Two separators in
      a row give an empty piece, and the empty string gives one empty piece. */
  function Split(s: string, sep: char): (r: seq<string>)
    ensures |r| >= 1
  {
    if s == [] then [""]
    else
      var rest := Split(s[1..], sep);
      if s[0] == sep then [""] + rest else [[s[0]] + rest[0]] + rest[1..]
  }

  /** `pieces.join(sep)`. */
  function Join(pieces: seq<string>, sep: char): string {
    if pieces == [] then ""
    else if |pieces| == 1 then pieces[0]
    else pieces[0] + [sep] + Join(pieces[1..], sep)
  }

  predicate Free(w: string, sep: char) {
    forall i :: 0 <= i < |w| ==> w[i] != sep
  }

  /** No piece of a split contains the separator. */
  lemma {:induction false} SplitPiecesAreFree(s: string, sep: char)
    ensures forall i :: 0 <= i < |Split(s, sep)| ==> Free(Split(s, sep)[i], sep)
  {
    if s != [] {
      SplitPiecesAreFree(s[1..], sep);
    }
  }

  /** Joining the pieces of a split gives back the string. */
  lemma {:induction false} JoinSplit(s: string, sep: char)
    ensures Join(Split(s, sep), sep) == s
  {
    if s != [] {
      var rest := Split(s[1..], sep);
      JoinSplit(s[1..], sep);
      if s[0] == sep {
        assert Join([""] + rest, sep) == "" + [sep] + Join(rest, sep);
      } else {
        JoinPrependChar(s[0], rest, sep);
      }
      assert s == [s[0]] + s[1..];
    }
  }

  /** A character put in front of the first piece is put in front of the join. */
  lemma {:induction false} JoinPrependChar(c: char, pieces: seq<string>, sep: char)
    requires |pieces| >= 1
    ensures Join([[c] + pieces[0]] + pieces[1..], sep) == [c] + Join(pieces, sep)
  {
    var r := [[c] + pieces[0]] + pieces[1..];
    if |pieces| > 1 {
      assert r[1..] == pieces[1..];
      assert Join(r, sep) == ([c] + pieces[0]) + [sep] + Join(pieces[1..], sep);
    }
  }

  /** A word without the separator splits into itself. */
  lemma {:induction false} SplitWord(w: string, sep: char)
    requires Free(w, sep)
    ensures Split(w, sep) == [w]
  {
    if w != [] {
      SplitWord(w[1..], sep);
      assert w == [w[0]] + w[1..];
    }
  }

  /** A word followed by the separator splits off as the first piece. */
  lemma {:induction false} SplitLeadingWord(w: string, rest: string, sep: char)
    requires Free(w, sep)
    ensures Split(w + [sep] + rest, sep) == [w] + Split(rest, sep)
  {
    if w == [] {
      assert w + [sep] + rest == [sep] + rest;
      assert (w + [sep] + rest)[1..] == rest;
    } else {
      SplitLeadingWord(w[1..], rest, sep);
      var s := w + [sep] + rest;
      assert s[0] == w[0];
      assert s[1..] == w[1..] + [sep] + rest;
      assert w == [w[0]] + w[1..];
    }
  }

  /** Splitting a join of separator-free pieces gives back the pieces. */
  lemma {:induction false} SplitJoin(pieces: seq<string>, sep: char)
    requires |pieces| >= 1
    requires forall i :: 0 <= i < |pieces| ==> Free(pieces[i], sep)
    ensures Split(Join(pieces, sep), sep) == pieces
  {
    if |pieces| == 1 {
      SplitWord(pieces[0], sep);
    } else {
      SplitJoin(pieces[1..], sep);
      SplitLeadingWord(pieces[0], Join(pieces[1..], sep), sep);
      assert pieces == [pieces[0]] + pieces[1..];
    }
  }

  /** A join is the join of the first `k` pieces, the separator, and the join of the others. */
  lemma {:induction false} JoinSplitsAt(pieces: seq<string>, k: nat, sep: char)
    requires 1 <= k < |pieces|
    ensures Join(pieces, sep) == Join(pieces[..k], sep) + [sep] + Join(pieces[k..], sep)
  {
    if k > 1 {
      JoinSplitsAt(pieces[1..], k - 1, sep);
      assert pieces[1..][..k - 1] == pieces[..k][1..];
      assert pieces[1..][k - 1..] == pieces[k..];
    }
  }

  /** Text appended to the last piece is appended to the join. */
  lemma {:induction false} JoinExtendLast(pieces: seq<string>, x: string, sep: char)
    requires |pieces| >= 1
    ensures Join(pieces[..|pieces| - 1] + [pieces[|pieces| - 1] + x], sep) == Join(pieces, sep) + x
  {
    if |pieces| > 1 {
      var n := |pieces|;
      var ext := pieces[..n - 1] + [pieces[n - 1] + x];
      JoinExtendLast(pieces[1..], x, sep);
      assert ext[1..] == pieces[1..][..n - 2] + [pieces[1..][n - 2] + x];
    }
  }

  /** Splitting at a separator splits each side on its own. */
  lemma {:induction false} SplitAppend(a: string, b: string, sep: char)
    ensures Split(a + [sep] + b, sep) == Split(a, sep) + Split(b, sep)
  {
    if a == [] {
      assert a + [sep] + b == [sep] + b;
      assert ([sep] + b)[1..] == b;
    } else {
      var s := a + [sep] + b;
      assert s[0] == a[0];
      assert s[1..] == a[1..] + [sep] + b;
      SplitAppend(a[1..], b, sep);
    }
  }
}
