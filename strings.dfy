/**
 * Rust's `str::split` with a single-character pattern, and the facts about it
 * that `replace_filename` relies on: it never yields an empty iterator, its
 * pieces contain no separator, joining them back gives the original string,
 * and its last piece is the text after the final separator.
 */
module Strings {

  /** The pieces of `s` between occurrences of `sep`, in order; `""` splits into `[""]`. */
  function Split(s: string, sep: char): (pieces: seq<string>)
    ensures |pieces| >= 1
    decreases |s|
  {
    if |s| == 0 then [""]
    else
      var rest := Split(s[1..], sep);
      if s[0] == sep then [""] + rest
      else [[s[0]] + rest[0]] + rest[1..]
  }

  /** The pieces glued back together with `sep` between neighbours. */
  function Join(pieces: seq<string>, sep: char): string
    requires |pieces| >= 1
  {
    if |pieces| == 1 then pieces[0] else pieces[0] + [sep] + Join(pieces[1..], sep)
  }

  /** Splitting loses nothing, and no piece contains the separator. */
  lemma {:induction false} SplitJoin(s: string, sep: char)
    ensures Join(Split(s, sep), sep) == s
    ensures forall i | 0 <= i < |Split(s, sep)| :: sep !in Split(s, sep)[i]
    decreases |s|
  {
    if |s| > 0 {
      var rest := Split(s[1..], sep);
      SplitJoin(s[1..], sep);
      if s[0] == sep {
        assert Split(s, sep) == [""] + rest;
        assert ([""] + rest)[1..] == rest;
        forall i | 0 <= i < |Split(s, sep)| ensures sep !in Split(s, sep)[i] {
          if i > 0 { assert Split(s, sep)[i] == rest[i - 1]; }
        }
      } else {
        var ps := [[s[0]] + rest[0]] + rest[1..];
        assert Split(s, sep) == ps;
        if |rest| == 1 {
          assert Join(ps, sep) == [s[0]] + rest[0];
        } else {
          assert ps[1..] == rest[1..];
          calc {
            Join(ps, sep);
            ([s[0]] + rest[0]) + [sep] + Join(rest[1..], sep);
            [s[0]] + (rest[0] + [sep] + Join(rest[1..], sep));
            [s[0]] + Join(rest, sep);
          }
        }
        assert s == [s[0]] + s[1..];
        forall i | 0 <= i < |ps| ensures sep !in ps[i] {
          if i > 0 { assert ps[i] == rest[i]; }
        }
      }
    }
  }

  /** Joining at least two pieces: everything before the last piece, a separator, the last piece. */
  lemma {:induction false} JoinLast(pieces: seq<string>, sep: char)
    requires |pieces| >= 2
    ensures Join(pieces, sep) == Join(pieces[..|pieces| - 1], sep) + [sep] + pieces[|pieces| - 1]
    decreases |pieces|
  {
    var n := |pieces|;
    if n > 2 {
      JoinLast(pieces[1..], sep);
      assert pieces[1..][..n - 2] == pieces[..n - 1][1..];
    }
  }

  /**
   * The text after the final separator: a suffix of `s` with no separator that is
   * either all of `s` or preceded by a separator.
   */
  ghost predicate IsFinalPiece(s: string, sep: char, e: string) {
    && |e| <= |s|
    && s[|s| - |e|..] == e
    && sep !in e
    && (|e| == |s| || s[|s| - |e| - 1] == sep)
  }

  /** The last piece of a split is the text after the final separator. */
  lemma {:induction false} LastPieceIsFinal(s: string, sep: char)
    ensures IsFinalPiece(s, sep, Split(s, sep)[|Split(s, sep)| - 1])
  {
    var ps := Split(s, sep);
    var n := |ps|;
    var e := ps[n - 1];
    SplitJoin(s, sep);
    assert sep !in e;
    if n >= 2 {
      JoinLast(ps, sep);
      var front := Join(ps[..n - 1], sep) + [sep];
      assert s == front + e;
      assert s[|s| - |e|..] == e;
      assert s[|s| - |e| - 1] == front[|front| - 1] == sep;
    } else {
      assert s == e;
    }
  }

  /** At most one string is the text after the final separator. */
  lemma FinalPieceUnique(s: string, sep: char, e1: string, e2: string)
    requires IsFinalPiece(s, sep, e1) && IsFinalPiece(s, sep, e2)
    ensures e1 == e2
  {
  }
}
