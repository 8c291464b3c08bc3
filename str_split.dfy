/** The two pieces of the Rust standard library that `task_id` chains
    together: `str::split` with a `char` pattern, which always yields at least
    one piece (the empty string splits into one empty piece), and
    `Iterator::last`, which is `None` only for an empty iterator. */
module StrSplit {
  import opened Wrappers

  /** The pieces of `s` between occurrences of `sep`, left to right, as
      `s.split(sep)` yields them. */
  function Split(s: string, sep: char): (pieces: seq<string>)
    ensures |pieces| >= 1
    ensures forall i :: 0 <= i < |pieces| ==> sep !in pieces[i]
    ensures (|pieces| == 1) == (sep !in s)
    decreases |s|
  {
    if |s| == 0 then [""]
    else
      var rest := Split(s[1..], sep);
      assert s == [s[0]] + s[1..];
      if s[0] == sep then [""] + rest
      else [[s[0]] + rest[0]] + rest[1..]
  }

  /** The inverse of `Split`: the pieces glued back with `sep` between them. */
  function Join(pieces: seq<string>, sep: char): (s: string)
    requires |pieces| >= 1
    decreases |pieces|
  {
    if |pieces| == 1 then pieces[0]
    else pieces[0] + [sep] + Join(pieces[1..], sep)
  }

  /** `Iterator::last`: the final item, `None` for an empty iterator. */
  function Last<T>(items: seq<T>): (r: Option<T>)
    ensures r.None? <==> |items| == 0
  {
    if |items| == 0 then None else Some(items[|items| - 1])
  }

  /** Joining the pieces of a split gives back the original text. */
  lemma {:induction false} JoinSplit(s: string, sep: char)
    ensures Join(Split(s, sep), sep) == s
    decreases |s|
  {
    if |s| > 0 {
      var rest := Split(s[1..], sep);
      JoinSplit(s[1..], sep);
      assert s == [s[0]] + s[1..];
      if s[0] == sep {
        assert ([""] + rest)[1..] == rest;
      } else if |rest| > 1 {
        var pieces := Split(s, sep);
        assert pieces[1..] == rest[1..];
        assert Join(rest, sep) == rest[0] + [sep] + Join(rest[1..], sep);
      }
    }
  }

  /** Text free of the separator splits into itself alone. */
  lemma {:induction false} SplitWithoutSep(p: string, sep: char)
    requires sep !in p
    ensures Split(p, sep) == [p]
  {
    JoinSplit(p, sep);
  }

  /** A separator-free prefix followed by a separator becomes the first piece. */
  lemma {:induction false} SplitAfterPrefix(p: string, t: string, sep: char)
    requires sep !in p
    ensures Split(p + [sep] + t, sep) == [p] + Split(t, sep)
    decreases |p|
  {
    var s := p + [sep] + t;
    if |p| == 0 {
      assert s == [sep] + t;
      assert s[1..] == t;
    } else {
      assert s[1..] == p[1..] + [sep] + t;
      SplitAfterPrefix(p[1..], t, sep);
      assert [p[0]] + p[1..] == p;
    }
  }

  /** Splitting a join of separator-free pieces gives back the pieces. */
  lemma {:induction false} SplitJoin(pieces: seq<string>, sep: char)
    requires |pieces| >= 1
    requires forall i :: 0 <= i < |pieces| ==> sep !in pieces[i]
    ensures Split(Join(pieces, sep), sep) == pieces
    decreases |pieces|
  {
    if |pieces| == 1 {
      SplitWithoutSep(pieces[0], sep);
    } else {
      SplitJoin(pieces[1..], sep);
      SplitAfterPrefix(pieces[0], Join(pieces[1..], sep), sep);
      assert [pieces[0]] + pieces[1..] == pieces;
    }
  }

  /** `t` is the text of `s` after its last `sep`: a separator-free suffix of
      `s` that is either all of `s` or directly preceded by `sep`. */
  predicate IsTailAfterLast(s: string, sep: char, t: string)
  {
    sep !in t && |t| <= |s| && s[|s| - |t|..] == t
    && (|t| < |s| ==> s[|s| - |t| - 1] == sep)
  }

  /** At most one text is the tail of `s` after its last separator. */
  lemma TailAfterLastUnique(s: string, sep: char, t1: string, t2: string)
    requires IsTailAfterLast(s, sep, t1) && IsTailAfterLast(s, sep, t2)
    ensures t1 == t2
  {
  }

  /** The last piece of a split is the text after the last separator. */
  lemma {:induction false} LastPieceIsTail(s: string, sep: char)
    ensures IsTailAfterLast(s, sep, Split(s, sep)[|Split(s, sep)| - 1])
    decreases |s|
  {
    if |s| > 0 {
      var rest := Split(s[1..], sep);
      var lr := rest[|rest| - 1];
      LastPieceIsTail(s[1..], sep);
      assert s == [s[0]] + s[1..];
      var pieces := Split(s, sep);
      if s[0] == sep || |rest| > 1 {
        assert pieces[|pieces| - 1] == lr;
        if |lr| == |s| - 1 {
          assert lr == s[1..];
          assert s[0] == sep;
        }
        assert s[|s| - |lr|..] == s[1..][|s| - 1 - |lr|..];
      } else {
        assert lr == s[1..];
        assert pieces == [s];
      }
    }
  }
}
