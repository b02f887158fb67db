/** Python's `str.split("_")` and `"_".join(...)` on class names, and the
    facts about them the label decomposition relies on. */
module Labels {

  const Sep: char := '_'

  /** `s.split("_")`: the maximal separator-free pieces of `s`, empty
      pieces included (two adjacent separators give an empty piece). */
  function Split(s: string): (pieces: seq<string>)
    ensures |pieces| >= 1
    ensures forall i :: 0 <= i < |pieces| ==> Sep !in pieces[i]
    ensures |pieces| > 1 <==> Sep in s
  {
    if s == [] then [""]
    else
      var rest := Split(s[1..]);
      if s[0] == Sep then [""] + rest
      else [[s[0]] + rest[0]] + rest[1..]
  }

  /** `"_".join(pieces)`. */
  function Join(pieces: seq<string>): (s: string)
    ensures |pieces| >= 1 ==> pieces[0] <= s
    ensures |pieces| > 1 ==> |pieces[0]| < |s| && s[|pieces[0]|] == Sep
    ensures (forall i :: 0 <= i < |pieces| ==> Sep !in pieces[i]) ==> (Sep in s <==> |pieces| > 1)
  {
    if |pieces| == 0 then ""
    else if |pieces| == 1 then pieces[0]
    else pieces[0] + [Sep] + Join(pieces[1..])
  }

  /** Joining the pieces of a split gives back the original string. */
  lemma {:induction false} JoinSplit(s: string)
    ensures Join(Split(s)) == s
  {
    if s != [] {
      var rest := Split(s[1..]);
      JoinSplit(s[1..]);
      if s[0] == Sep {
        JoinCons("", rest);
      } else {
        JoinExtendFirst(s[0], rest);
      }
      assert s == [s[0]] + s[1..];
    }
  }

  lemma {:induction false} JoinCons(a: string, rest: seq<string>)
    requires |rest| >= 1
    ensures Join([a] + rest) == a + [Sep] + Join(rest)
  {
    assert ([a] + rest)[1..] == rest;
  }

  /** Prefixing a character to the first piece prefixes it to the join. */
  lemma {:induction false} JoinExtendFirst(c: char, pieces: seq<string>)
    requires |pieces| >= 1
    ensures Join([[c] + pieces[0]] + pieces[1..]) == [c] + Join(pieces)
  {
    var first, tail := [c] + pieces[0], pieces[1..];
    if tail == [] {
      assert [first] + tail == [first];
      assert pieces == [pieces[0]];
    } else {
      JoinCons(first, tail);
      JoinCons(pieces[0], tail);
      assert [pieces[0]] + tail == pieces;
      var rest := Join(tail);
      assert first + [Sep] + rest == [c] + (pieces[0] + [Sep] + rest);
    }
  }

  /** The first piece is the text before the first separator: a prefix of
      `s` free of separators, followed in `s` by a separator whenever there
      is more than one piece. */
  lemma {:induction false} FirstPiece(s: string)
    ensures Split(s)[0] <= s
    ensures |Split(s)| > 1 ==> |Split(s)[0]| < |s| && s[|Split(s)[0]|] == Sep
  {
    if s != [] {
      FirstPiece(s[1..]);
    }
  }

  /** Splitting a string that starts with a separator-free `a` followed by
      a separator gives `a`, then the pieces of the remainder. */
  lemma {:induction false} SplitAfterPrefix(a: string, b: string)
    requires Sep !in a
    ensures Split(a + [Sep] + b) == [a] + Split(b)
  {
    if a == [] {
      assert a + [Sep] + b == [Sep] + b;
      assert ([Sep] + b)[1..] == b;
    } else {
      SplitAfterPrefix(a[1..], b);
      assert (a + [Sep] + b)[1..] == a[1..] + [Sep] + b;
      assert [a[0]] + a[1..] == a;
    }
  }

  /** A separator-free string is a single piece. */
  lemma {:induction false} SplitNoSep(a: string)
    requires Sep !in a
    ensures Split(a) == [a]
  {
    if a != [] {
      SplitNoSep(a[1..]);
      assert [a[0]] + a[1..] == a;
    }
  }

  /** Splitting a join of separator-free pieces gives the pieces back. */
  lemma {:induction false} SplitJoin(pieces: seq<string>)
    requires |pieces| >= 1
    requires forall i :: 0 <= i < |pieces| ==> Sep !in pieces[i]
    ensures Split(Join(pieces)) == pieces
  {
    if |pieces| == 1 {
      SplitNoSep(pieces[0]);
    } else {
      var rest := pieces[1..];
      assert forall i :: 0 <= i < |rest| ==> rest[i] == pieces[i + 1];
      SplitJoin(rest);
      SplitAfterPrefix(pieces[0], Join(rest));
      assert [pieces[0]] + rest == pieces;
    }
  }
}
