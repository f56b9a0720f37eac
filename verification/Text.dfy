/** `String.split/2` on a single character, and substrings. */
module Text {
  /** The pieces of `s` between occurrences of `sep`; the empty string has one empty piece. */
  function Split(s: string, sep: char): (pieces: seq<string>)
    ensures |pieces| > 0
  {
    if s == "" then [""]
    else
      var rest := Split(s[1..], sep);
      if s[0] == sep then [""] + rest else [[s[0]] + rest[0]] + rest[1..]
  }

  function Join(pieces: seq<string>, sep: char): string
    requires |pieces| > 0
  {
    if |pieces| == 1 then pieces[0] else pieces[0] + [sep] + Join(pieces[1..], sep)
  }

  /** Joining undoes splitting, and no piece holds the separator. */
  lemma {:induction false} SplitThenJoin(s: string, sep: char)
    ensures Join(Split(s, sep), sep) == s
    ensures forall p :: p in Split(s, sep) ==> sep !in p
  {
    if s == "" {
    } else {
      SplitThenJoin(s[1..], sep);
      var rest := Split(s[1..], sep);
      var all := Split(s, sep);
      assert s == [s[0]] + s[1..];
      if s[0] == sep {
        assert all[1..] == rest;
      } else {
        assert all[1..] == rest[1..];
        assert rest[0] in rest;
      }
    }
  }

  /** A piece free of the separator stays one piece. */
  lemma {:induction false} SplitPlain(s: string, sep: char)
    requires sep !in s
    ensures Split(s, sep) == [s]
  {
    if s == "" {
    } else {
      SplitPlain(s[1..], sep);
      assert [s[0]] + s[1..] == s;
    }
  }

  /** Splitting at a separator that is written out: split(a ++ sep ++ b) = split(a) ++ split(b). */
  lemma {:induction false} SplitConcat(a: string, sep: char, b: string)
    ensures Split(a + [sep] + b, sep) == Split(a, sep) + Split(b, sep)
  {
    var whole := a + [sep] + b;
    if a == "" {
      assert whole[1..] == b;
      assert whole[0] == sep;
    } else {
      SplitConcat(a[1..], sep, b);
      assert whole[1..] == a[1..] + [sep] + b;
      SplitHeads(Split(a[1..], sep), Split(b, sep), a[0], sep);
      assert whole[0] == a[0];
    }
  }

  /** One more character in front changes only the first piece, or adds an empty one. */
  lemma SplitHeads(left: seq<string>, right: seq<string>, c: char, sep: char)
    requires |left| > 0
    ensures ([""] + left) + right == [""] + (left + right)
    ensures ([[c] + left[0]] + left[1..]) + right == [[c] + (left + right)[0]] + (left + right)[1..]
  {
  }

  /** `piece` occurs in `s` as a contiguous substring. */
  ghost predicate Contains(s: string, piece: string) {
    exists k :: OccursAt(s, piece, k)
  }

  ghost predicate OccursAt(s: string, piece: string, k: int) {
    0 <= k <= |s| - |piece| && s[k..k + |piece|] == piece
  }

  lemma ContainedNoLonger(s: string, piece: string)
    requires Contains(s, piece)
    ensures |piece| <= |s|
    ensures |piece| == |s| ==> s == piece
  {
    var k :| OccursAt(s, piece, k);
    if |piece| == |s| {
      assert s[k..k + |piece|] == s;
    }
  }
}
