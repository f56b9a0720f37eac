/** The label grammar behind `ValidatorService.is_labels?/2`:
    `^(?:\w+=[^,]+(?:,\s*\w+=[^,]+)*)?$`, read as concatenation, option and star. */
module FilterGrammar {
  import opened Text

  datatype CharClass = Word | Space | NotComma | Just(c: char)

  predicate In(c: char, cls: CharClass) {
    match cls
    case Word => 'a' <= c <= 'z' || 'A' <= c <= 'Z' || '0' <= c <= '9' || c == '_'
    case Space => c == ' ' || '\t' <= c <= '\r'
    case NotComma => c != ','
    case Just(d) => c == d
  }

  predicate AllIn(s: string, cls: CharClass) {
    forall c :: c in s ==> In(c, cls)
  }

  datatype Regex = One(cls: CharClass) | Cat(first: Regex, second: Regex) | Maybe(body: Regex) | Star(body: Regex)

  /** The declarative meaning of a regular expression on the whole of `s`. */
  ghost predicate Matches(r: Regex, s: string)
    decreases r, |s|
  {
    match r
    case One(cls) => |s| == 1 && In(s[0], cls)
    case Cat(a, b) => exists k :: 0 <= k <= |s| && Matches(a, s[..k]) && Matches(b, s[k..])
    case Maybe(a) => s == "" || Matches(a, s)
    case Star(a) => s == "" || exists k :: 0 < k <= |s| && Matches(a, s[..k]) && Matches(r, s[k..])
  }

  function Plus(r: Regex): Regex {
    Cat(r, Star(r))
  }

  const PAIR := Cat(Plus(One(Word)), Cat(One(Just('=')), Plus(One(NotComma))))
  const MORE := Cat(One(Just(',')), Cat(Star(One(Space)), PAIR))
  const LABELS := Maybe(Cat(PAIR, Star(MORE)))

  /** `Regex.match?/2`: `$` also matches just before one final newline. */
  ghost predicate IsLabels(s: string) {
    || Matches(LABELS, s)
    || (s != "" && s[|s| - 1] == '\n' && Matches(LABELS, s[..|s| - 1]))
  }

  // ----- the character classes, by code point -----

  /** Digits, capital letters, the underscore and small letters. */
  lemma WordClass(c: char)
    ensures In(c, Word) <==> var n := c as int; 48 <= n <= 57 || 65 <= n <= 90 || n == 95 || 97 <= n <= 122
  {
  }

  /** Blank, tab, line feed, vertical tab, form feed and carriage return. */
  lemma SpaceClass(c: char)
    ensures In(c, Space) <==> c as int in {32, 9, 10, 11, 12, 13}
  {
  }

  // ----- what the pieces between commas look like -----

  /** A word, an equals sign and a value that is not empty. */
  ghost predicate PairForm(piece: string) {
    exists k :: EqualsAt(piece, k)
  }

  ghost predicate EqualsAt(piece: string, k: int) {
    0 < k < |piece| - 1 && piece[k] == '=' && AllIn(piece[..k], Word)
  }

  /** The same after optional white space. */
  ghost predicate SpacedPairForm(piece: string) {
    exists m :: SpaceBefore(piece, m)
  }

  ghost predicate SpaceBefore(piece: string, m: int) {
    0 <= m <= |piece| && AllIn(piece[..m], Space) && PairForm(piece[m..])
  }

  ghost predicate SpacedPairs(pieces: seq<string>) {
    forall i :: 0 <= i < |pieces| ==> SpacedPairForm(pieces[i])
  }

  /** White space may lead any piece but the first. */
  ghost predicate ListForm(pieces: seq<string>)
    requires |pieces| > 0
  {
    PairForm(pieces[0]) && SpacedPairs(pieces[1..])
  }

  // ----- from the regular expression to the pieces -----

  lemma {:induction false} StarOfClass(cls: CharClass, s: string)
    ensures Matches(Star(One(cls)), s) <==> AllIn(s, cls)
  {
    if s == "" {
    } else {
      StarOfClass(cls, s[1..]);
      assert s == [s[0]] + s[1..];
      assert Matches(One(cls), s[..1]) <==> In(s[0], cls);
      if Matches(Star(One(cls)), s) {
        var k :| 0 < k <= |s| && Matches(One(cls), s[..k]) && Matches(Star(One(cls)), s[k..]);
        assert k == 1;
      }
      if AllIn(s, cls) {
        assert Matches(One(cls), s[..1]) && Matches(Star(One(cls)), s[1..]);
      }
    }
  }

  lemma PlusOfClass(cls: CharClass, s: string)
    ensures Matches(Plus(One(cls)), s) <==> s != "" && AllIn(s, cls)
  {
    if s != "" {
      StarOfClass(cls, s[1..]);
      assert s == [s[0]] + s[1..];
      assert Matches(One(cls), s[..1]) <==> In(s[0], cls);
      if Matches(Plus(One(cls)), s) {
        var k :| 0 <= k <= |s| && Matches(One(cls), s[..k]) && Matches(Star(One(cls)), s[k..]);
        assert k == 1;
      }
      if AllIn(s, cls) {
        assert Matches(One(cls), s[..1]) && Matches(Star(One(cls)), s[1..]);
      }
    }
  }

  lemma EqualsThenValue(s: string)
    ensures Matches(PAIR.second, s) <==> |s| > 1 && s[0] == '=' && AllIn(s[1..], NotComma)
  {
    if Matches(PAIR.second, s) {
      var k :| 0 <= k <= |s| && Matches(One(Just('=')), s[..k]) && Matches(Plus(One(NotComma)), s[k..]);
      assert k == 1;
      PlusOfClass(NotComma, s[1..]);
    }
    if |s| > 1 && s[0] == '=' && AllIn(s[1..], NotComma) {
      PlusOfClass(NotComma, s[1..]);
      assert Matches(One(Just('=')), s[..1]);
    }
  }

  lemma PairMatches(s: string)
    ensures Matches(PAIR, s) <==> PairForm(s) && ',' !in s
  {
    if Matches(PAIR, s) {
      var k :| 0 <= k <= |s| && Matches(Plus(One(Word)), s[..k]) && Matches(PAIR.second, s[k..]);
      PlusOfClass(Word, s[..k]);
      EqualsThenValue(s[k..]);
      assert EqualsAt(s, k);
      assert s == s[..k] + [s[k]] + s[k..][1..];
      assert ',' !in s[..k] && ',' !in s[k..][1..];
    }
    if PairForm(s) && ',' !in s {
      var k :| EqualsAt(s, k);
      PlusOfClass(Word, s[..k]);
      EqualsThenValue(s[k..]);
      assert Matches(Plus(One(Word)), s[..k]) && Matches(PAIR.second, s[k..]);
    }
  }

  lemma SpacedPairMatches(s: string)
    ensures Matches(MORE.second, s) <==> SpacedPairForm(s) && ',' !in s
  {
    if Matches(MORE.second, s) {
      var m :| 0 <= m <= |s| && Matches(Star(One(Space)), s[..m]) && Matches(PAIR, s[m..]);
      StarOfClass(Space, s[..m]);
      PairMatches(s[m..]);
      assert SpaceBefore(s, m);
      assert s == s[..m] + s[m..];
      assert ',' !in s[..m];
    }
    if SpacedPairForm(s) && ',' !in s {
      var m :| SpaceBefore(s, m);
      StarOfClass(Space, s[..m]);
      PairMatches(s[m..]);
      assert Matches(Star(One(Space)), s[..m]) && Matches(PAIR, s[m..]);
    }
  }

  lemma MoreMatches(s: string)
    ensures Matches(MORE, s) <==> s != "" && s[0] == ',' && SpacedPairForm(s[1..]) && ',' !in s[1..]
  {
    if Matches(MORE, s) {
      var k :| 0 <= k <= |s| && Matches(One(Just(',')), s[..k]) && Matches(MORE.second, s[k..]);
      assert k == 1;
      SpacedPairMatches(s[1..]);
    }
    if s != "" && s[0] == ',' && SpacedPairForm(s[1..]) && ',' !in s[1..] {
      SpacedPairMatches(s[1..]);
      assert Matches(One(Just(',')), s[..1]) && Matches(MORE.second, s[1..]);
    }
  }

  /** The text up to the first comma, and the text after it, if there is one. */
  lemma {:induction false} FirstPiece(s: string) returns (k: nat)
    ensures k <= |s| && ',' !in s[..k]
    ensures k == |s| ==> Split(s, ',') == [s]
    ensures k < |s| ==> s[k] == ',' && Split(s, ',') == [s[..k]] + Split(s[k + 1..], ',')
  {
    if s == "" {
      k := 0;
    } else if s[0] == ',' {
      k := 0;
    } else {
      var j := FirstPiece(s[1..]);
      k := j + 1;
      assert s[..k] == [s[0]] + s[1..][..j];
      assert s == [s[0]] + s[1..];
      if k < |s| {
        assert s[1..][j + 1..] == s[k + 1..];
      }
    }
  }

  lemma {:induction false} StarOfMore(s: string)
    ensures Matches(Star(MORE), s) <==> s == "" || (s[0] == ',' && SpacedPairs(Split(s[1..], ',')))
    decreases |s|, 1
  {
    if s == "" {
    } else {
      if Matches(Star(MORE), s) {
        var k :| 0 < k <= |s| && Matches(MORE, s[..k]) && Matches(Star(MORE), s[k..]);
        StarOfMoreSplits(s, k);
      }
      if s[0] == ',' && SpacedPairs(Split(s[1..], ',')) {
        StarOfMoreJoins(s);
      }
    }
  }

  lemma {:induction false} StarOfMoreSplits(s: string, k: nat)
    requires 0 < k <= |s| && Matches(MORE, s[..k]) && Matches(Star(MORE), s[k..])
    ensures s[0] == ',' && SpacedPairs(Split(s[1..], ','))
    decreases |s|, 0
  {
    MoreMatches(s[..k]);
    StarOfMore(s[k..]);
    var piece := s[1..k];
    assert s[..k][1..] == piece;
    SplitPlain(piece, ',');
    if k == |s| {
      assert piece == s[1..];
    } else {
      var rest := s[k + 1..];
      assert s[k..][1..] == rest && s[k..][0] == s[k];
      SplitConcat(piece, ',', rest);
      assert s[1..] == piece + [','] + rest;
    }
  }

  lemma {:induction false} StarOfMoreJoins(s: string)
    requires s != "" && s[0] == ',' && SpacedPairs(Split(s[1..], ','))
    ensures Matches(Star(MORE), s)
    decreases |s|, 0
  {
    var j := FirstPiece(s[1..]);
    var pieces, k := Split(s[1..], ','), j + 1;
    assert s[..k][1..] == s[1..][..j] == pieces[0];
    MoreMatches(s[..k]);
    if k < |s| {
      var rest := s[k + 1..];
      assert s[1..][j + 1..] == rest;
      assert s[k..][1..] == rest && s[k] == s[1..][j];
      assert pieces[1..] == Split(rest, ',');
    }
    StarOfMore(s[k..]);
    assert Matches(MORE, s[..k]) && Matches(Star(MORE), s[k..]);
  }

  lemma ListSplits(s: string)
    requires Matches(Cat(PAIR, Star(MORE)), s)
    ensures ListForm(Split(s, ','))
  {
    var k :| 0 <= k <= |s| && Matches(PAIR, s[..k]) && Matches(Star(MORE), s[k..]);
    PairMatches(s[..k]);
    StarOfMore(s[k..]);
    SplitPlain(s[..k], ',');
    if k == |s| {
      assert s[..k] == s;
    } else {
      assert s[k..][1..] == s[k + 1..];
      assert s == s[..k] + [','] + s[k + 1..];
      SplitConcat(s[..k], ',', s[k + 1..]);
      assert Split(s, ',')[1..] == Split(s[k + 1..], ',');
    }
  }

  lemma ListJoins(s: string)
    requires ListForm(Split(s, ','))
    ensures Matches(Cat(PAIR, Star(MORE)), s)
  {
    var k := FirstPiece(s);
    assert s[..k] == Split(s, ',')[0];
    PairMatches(s[..k]);
    StarOfMore(s[k..]);
    if k < |s| {
      assert s[k..][1..] == s[k + 1..];
      assert Split(s, ',')[1..] == Split(s[k + 1..], ',');
    }
    assert Matches(PAIR, s[..k]) && Matches(Star(MORE), s[k..]);
  }

  lemma ListMatches(s: string)
    ensures Matches(Cat(PAIR, Star(MORE)), s) <==> ListForm(Split(s, ','))
  {
    if Matches(Cat(PAIR, Star(MORE)), s) {
      ListSplits(s);
    }
    if ListForm(Split(s, ',')) {
      ListJoins(s);
    }
  }

  // ----- the final newline that `$` lets through -----

  lemma NewlineKeepsPair(piece: string)
    requires PairForm(piece)
    ensures PairForm(piece + "\n")
  {
    var k :| EqualsAt(piece, k);
    assert (piece + "\n")[..k] == piece[..k];
    assert EqualsAt(piece + "\n", k);
  }

  lemma NewlineKeepsSpacedPair(piece: string)
    requires SpacedPairForm(piece)
    ensures SpacedPairForm(piece + "\n")
  {
    var m :| SpaceBefore(piece, m);
    NewlineKeepsPair(piece[m..]);
    assert (piece + "\n")[m..] == piece[m..] + "\n";
    assert (piece + "\n")[..m] == piece[..m];
    assert SpaceBefore(piece + "\n", m);
  }

  function NewlineOnLast(pieces: seq<string>): seq<string>
    requires pieces != []
  {
    var n := |pieces| - 1;
    pieces[..n] + [pieces[n] + "\n"]
  }

  lemma {:induction false} NewlineJoinsLastPiece(s: string)
    ensures Split(s + "\n", ',') == NewlineOnLast(Split(s, ','))
  {
    if s == "" {
      assert "" + "\n" == "\n";
      SplitPlain("\n", ',');
    } else {
      NewlineJoinsLastPiece(s[1..]);
      assert (s + "\n")[1..] == s[1..] + "\n";
      NewlineUnderFront(Split(s[1..], ','), s[0]);
      assert NewlineOnLast([""] + Split(s[1..], ',')) == [""] + NewlineOnLast(Split(s[1..], ','));
    }
  }

  lemma NewlineUnderFront(pieces: seq<string>, c: char)
    requires pieces != []
    ensures NewlineOnLast([[c] + pieces[0]] + pieces[1..])
            == [[c] + NewlineOnLast(pieces)[0]] + NewlineOnLast(pieces)[1..]
  {
    if |pieces| == 1 {
      assert ([c] + pieces[0]) + "\n" == [c] + (pieces[0] + "\n");
    }
  }

  lemma NewlineKeepsList(s: string)
    requires ListForm(Split(s, ','))
    ensures ListForm(Split(s + "\n", ','))
  {
    NewlineJoinsLastPiece(s);
    var pieces := Split(s, ',');
    var n := |pieces| - 1;
    var longer := Split(s + "\n", ',');
    if n == 0 {
      NewlineKeepsPair(pieces[0]);
    } else {
      assert pieces[1..][n - 1] == pieces[n];
      NewlineKeepsSpacedPair(pieces[n]);
      forall i | 0 <= i < |longer| - 1 ensures SpacedPairForm(longer[1..][i]) {
        assert i < n - 1 ==> longer[1..][i] == pieces[1..][i];
      }
    }
  }

  /** The strings the validator accepts, piece by piece. */
  lemma IsLabelsExactly(s: string)
    ensures IsLabels(s) <==> s == "" || s == "\n" || ListForm(Split(s, ','))
  {
    ListMatches(s);
    if s != "" {
      var front := s[..|s| - 1];
      ListMatches(front);
      if s[|s| - 1] == '\n' {
        assert s == front + "\n";
        if ListForm(Split(front, ',')) {
          NewlineKeepsList(front);
        }
      }
    }
  }

  // ----- what the query builder finds in an accepted filter -----

  lemma SpacedPairHasEquals(piece: string)
    requires SpacedPairForm(piece)
    ensures '=' in piece
  {
    var m :| SpaceBefore(piece, m);
    var k :| EqualsAt(piece[m..], k);
    assert piece[m + k] == '=';
  }

  /** Every piece of an accepted filter has a value to compare with, unless the filter is blank. */
  lemma AcceptedPiecesHaveValues(s: string, piece: string)
    requires IsLabels(s) && piece in Split(s, ',')
    ensures '=' in piece || (piece == s && (s == "" || s == "\n"))
  {
    IsLabelsExactly(s);
    if s == "\n" {
      SplitPlain(s, ',');
    } else if s != "" {
      var pieces := Split(s, ',');
      var i :| 0 <= i < |pieces| && pieces[i] == piece;
      if i == 0 {
        var k :| EqualsAt(piece, k);
        assert piece[k] == '=';
      } else {
        assert pieces[1..][i - 1] == piece;
        SpacedPairHasEquals(piece);
      }
    }
  }
}
