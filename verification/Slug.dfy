/** `SlugService.create/1`: downcase, replace what is not a letter or digit, collapse, trim. */
module Slug {

  /** What Unicode says about characters: the lower-case form of each, and its UTF-8 width. */
  datatype CharTables = CharTables(lower: char -> string, width: char -> nat) {
    /** All that is needed of them: the ASCII letters, digits and the dash. */
    ghost predicate Valid() {
      && (forall c :: IsAlnum(c) || c == '-' ==> lower(c) == [c])
      && (forall c :: 65 <= c as int <= 90 ==> lower(c) == [(c as int + 32) as char])
      && (forall c :: width(c) >= 1)
    }
  }

  predicate IsAlnum(c: char) {
    'a' <= c <= 'z' || '0' <= c <= '9'
  }

  /** The characters the expression keeps, by code point: digits and small letters. */
  lemma AlnumClass(c: char)
    ensures IsAlnum(c) <==> 48 <= c as int <= 57 || 97 <= c as int <= 122
  {
  }

  function Downcase(tables: CharTables, text: string): string {
    if text == "" then "" else tables.lower(text[0]) + Downcase(tables, text[1..])
  }

  /** Downcasing goes character by character. */
  lemma {:induction false} DowncaseConcat(tables: CharTables, a: string, b: string)
    ensures Downcase(tables, a + b) == Downcase(tables, a) + Downcase(tables, b)
    ensures |a| == 1 ==> Downcase(tables, a) == tables.lower(a[0])
  {
    if a == "" {
      assert a + b == b;
    } else {
      DowncaseConcat(tables, a[1..], b);
      assert (a + b)[1..] == a[1..] + b && (a + b)[0] == a[0];
    }
  }

  /** A text of ASCII letters, digits and dashes keeps its length, and its capitals become small. */
  lemma {:induction false} DowncaseAscii(tables: CharTables, text: string)
    requires tables.Valid()
    requires forall i :: 0 <= i < |text| ==> IsAlnum(text[i]) || text[i] == '-' || 65 <= text[i] as int <= 90
    ensures |Downcase(tables, text)| == |text|
    ensures forall i :: 0 <= i < |text| ==>
              Downcase(tables, text)[i] as int == text[i] as int + (if 65 <= text[i] as int <= 90 then 32 else 0)
  {
    if text == "" {
    } else {
      var rest := text[1..];
      assert forall i :: 0 <= i < |rest| ==> rest[i] == text[i + 1];
      DowncaseAscii(tables, rest);
      assert |tables.lower(text[0])| == 1;
      assert forall i :: 0 < i < |text| ==> Downcase(tables, text)[i] == Downcase(tables, rest)[i - 1];
    }
  }

  function Dashes(n: nat): string {
    seq(n, _ => '-')
  }

  /** `[^a-z0-9]` works on bytes, so a wide character becomes several dashes. */
  function ReplaceOthers(tables: CharTables, text: string): string {
    if text == "" then ""
    else (if IsAlnum(text[0]) then [text[0]] else Dashes(tables.width(text[0]))) + ReplaceOthers(tables, text[1..])
  }

  /** Each run of dashes becomes one. */
  function Collapse(text: string): string {
    if text == "" then ""
    else if text[0] == '-' && |text| > 1 && text[1] == '-' then Collapse(text[1..])
    else [text[0]] + Collapse(text[1..])
  }

  function TrimStart(text: string): string {
    if text != "" && text[0] == '-' then TrimStart(text[1..]) else text
  }

  function TrimEnd(text: string): string {
    if text != "" && text[|text| - 1] == '-' then TrimEnd(text[..|text| - 1]) else text
  }

  function Create(tables: CharTables, text: string): string {
    TrimEnd(TrimStart(Collapse(ReplaceOthers(tables, Downcase(tables, text)))))
  }

  // ----- what a slug is -----

  /** The maximal runs of letters and digits. */
  function Words(text: string): (words: seq<string>)
    ensures text != "" && IsAlnum(text[0]) ==> words != []
  {
    if text == "" then []
    else if !IsAlnum(text[0]) then Words(text[1..])
    else if |text| > 1 && IsAlnum(text[1]) then
      var words := Words(text[1..]);
      [[text[0]] + words[0]] + words[1..]
    else [[text[0]]] + Words(text[1..])
  }

  /** Words with single dashes between them. */
  function Hyphenate(words: seq<string>): string {
    if words == [] then "" else if |words| == 1 then words[0] else words[0] + ("-" + Hyphenate(words[1..]))
  }

  predicate IsWord(word: string) {
    word != "" && forall c :: c in word ==> IsAlnum(c)
  }

  // ----- proofs -----

  lemma {:induction false} WordsAreWords(text: string)
    ensures forall w :: w in Words(text) ==> IsWord(w)
  {
    if text == "" {
    } else {
      WordsAreWords(text[1..]);
      var rest := Words(text[1..]);
      if IsAlnum(text[0]) && |text| > 1 && IsAlnum(text[1]) {
        assert rest[0] in rest;
      }
    }
  }

  /** One dash for each replaced character collapses to the same text. */
  function ReplaceEach(text: string): string {
    if text == "" then "" else [if IsAlnum(text[0]) then text[0] else '-'] + ReplaceEach(text[1..])
  }

  lemma {:induction false} DashesCollapse(n: nat, rest: string)
    requires n >= 1
    ensures Collapse(Dashes(n) + rest) == Collapse("-" + rest)
    decreases n
  {
    if n == 1 {
      assert Dashes(1) == "-";
    } else {
      assert (Dashes(n) + rest)[1..] == Dashes(n - 1) + rest;
      DashesCollapse(n - 1, rest);
    }
  }

  /** Collapsing depends on the rest of the text only through what the rest collapses to. */
  lemma CollapseAfter(c: char, a: string, b: string)
    requires Collapse(a) == Collapse(b) && (a == "" <==> b == "") && (a != "" ==> a[0] == b[0])
    ensures Collapse([c] + a) == Collapse([c] + b)
  {
    assert ([c] + a)[1..] == a && ([c] + b)[1..] == b;
  }

  lemma {:induction false} WidthsCollapse(tables: CharTables, text: string)
    requires tables.Valid()
    ensures Collapse(ReplaceOthers(tables, text)) == Collapse(ReplaceEach(text))
    ensures text != "" ==> ReplaceOthers(tables, text) != ""
                           && ReplaceOthers(tables, text)[0] == ReplaceEach(text)[0]
  {
    if text == "" {
    } else {
      WidthsCollapse(tables, text[1..]);
      var wide, each := ReplaceOthers(tables, text[1..]), ReplaceEach(text[1..]);
      if !IsAlnum(text[0]) {
        DashesCollapse(tables.width(text[0]), wide);
        CollapseAfter('-', wide, each);
      } else {
        CollapseAfter(text[0], wide, each);
      }
    }
  }

  lemma TrimEndOnlyTrimsDashes(c: char, text: string)
    ensures c != '-' ==> TrimEnd([c] + text) == [c] + TrimEnd(text)
    ensures TrimEnd(text) != "" ==> TrimEnd([c] + text) == [c] + TrimEnd(text)
    decreases |text|
  {
    if text != "" {
      var front := text[..|text| - 1];
      assert ([c] + text)[..|text|] == [c] + front;
      if text[|text| - 1] == '-' {
        TrimEndOnlyTrimsDashes(c, front);
      }
    } else {
      assert [c] + text == [c];
      assert TrimEnd("") == "";
    }
  }

  /** Replaced, collapsed and trimmed at the end: the words with dashes between, after a dash if
      the text does not start with a word. */
  lemma {:induction false} CollapsedWords(text: string)
    ensures var words := Words(text);
            TrimEnd(Collapse(ReplaceEach(text)))
            == if words == [] then "" else (if IsAlnum(text[0]) then "" else "-") + Hyphenate(words)
  {
    if |text| == 1 {
      assert text[1..] == "" && ReplaceEach(text[1..]) == "";
      var c := ReplaceEach(text)[0];
      assert ReplaceEach(text) == [c] && [c][1..] == "" && Collapse([c]) == [c];
      assert TrimEnd([c]) == if c == '-' then TrimEnd([c][..0]) else [c];
    } else if |text| > 1 {
      CollapsedWords(text[1..]);
      if !IsAlnum(text[0]) && !IsAlnum(text[1]) {
        assert ReplaceEach(text)[1..] == ReplaceEach(text[1..]);
      } else {
        CollapsedFirst(text);
      }
    }
  }

  lemma CollapsedFirst(text: string)
    requires |text| > 1 && (IsAlnum(text[0]) || IsAlnum(text[1]))
    requires var words := Words(text[1..]);
             TrimEnd(Collapse(ReplaceEach(text[1..])))
             == if words == [] then "" else (if IsAlnum(text[1]) then "" else "-") + Hyphenate(words)
    ensures var words := Words(text);
            TrimEnd(Collapse(ReplaceEach(text)))
            == if words == [] then "" else (if IsAlnum(text[0]) then "" else "-") + Hyphenate(words)
  {
    var c, each := ReplaceEach(text)[0], Collapse(ReplaceEach(text[1..]));
    var words := Words(text[1..]);
    assert ReplaceEach(text)[1..] == ReplaceEach(text[1..]);
    assert Collapse(ReplaceEach(text)) == [c] + each;
    TrimEndOnlyTrimsDashes(c, each);
    if IsAlnum(text[0]) {
      if IsAlnum(text[1]) {
        HyphenateLonger(text[0], words);
      } else {
        HyphenateFirst(text[0], words);
        assert [c] + "" == [c];
      }
    } else {
      WordsAreWords(text[1..]);
      HyphenateNotEmpty(words);
      assert TrimEnd(each) == "" + Hyphenate(words) == Hyphenate(words);
    }
  }

  lemma HyphenateNotEmpty(words: seq<string>)
    requires words != [] && forall w :: w in words ==> IsWord(w)
    ensures Hyphenate(words) != "" && IsAlnum(Hyphenate(words)[0])
  {
    assert words[0] in words;
    assert words[0][0] in words[0];
  }

  /** A letter in front extends the first word, or is a word of its own. */
  lemma HyphenateLonger(c: char, words: seq<string>)
    requires words != []
    ensures Hyphenate([[c] + words[0]] + words[1..]) == [c] + Hyphenate(words)
  {
    var longer := [[c] + words[0]] + words[1..];
    assert longer[1..] == words[1..] && longer[0] == [c] + words[0];
    if |words| > 1 {
      Assoc([c], words[0], "-" + Hyphenate(words[1..]));
    }
  }

  lemma HyphenateFirst(c: char, words: seq<string>)
    ensures Hyphenate([[c]] + words) == if words == [] then [c] else [c] + ("-" + Hyphenate(words))
  {
    assert ([[c]] + words)[1..] == words && ([[c]] + words)[0] == [c];
  }

  lemma Assoc(a: string, b: string, c: string)
    ensures (a + b) + c == a + (b + c)
  {
  }

  lemma TrimsCommute(text: string)
    ensures TrimEnd(TrimStart(text)) == TrimStart(TrimEnd(text))
    decreases |text|
  {
    if text != "" && text[0] == '-' {
      var tail := text[1..];
      assert text == ['-'] + tail;
      TrimsCommute(tail);
      TrimEndOnlyTrimsDashes('-', tail);
      if TrimEnd(tail) == "" {
        AllDashes(tail);
      } else {
        assert TrimStart(['-'] + TrimEnd(tail)) == TrimStart((['-'] + TrimEnd(tail))[1..]);
        assert (['-'] + TrimEnd(tail))[1..] == TrimEnd(tail);
      }
    } else if text != "" {
      assert text == [text[0]] + text[1..];
      TrimEndOnlyTrimsDashes(text[0], text[1..]);
    }
  }

  /** Only dashes trim away to nothing. */
  lemma {:induction false} AllDashes(text: string)
    requires TrimEnd(text) == ""
    ensures TrimStart(text) == "" && TrimEnd(['-'] + text) == ""
    decreases |text|
  {
    if text == "" {
      assert ['-'] + text == "-";
      assert "-"[..0] == "";
    } else {
      var front := text[..|text| - 1];
      AllDashes(front);
      assert (['-'] + text)[..|text|] == ['-'] + front;
      assert text == front + ['-'];
      TrimStartOfDashes(front);
    }
  }

  lemma {:induction false} TrimStartOfDashes(front: string)
    requires TrimStart(front) == ""
    ensures TrimStart(front + ['-']) == ""
  {
    if front == "" {
      assert front + ['-'] == "-";
      assert "-"[1..] == "";
    } else {
      assert (front + ['-'])[1..] == front[1..] + ['-'];
      TrimStartOfDashes(front[1..]);
    }
  }

  /** A slug is the words of the downcased text with single dashes between them. */
  lemma SlugIsItsWords(tables: CharTables, text: string)
    requires tables.Valid()
    ensures Create(tables, text) == Hyphenate(Words(Downcase(tables, text)))
  {
    var lower := Downcase(tables, text);
    var words := Words(lower);
    WidthsCollapse(tables, lower);
    TrimsCommute(Collapse(ReplaceEach(lower)));
    CollapsedWords(lower);
    if words != [] {
      WordsAreWords(lower);
      HyphenateNotEmpty(words);
      var slug := Hyphenate(words);
      assert ("-" + slug)[1..] == slug;
      assert TrimStart(slug) == slug && TrimStart("-" + slug) == slug;
      assert "" + slug == slug;
    }
  }

  // ----- normal form -----

  predicate IsSlugChar(c: char) { IsAlnum(c) || c == '-' }

  /** Lower-case letters, digits and dashes; no dash first, last or doubled. */
  predicate Normal(slug: string) {
    && (forall i :: 0 <= i < |slug| ==> IsSlugChar(slug[i]))
    && (slug != "" ==> slug[0] != '-' && slug[|slug| - 1] != '-')
    && (forall i :: 0 <= i < |slug| - 1 ==> !(slug[i] == '-' && slug[i + 1] == '-'))
  }

  lemma {:induction false} HyphenatedIsNormal(words: seq<string>)
    requires forall w :: w in words ==> IsWord(w)
    ensures Normal(Hyphenate(words))
    decreases |words|
  {
    if words == [] {
    } else {
      assert words[0] in words;
      forall i | 0 <= i < |words[0]| ensures IsAlnum(words[0][i]) {
        assert words[0][i] in words[0];
      }
      if |words| > 1 {
        HyphenatedIsNormal(words[1..]);
        HyphenateNotEmpty(words[1..]);
      }
    }
  }

  lemma {:induction false} WordsOfWord(word: string, rest: string)
    requires IsWord(word) && (rest != "" ==> !IsAlnum(rest[0]))
    ensures Words(word + rest) == [word] + Words(rest)
    decreases |word|
  {
    assert (word + rest)[1..] == word[1..] + rest;
    assert word[0] in word;
    if |word| > 1 {
      assert forall c :: c in word[1..] ==> c in word;
      WordsOfWord(word[1..], rest);
      assert word[1] in word;
      assert word == [word[0]] + word[1..];
    } else {
      assert word + rest == [word[0]] + rest;
      assert word == [word[0]];
    }
  }

  lemma {:induction false} WordsOfHyphenated(words: seq<string>)
    requires forall w :: w in words ==> IsWord(w)
    ensures Words(Hyphenate(words)) == words
    decreases |words|
  {
    if words == [] {
    } else {
      assert words[0] in words;
      if |words| == 1 {
        WordsOfWord(words[0], "");
        assert words[0] + "" == words[0];
      } else {
        var rest := "-" + Hyphenate(words[1..]);
        WordsOfWord(words[0], rest);
        WordsOfHyphenated(words[1..]);
        assert rest[1..] == Hyphenate(words[1..]);
      }
    }
  }

  lemma {:induction false} DowncaseKeepsSlugChars(tables: CharTables, text: string)
    requires tables.Valid() && forall i :: 0 <= i < |text| ==> IsSlugChar(text[i])
    ensures Downcase(tables, text) == text
  {
    if text == "" {
    } else {
      DowncaseKeepsSlugChars(tables, text[1..]);
      assert text == [text[0]] + text[1..];
    }
  }

  /** A slug is in normal form, and making a slug of it again changes nothing. */
  lemma SlugIsNormalAndStable(tables: CharTables, text: string)
    requires tables.Valid()
    ensures Normal(Create(tables, text))
    ensures Create(tables, Create(tables, text)) == Create(tables, text)
  {
    var words := Words(Downcase(tables, text));
    SlugIsItsWords(tables, text);
    WordsAreWords(Downcase(tables, text));
    HyphenatedIsNormal(words);
    var slug := Create(tables, text);
    SlugIsItsWords(tables, slug);
    DowncaseKeepsSlugChars(tables, slug);
    WordsOfHyphenated(words);
  }

  /** A text already in normal form is its own slug. */
  lemma {:induction false} NormalTextIsItsWords(slug: string)
    requires Normal(slug)
    ensures Hyphenate(Words(slug)) == slug
    decreases |slug|
  {
    if slug == "" {
    } else {
      if |slug| == 1 {
        assert slug[1..] == "";
        assert IsSlugChar(slug[0]) && slug == [slug[0]];
        assert Words("") == [] && Words(slug) == [slug];
      } else if IsAlnum(slug[1]) {
        NormalTextIsItsWords(slug[1..]);
        HyphenateLonger(slug[0], Words(slug[1..]));
        assert slug == [slug[0]] + slug[1..];
      } else {
        NormalTextIsItsWords(slug[2..]);
        assert slug[1..][1..] == slug[2..];
        HyphenateFirst(slug[0], Words(slug[2..]));
        assert IsSlugChar(slug[1]) && slug[1] == '-';
        assert slug == [slug[0]] + ("-" + slug[2..]);
      }
    }
  }

  /** The fixed points are exactly the texts in normal form. */
  lemma FixedPointsAreNormal(tables: CharTables, text: string)
    requires tables.Valid()
    ensures Create(tables, text) == text <==> Normal(text)
  {
    SlugIsNormalAndStable(tables, text);
    if Normal(text) {
      DowncaseKeepsSlugChars(tables, text);
      SlugIsItsWords(tables, text);
      NormalTextIsItsWords(text);
    }
  }
}
