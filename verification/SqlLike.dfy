/** SQL LIKE as PostgreSQL evaluates it: `%`, `_` and the default escape character `\`. */
module SqlLike {
  import opened Text

  /** Does `s` match `pattern`? A pattern that ends in a lone escape matches nothing here. */
  predicate Like(pattern: string, s: string)
    decreases |pattern| + |s|
  {
    if pattern == "" then s == ""
    else if pattern[0] == '%' then Like(pattern[1..], s) || (s != "" && Like(pattern, s[1..]))
    else if pattern[0] == '_' then s != "" && Like(pattern[1..], s[1..])
    else if pattern[0] == '\\' then
      |pattern| >= 2 && s != "" && s[0] == pattern[1] && Like(pattern[2..], s[1..])
    else s != "" && s[0] == pattern[0] && Like(pattern[1..], s[1..])
  }

  /** The pattern that `like(h.labels, ^"%#{tag}%")` sends. */
  function TagPattern(tag: string): string {
    "%" + tag + "%"
  }

  /** Free of LIKE's special characters. */
  predicate Plain(tag: string) {
    '%' !in tag && '_' !in tag && '\\' !in tag
  }

  lemma {:induction false} PercentMatchesAll(s: string)
    ensures Like("%", s)
  {
    if s == "" {
    } else {
      PercentMatchesAll(s[1..]);
    }
  }

  /** A plain prefix of the pattern has to be matched letter by letter. */
  lemma {:induction false} PlainPrefix(tag: string, s: string)
    requires Plain(tag)
    ensures Like(tag + "%", s) <==> tag <= s
  {
    if tag == "" {
      assert tag + "%" == "%";
      PercentMatchesAll(s);
    } else {
      assert (tag + "%")[1..] == tag[1..] + "%";
      if s != "" {
        PlainPrefix(tag[1..], s[1..]);
        assert tag == [tag[0]] + tag[1..] && s == [s[0]] + s[1..];
      }
    }
  }

  lemma {:induction false} PlainTag(tag: string, s: string)
    requires Plain(tag)
    ensures Like(TagPattern(tag), s) <==> Contains(s, tag)
  {
    assert TagPattern(tag)[1..] == tag + "%";
    PlainPrefix(tag, s);
    if Like(tag + "%", s) {
      assert OccursAt(s, tag, 0);
    } else if s != "" {
      PlainTag(tag, s[1..]);
      if Like(TagPattern(tag), s[1..]) {
        var k :| OccursAt(s[1..], tag, k);
        assert s[1..][k..k + |tag|] == s[k + 1..k + 1 + |tag|];
        assert OccursAt(s, tag, k + 1);
      }
      if Contains(s, tag) {
        var k :| OccursAt(s, tag, k);
        assert k != 0;
        assert s[1..][k - 1..k - 1 + |tag|] == s[k..k + |tag|];
        assert OccursAt(s[1..], tag, k - 1);
      }
    }
  }

  /** One string that the tag's pattern accepts: each wildcard takes the shortest text it may
      take, each escaped character stands for itself. */
  function Sample(tag: string): string {
    if tag == "" then ""
    else if tag[0] == '%' then Sample(tag[1..])
    else if tag[0] == '_' then "a" + Sample(tag[1..])
    else if tag[0] == '\\' then
      // A trailing escape swallows the closing percent sign of the pattern.
      if |tag| == 1 then "%" else [tag[1]] + Sample(tag[2..])
    else [tag[0]] + Sample(tag[1..])
  }

  lemma {:induction false} SampleMatches(tag: string)
    ensures Like(tag + "%", Sample(tag))
    decreases |tag|
  {
    var p := tag + "%";
    if tag == "" {
      PercentMatchesAll("");
      assert p == "%";
    } else if tag[0] == '\\' {
      if |tag| == 1 {
        assert p == "\\%" && p[2..] == "";
        assert Sample(tag) == "%";
        assert "%"[1..] == "";
      } else {
        SampleMatches(tag[2..]);
        assert p[2..] == tag[2..] + "%" && p[1] == tag[1];
        assert Sample(tag)[1..] == Sample(tag[2..]);
      }
    } else {
      SampleMatches(tag[1..]);
      assert p[1..] == tag[1..] + "%";
      if tag[0] != '%' {
        assert Sample(tag)[1..] == Sample(tag[1..]);
      }
    }
  }

  lemma {:induction false} SampleDiffers(tag: string)
    ensures |Sample(tag)| <= |tag|
    ensures Sample(tag) == tag ==> Plain(tag)
    decreases |tag|
  {
    if tag == "" {
    } else {
      if tag[0] == '\\' {
        if |tag| > 1 {
          SampleDiffers(tag[2..]);
        }
      } else {
        SampleDiffers(tag[1..]);
        if Sample(tag) == tag {
          assert tag[0] != '%' && tag[0] != '_';
          assert Sample(tag)[1..] == Sample(tag[1..]);
          assert tag == [tag[0]] + tag[1..];
        }
      }
    }
  }

  /** No shorter string matches. */
  lemma {:induction false} SampleIsShortest(tag: string, s: string)
    requires Like(tag + "%", s)
    ensures |Sample(tag)| <= |s|
    decreases |tag| + |s|
  {
    var p := tag + "%";
    if tag == "" {
    } else if tag[0] == '\\' {
      if |tag| > 1 {
        assert p[2..] == tag[2..] + "%";
        SampleIsShortest(tag[2..], s[1..]);
      }
    } else {
      assert p[1..] == tag[1..] + "%";
      if tag[0] != '%' {
        SampleIsShortest(tag[1..], s[1..]);
      } else if Like(p[1..], s) {
        SampleIsShortest(tag[1..], s);
      } else {
        SampleIsShortest(tag, s[1..]);
      }
    }
  }

  lemma {:induction false} TagNeedsRoom(tag: string, s: string)
    requires Like(TagPattern(tag), s)
    ensures |Sample(tag)| <= |s|
  {
    assert TagPattern(tag)[1..] == tag + "%";
    if Like(tag + "%", s) {
      SampleIsShortest(tag, s);
    } else {
      TagNeedsRoom(tag, s[1..]);
    }
  }

  lemma {:induction false} SampleOfPlainFront(front: string, tag: string)
    requires Plain(front)
    ensures Sample(front + tag) == front + Sample(tag)
  {
    if front == "" {
      assert front + tag == tag && front + Sample(tag) == Sample(tag);
    } else {
      assert (front + tag)[1..] == front[1..] + tag && (front + tag)[0] == front[0];
      SampleOfPlainFront(front[1..], tag);
      assert front == [front[0]] + front[1..];
    }
  }

  // ----- a text that has the tag's own form -----

  /** The tag ends in an escape character that is not itself escaped. */
  predicate LoneEscape(tag: string) {
    if tag == "" then false
    else if tag[0] == '\\' then |tag| == 1 || LoneEscape(tag[2..])
    else LoneEscape(tag[1..])
  }

  lemma SampleFirst(tag: string, extra: string)
    requires tag != "" && tag[0] != '%' && tag[0] != '\\'
    ensures var c := if tag[0] == '_' then 'a' else tag[0];
            Sample(tag) + extra == [c] + (Sample(tag[1..]) + extra)
  {
  }

  lemma SampleEscaped(tag: string, extra: string)
    requires |tag| > 1 && tag[0] == '\\'
    ensures Sample(tag) + extra == [tag[1]] + (Sample(tag[2..]) + extra)
  {
  }

  lemma {:induction false} SampleThen(tag: string, extra: string)
    requires !LoneEscape(tag)
    ensures Like(tag + "%", Sample(tag) + extra)
    decreases |tag|
  {
    if tag == "" {
      PercentMatchesAll(extra);
      assert tag + "%" == "%" && Sample(tag) + extra == extra;
    } else if tag[0] == '\\' {
      SampleThen(tag[2..], extra);
      EscapedFirst(tag, Sample(tag[2..]) + extra);
      SampleEscaped(tag, extra);
    } else if tag[0] == '%' {
      SampleThen(tag[1..], extra);
      PercentFirst(tag, Sample(tag[1..]) + extra);
    } else {
      SampleThen(tag[1..], extra);
      OtherFirst(tag, if tag[0] == '_' then 'a' else tag[0], Sample(tag[1..]) + extra);
      SampleFirst(tag, extra);
    }
  }

  lemma EscapedFirst(tag: string, s: string)
    requires |tag| > 1 && tag[0] == '\\' && Like(tag[2..] + "%", s)
    ensures Like(tag + "%", [tag[1]] + s)
  {
    assert (tag + "%")[2..] == tag[2..] + "%" && (tag + "%")[1] == tag[1];
    assert ([tag[1]] + s)[1..] == s;
  }

  lemma PercentFirst(tag: string, s: string)
    requires tag != "" && tag[0] == '%' && Like(tag[1..] + "%", s)
    ensures Like(tag + "%", s)
  {
    assert (tag + "%")[1..] == tag[1..] + "%";
  }

  lemma OtherFirst(tag: string, c: char, s: string)
    requires tag != "" && tag[0] != '\\' && tag[0] != '%' && Like(tag[1..] + "%", s) && (c == tag[0] || tag[0] == '_')
    ensures Like(tag + "%", [c] + s)
  {
    assert (tag + "%")[1..] == tag[1..] + "%" && (tag + "%")[0] == tag[0];
    assert ([c] + s)[1..] == s;
  }

  /** A text that the tag's pattern accepts, no longer than the tag, and not cut short. */
  function Short(tag: string): string {
    if |Sample(tag)| < |tag| && !LoneEscape(tag) then Sample(tag) + "x" else Sample(tag)
  }

  lemma ShortMatches(tag: string)
    ensures Like(TagPattern(tag), Short(tag)) && |Short(tag)| <= |tag|
  {
    assert TagPattern(tag)[1..] == tag + "%";
    SampleDiffers(tag);
    SampleMatches(tag);
    if !LoneEscape(tag) {
      SampleThen(tag, "x");
    }
  }

  /** What matches leaves room for nothing in front of it. */
  lemma TightMatch(tag: string, s: string)
    requires Like(TagPattern(tag), s) && |s| == |Sample(tag)|
    ensures Like(tag + "%", s)
  {
    assert TagPattern(tag)[1..] == tag + "%";
    if !Like(tag + "%", s) {
      TagNeedsRoom(tag, s[1..]);
      assert false;
    }
  }

  /** Nor does it match a tag with a plain text in front that starts otherwise. */
  lemma ShortLacksFront(front: string, tag: string)
    requires Plain(front) && front != "" && (Short(tag) != "" ==> Short(tag)[0] != front[0])
    ensures !Like(TagPattern(front + tag), Short(tag))
  {
    SampleOfPlainFront(front, tag);
    assert (front + tag + "%")[0] == front[0];
    if Like(TagPattern(front + tag), Short(tag)) {
      TagNeedsRoom(front + tag, Short(tag));
      TightMatch(front + tag, Short(tag));
      assert false;
    }
  }

  lemma {:induction false} LikeAfter(front: string, tag: string, s: string)
    requires Like(TagPattern(tag), s)
    ensures Like(TagPattern(tag), front + s)
  {
    if front == "" {
      assert front + s == s;
    } else {
      LikeAfter(front[1..], tag, s);
      assert (front + s)[1..] == front[1..] + s;
    }
  }

  /** Plain text in front is matched by itself. */
  lemma {:induction false} PlainFrontLike(front: string, p: string, s: string)
    requires Plain(front) && Like(p, s)
    ensures Like(front + p, front + s)
  {
    if front == "" {
      assert front + p == p && front + s == s;
    } else {
      PlainFrontLike(front[1..], p, s);
      assert (front + p)[1..] == front[1..] + p && (front + s)[1..] == front[1..] + s;
    }
  }

  /** The text with a plain text in front matches the tag with that text in front. */
  lemma FrontedMatches(front: string, tag: string)
    requires Plain(front)
    ensures Like(TagPattern(front + tag), front + Short(tag))
  {
    assert Like(tag + "%", Short(tag)) by {
      SampleMatches(tag);
      if !LoneEscape(tag) {
        SampleThen(tag, "x");
      }
    }
    PlainFrontLike(front, tag + "%", Short(tag));
    assert front + (tag + "%") == (front + tag) + "%";
    assert TagPattern(front + tag)[1..] == (front + tag) + "%";
  }

  lemma {:induction false} SampleChars(tag: string)
    ensures forall c :: c in Sample(tag) ==> c in tag || c == 'a' || c == '%'
    decreases |tag|
  {
    if tag == "" {
    } else if tag[0] == '\\' {
      if |tag| > 1 {
        SampleChars(tag[2..]);
        assert tag[1] in tag && forall c :: c in tag[2..] ==> c in tag;
      }
    } else {
      SampleChars(tag[1..]);
      assert tag[0] in tag && forall c :: c in tag[1..] ==> c in tag;
    }
  }

  /** A `labels` clause means "the tag is a substring" on every row exactly when the tag has no
      LIKE character. Word characters include the underscore, so validated filters can fail it. */
  lemma TagMeansSubstring(tag: string)
    ensures (forall labels :: Like(TagPattern(tag), labels) <==> Contains(labels, tag)) <==> Plain(tag)
  {
    if Plain(tag) {
      forall labels ensures Like(TagPattern(tag), labels) <==> Contains(labels, tag) {
        PlainTag(tag, labels);
      }
    } else {
      var labels := Sample(tag);
      SampleMatches(tag);
      SampleDiffers(tag);
      assert TagPattern(tag)[1..] == tag + "%";
      assert Like(TagPattern(tag), labels);
      if Contains(labels, tag) {
        ContainedNoLonger(labels, tag);
        assert false;
      }
    }
  }

  /** The empty tag, which an empty filter splits into, matches every row. */
  lemma EmptyTagMatchesAll(labels: string)
    ensures Like(TagPattern(""), labels)
  {
    assert TagPattern("")[1..] == "%";
    PercentMatchesAll(labels);
  }
}
