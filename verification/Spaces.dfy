/** White space before a tag: the grammar allows it after a comma, the query builder does not trim. */
module Spaces {
  import opened Wrappers
  import opened Text
  import opened SqlLike
  import opened FilterGrammar
  import opened Targets
  import opened Rows
  import opened Stored

  predicate White(ws: string) {
    AllIn(ws, Space)
  }

  lemma SpacedHasNoKey(ws: string, tag: string, key: string)
    requires White(ws) && ws != "" && key != "" && !In(key[0], Space)
    ensures !HasKey(ws + tag, key)
  {
    assert (ws + tag)[0] == ws[0] && In(ws[0], Space);
    assert (key + "=")[0] == key[0];
  }

  /** A tag after white space is compared with the labels, white space included, whatever key it
      names. */
  lemma SpacedTagIsLabel(ws: string, tag: string)
    requires White(ws) && ws != ""
    ensures HostClause(ws + tag) == Some(LabelsLike(TagPattern(ws + tag)))
    ensures GroupClause(ws + tag) == Some(LabelsLike(TagPattern(ws + tag)))
  {
    SpacedHasNoKey(ws, tag, "name");
    SpacedHasNoKey(ws, tag, "hostname");
    FirstItems(ws + tag, "name");
    FirstItems(ws + tag, "hostname");
  }

  /** So white space before a tag changes its clause always. */
  lemma SpacesKeepClauseExactly(ws: string, tag: string)
    requires White(ws)
    ensures HostClause(ws + tag) == HostClause(tag) <==> ws == ""
    ensures GroupClause(ws + tag) == GroupClause(tag) <==> ws == ""
  {
    if ws == "" {
      assert ws + tag == tag;
    } else {
      SpacedTagIsLabel(ws, tag);
      assert |TagPattern(ws + tag)| > |TagPattern(tag)|;
    }
  }

  // ----- an underscore, which the grammar accepts in any word, is a wildcard -----

  /** No tag with an underscore in its word means "contains the tag". */
  lemma UnderscoreIsWildcard(word: string, value: string)
    requires AllIn(word, Word) && '_' in word && value != "" && ',' !in value
    ensures IsLabels(Pair(word, value))
    ensures exists labels :: !(Like(TagPattern(Pair(word, value)), labels) <==> Contains(labels, Pair(word, value)))
  {
    PairIsOk(word, value);
    assert '_' in Pair(word, value) by {
      assert '_' in word + "=";
    }
    TagMeansSubstring(Pair(word, value));
  }

  /** On labels that may be stored, for one. */
  lemma UnderscoreMatchesOther()
    ensures LabelsOk(Pair("a_", "b")) && LabelsOk(Pair("aX", "b"))
    ensures Like(TagPattern(Pair("a_", "b")), Pair("aX", "b")) && !Contains(Pair("aX", "b"), Pair("a_", "b"))
  {
    var tag, labels := Pair("a_", "b"), Pair("aX", "b");
    PairIsOk("a_", "b");
    PairIsOk("aX", "b");
    assert tag == ['a', '_', '=', 'b'] && labels == ['a', 'X', '=', 'b'];
    UnderscorePattern(tag, labels);
    assert labels[1] != tag[1];
    if Contains(labels, tag) {
      ContainedNoLonger(labels, tag);
      assert false;
    }
  }

  lemma UnderscorePattern(tag: string, labels: string)
    requires tag == ['a', '_', '=', 'b'] && labels == ['a', 'X', '=', 'b']
    ensures Like(TagPattern(tag), labels)
  {
    PercentMatchesAll("");
    assert TagPattern(tag)[1..] == ['a', '_', '=', 'b', '%'];
    assert Like(['b', '%'], ['b']) by {
      assert ['b', '%'][1..] == "%" && ['b'][1..] == "";
    }
    assert Like(['=', 'b', '%'], ['=', 'b']) by {
      assert ['=', 'b', '%'][1..] == ['b', '%'] && ['=', 'b'][1..] == ['b'];
    }
    assert Like(['_', '=', 'b', '%'], ['X', '=', 'b']) by {
      assert ['_', '=', 'b', '%'][1..] == ['=', 'b', '%'] && ['X', '=', 'b'][1..] == ['=', 'b'];
    }
    assert ['a', '_', '=', 'b', '%'][1..] == ['_', '=', 'b', '%'] && labels[1..] == ['X', '=', 'b'];
  }

  // ----- what is selected, for every tag the grammar accepts -----

  ghost predicate AcceptedTag(tag: string) {
    ',' !in tag && PairForm(tag)
  }

  /** The filter that gives two tags, the second after white space. */
  function Both(first: string, ws: string, tag: string): string {
    first + [','] + (ws + tag)
  }

  lemma BothPieces(first: string, ws: string, tag: string)
    requires White(ws) && ',' !in first && ',' !in tag
    ensures Split(Both(first, ws, tag), ',') == [first, ws + tag]
  {
    SplitPlain(first, ',');
    assert ',' !in ws by {
      assert !In(',', Space);
    }
    SplitPlain(ws + tag, ',');
    SplitConcat(first, ',', ws + tag);
  }

  lemma BothIsAccepted(first: string, ws: string, tag: string)
    requires White(ws) && AcceptedTag(first) && AcceptedTag(tag)
    ensures IsLabels(Both(first, ws, tag)) && !Blank(Both(first, ws, tag))
  {
    BothPieces(first, ws, tag);
    var piece := ws + tag;
    assert piece[..|ws|] == ws && piece[|ws|..] == tag;
    var k :| EqualsAt(tag, k);
    var j :| EqualsAt(first, j);
    assert SpaceBefore(piece, |ws|);
    assert [first, piece][1..] == [piece];
    IsLabelsExactly(Both(first, ws, tag));
    assert Both(first, ws, tag)[j] == '=' && !In('=', Space);
  }

  /** The value a tag gives. */
  function Value(tag: string): string {
    OrEmpty(SecondItem(Split(tag, '=')))
  }

  // ----- the text that matches an accepted tag is accepted as labels -----

  lemma {:induction false} SampleOfPair(word: string, value: string)
    requires AllIn(word, Word)
    ensures |Sample(word + ("=" + value))| == |word| + 1 + |Sample(value)|
    ensures Sample(word + ("=" + value))[|word|] == '=' && AllIn(Sample(word + ("=" + value))[..|word|], Word)
    ensures LoneEscape(word + ("=" + value)) <==> LoneEscape(value)
  {
    var tag := word + ("=" + value);
    if word == "" {
      assert tag == "=" + value && tag[1..] == value;
    } else {
      assert word[0] in word && forall c :: c in word[1..] ==> c in word;
      SampleOfPair(word[1..], value);
      assert tag[1..] == word[1..] + ("=" + value) && tag[0] == word[0];
      assert !In('\\', Word) && !In('%', Word);
      var first := Sample(tag)[0];
      assert In(first, Word) && Sample(tag)[1..] == Sample(tag[1..]);
      assert Sample(tag)[..|word|] == [first] + Sample(tag[1..])[..|word| - 1];
    }
  }

  lemma {:induction false} EscapeLeavesText(value: string)
    requires LoneEscape(value)
    ensures Sample(value) != ""
  {
    if value[0] == '\\' || value[0] == '%' {
      if value[0] == '%' {
        EscapeLeavesText(value[1..]);
      }
    }
  }

  lemma ShortIsAccepted(tag: string)
    requires AcceptedTag(tag)
    ensures AcceptedTag(Short(tag)) && In(Short(tag)[0], Word)
  {
    var k :| EqualsAt(tag, k);
    var word, value := tag[..k], tag[k + 1..];
    assert tag == word + ("=" + value);
    SampleOfPair(word, value);
    if LoneEscape(value) {
      EscapeLeavesText(value);
    }
    SampleChars(tag);
    var short := Short(tag);
    assert short[..k] == Sample(tag)[..k] && short[k] == '=';
    assert short[0] == short[..k][0];
    assert EqualsAt(short, k);
  }

  // ----- rows on which the white space shows -----

  predicate HostKey(tag: string) {
    HasKey(tag, "name") || HasKey(tag, "hostname")
  }

  /** Some host that may be stored has what the tag asks for. */
  predicate HostCanHold(tag: string) {
    HostKey(tag) ==> NameOk(Value(tag))
  }

  predicate GroupCanHold(tag: string) {
    HasKey(tag, "name") ==> NameOk(Value(tag))
  }

  /** A label tag, or a name tag with a name that may be stored, is given twice; any other tag
      follows a label. */
  function First(tag: string, holds: bool): string {
    if holds then tag else LABEL
  }

  function Labels(tag: string, ws: string, holds: bool): string {
    if holds then Short(tag) else Both(LABEL, ws, Short(tag))
  }

  function WitnessHost(tag: string, ws: string): Host {
    var name := if HostKey(tag) && HostCanHold(tag) then Value(tag) else "host";
    Host(0, name, name, Labels(tag, ws, HostCanHold(tag)))
  }

  function WitnessGroup(tag: string, ws: string): Group {
    var name := if HasKey(tag, "name") && GroupCanHold(tag) then Value(tag) else "group";
    Group(0, name, Labels(tag, ws, GroupCanHold(tag)))
  }

  function HostFilter(tag: string, ws: string): string {
    Both(First(tag, HostCanHold(tag)), ws, tag)
  }

  function GroupFilter(tag: string, ws: string): string {
    Both(First(tag, GroupCanHold(tag)), ws, tag)
  }

  lemma LabelIsAccepted()
    ensures AcceptedTag(LABEL)
  {
    assert EqualsAt(LABEL, 1) by {
      assert LABEL[..1] == "a";
    }
    PairIsOk("a", "b");
  }

  lemma LabelsAreOk(tag: string, ws: string, holds: bool)
    requires White(ws) && AcceptedTag(tag) && |Both(First(tag, holds), ws, tag)| <= COLUMN_MAX
    ensures LabelsOk(Labels(tag, ws, holds))
  {
    ShortIsAccepted(tag);
    ShortMatches(tag);
    LabelIsAccepted();
    if holds {
      TagIsAccepted(Short(tag));
    } else {
      BothIsAccepted(LABEL, ws, Short(tag));
    }
  }

  lemma TagIsAccepted(tag: string)
    requires AcceptedTag(tag)
    ensures IsLabels(tag) && !Blank(tag)
  {
    var k :| EqualsAt(tag, k);
    SplitPlain(tag, ',');
    IsLabelsExactly(tag);
    assert tag[k] == '=' && !In('=', Space);
  }

  lemma WhiteIsPlain(ws: string)
    requires White(ws)
    ensures Plain(ws)
  {
    assert !In('%', Space) && !In('_', Space) && !In('\\', Space);
  }

  /** Labels that match the tag's pattern do not match it with white space in front. */
  lemma ShortHasNoSpace(tag: string, ws: string)
    requires White(ws) && ws != "" && AcceptedTag(tag)
    ensures !Like(TagPattern(ws + tag), Short(tag))
  {
    ShortIsAccepted(tag);
    WhiteIsPlain(ws);
    assert In(ws[0], Space) && forall c :: In(c, Space) ==> !In(c, Word);
    ShortLacksFront(ws, tag);
  }

  lemma LabelledMatches(tag: string, ws: string)
    requires White(ws)
    ensures Like(TagPattern(LABEL), Both(LABEL, ws, Short(tag)))
    ensures Like(TagPattern(ws + tag), Both(LABEL, ws, Short(tag)))
  {
    WhiteIsPlain(ws);
    FrontedMatches(ws, tag);
    LikeAfter(LABEL + [','], ws + tag, ws + Short(tag));
    assert Plain(LABEL);
    PlainTag(LABEL, Both(LABEL, ws, Short(tag)));
    assert OccursAt(Both(LABEL, ws, Short(tag)), LABEL, 0);
  }

  lemma AcceptedHasEquals(tag: string)
    requires AcceptedTag(tag)
    ensures '=' in tag
  {
  }

  lemma LabelHasNoKey()
    ensures !HasKey(LABEL, "name") && !HasKey(LABEL, "hostname")
  {
    assert LABEL[0] == 'a' && ("name" + "=")[0] == 'n' && ("hostname" + "=")[0] == 'h';
  }

  /** A host with this name holds a name tag exactly when the tag gives that name. */
  lemma KeyedHostHolds(tag: string, h: Host)
    requires AcceptedTag(tag) && HostKey(tag) && h.name == h.hostname
    ensures HostTagHolds(tag, h) <==> h.name == Value(tag)
  {
    AcceptedHasEquals(tag);
    FirstItems(tag, "name");
    FirstItems(tag, "hostname");
    HostClauseMeans(tag, h);
  }

  lemma KeyedGroupHolds(tag: string, g: Group)
    requires AcceptedTag(tag) && HasKey(tag, "name")
    ensures GroupTagHolds(tag, g) <==> g.name == Value(tag)
  {
    AcceptedHasEquals(tag);
    FirstItems(tag, "name");
    GroupClauseMeans(tag, g);
  }

  /** The first tag of the filter holds for the witness; whether the second does tells whether there
      is white space before it. */
  lemma HostTagsHold(tag: string, ws: string)
    requires White(ws) && ws != "" && AcceptedTag(tag)
    ensures HostTagHolds(First(tag, HostCanHold(tag)), WitnessHost(tag, ws))
    ensures HostTagHolds(tag, WitnessHost(tag, ws)) <==> HostCanHold(tag)
    ensures HostTagHolds(ws + tag, WitnessHost(tag, ws)) <==> !HostCanHold(tag)
  {
    SpacedHasNoKey(ws, tag, "name");
    SpacedHasNoKey(ws, tag, "hostname");
    ShortMatches(tag);
    ShortHasNoSpace(tag, ws);
    LabelledMatches(tag, ws);
    LabelHasNoKey();
    if HostKey(tag) {
      KeyedHostHolds(tag, WitnessHost(tag, ws));
      NamesAreOk();
    }
  }

  lemma GroupTagsHold(tag: string, ws: string)
    requires White(ws) && ws != "" && AcceptedTag(tag)
    ensures GroupTagHolds(First(tag, GroupCanHold(tag)), WitnessGroup(tag, ws))
    ensures GroupTagHolds(tag, WitnessGroup(tag, ws)) <==> GroupCanHold(tag)
    ensures GroupTagHolds(ws + tag, WitnessGroup(tag, ws)) <==> !GroupCanHold(tag)
  {
    SpacedHasNoKey(ws, tag, "name");
    ShortMatches(tag);
    ShortHasNoSpace(tag, ws);
    LabelledMatches(tag, ws);
    LabelHasNoKey();
    if HasKey(tag, "name") {
      KeyedGroupHolds(tag, WitnessGroup(tag, ws));
      NamesAreOk();
    }
  }

  // ----- the selections -----

  function SelectedByHosts(h: Host, filter: string): Option<set<HostId>> {
    Select(map[0 := GROUP], map[0 := h], Filters(0, Some(GROUP_TAG), Some(filter)))
  }

  function SelectedByGroups(g: Group, filter: string): Option<set<HostId>> {
    Select(map[0 := g], map[0 := HOST], Filters(0, Some(filter), Some(HOST_TAG)))
  }

  lemma SelectedOrNot(g: Group, h: Host, f: Filters)
    requires !Raises(f) && f.team == g.team && h.group == 0
    ensures var wanted := && (forall tag :: tag in Split(OrEmpty(f.groups), ',') ==> GroupTagHolds(tag, g))
                          && (forall tag :: tag in Split(OrEmpty(f.hosts), ',') ==> HostTagHolds(tag, h));
            Select(map[0 := g], map[0 := h], f) == Some(if wanted then {0} else {})
  {
    var groups: map<GroupId, Group>, hosts: map<HostId, Host> := map[0 := g], map[0 := h];
    SelectsExactlyTheWanted(groups, hosts, f);
    var chosen := Select(groups, hosts, f).value;
    assert 0 in chosen <==> Wanted(groups, hosts, f, 0);
    assert chosen == if Wanted(groups, hosts, f, 0) then {0} else {};
  }

  lemma SelectedByHostsExactly(h: Host, groupTag: string, first: string, ws: string, tag: string)
    requires White(ws) && AcceptedTag(first) && AcceptedTag(tag) && h.group == 0
    requires IsLabels(groupTag) && Split(groupTag, ',') == [groupTag] && GroupTagHolds(groupTag, GROUP)
    ensures Select(map[0 := GROUP], map[0 := h], Filters(0, Some(groupTag), Some(Both(first, ws, tag))))
            == Some(if HostTagHolds(first, h) && HostTagHolds(ws + tag, h) then {0} else {})
  {
    var f := Filters(0, Some(groupTag), Some(Both(first, ws, tag)));
    BothPieces(first, ws, tag);
    BothIsAccepted(first, ws, tag);
    AcceptedFiltersNeverRaise(f);
    SelectedOrNot(GROUP, h, f);
    assert first in [first, ws + tag] && ws + tag in [first, ws + tag];
  }

  lemma SelectedByGroupsExactly(g: Group, hostTag: string, first: string, ws: string, tag: string)
    requires White(ws) && AcceptedTag(first) && AcceptedTag(tag) && g.team == 0
    requires IsLabels(hostTag) && Split(hostTag, ',') == [hostTag] && HostTagHolds(hostTag, HOST)
    ensures Select(map[0 := g], map[0 := HOST], Filters(0, Some(Both(first, ws, tag)), Some(hostTag)))
            == Some(if GroupTagHolds(first, g) && GroupTagHolds(ws + tag, g) then {0} else {})
  {
    var f := Filters(0, Some(Both(first, ws, tag)), Some(hostTag));
    BothPieces(first, ws, tag);
    BothIsAccepted(first, ws, tag);
    AcceptedFiltersNeverRaise(f);
    SelectedOrNot(g, HOST, f);
    assert first in [first, ws + tag] && ws + tag in [first, ws + tag];
  }

  lemma NameFilterHolds(name: string, g: Group, h: Host)
    requires 0 < |name| <= NAME_MAX && ',' !in name && '=' !in name
    ensures LabelsOk(Pair("name", name)) && Split(Pair("name", name), ',') == [Pair("name", name)]
    ensures g.name == name ==> GroupTagHolds(Pair("name", name), g)
    ensures h.name == name ==> HostTagHolds(Pair("name", name), h)
  {
    NamePairIsOk(name);
    NameTagHolds(name);
  }

  lemma OtherFilterHolds()
    ensures LabelsOk(GROUP_TAG) && Split(GROUP_TAG, ',') == [GROUP_TAG] && GroupTagHolds(GROUP_TAG, GROUP)
    ensures LabelsOk(HOST_TAG) && Split(HOST_TAG, ',') == [HOST_TAG] && HostTagHolds(HOST_TAG, HOST)
  {
    NameFilterHolds("group", GROUP, HOST);
    NameFilterHolds("host", GROUP, HOST);
  }

  lemma HostSelectionChanges(tag: string, ws: string)
    requires White(ws) && ws != "" && AcceptedTag(tag)
    ensures SelectedByHosts(WitnessHost(tag, ws), HostFilter(tag, ws))
         != SelectedByHosts(WitnessHost(tag, ws), HostFilter(tag, ""))
  {
    var h, first := WitnessHost(tag, ws), First(tag, HostCanHold(tag));
    OtherFilterHolds();
    LabelIsAccepted();
    HostTagsHold(tag, ws);
    SelectedByHostsExactly(h, GROUP_TAG, first, ws, tag);
    SelectedByHostsExactly(h, GROUP_TAG, first, "", tag);
    assert "" + tag == tag && 0 in {0 as HostId};
  }

  lemma GroupSelectionChanges(tag: string, ws: string)
    requires White(ws) && ws != "" && AcceptedTag(tag)
    ensures SelectedByGroups(WitnessGroup(tag, ws), GroupFilter(tag, ws))
         != SelectedByGroups(WitnessGroup(tag, ws), GroupFilter(tag, ""))
  {
    var g, first := WitnessGroup(tag, ws), First(tag, GroupCanHold(tag));
    OtherFilterHolds();
    LabelIsAccepted();
    GroupTagsHold(tag, ws);
    SelectedByGroupsExactly(g, HOST_TAG, first, ws, tag);
    SelectedByGroupsExactly(g, HOST_TAG, first, "", tag);
    assert "" + tag == tag && 0 in {0 as HostId};
  }

  /** The rows and the filters, with the white space and without it, may be stored unless the filter
      is longer than its column. */
  lemma HostRowsAreOk(tag: string, ws: string)
    requires White(ws) && AcceptedTag(tag) && |HostFilter(tag, ws)| <= COLUMN_MAX
    ensures GroupOk(GROUP) && HostOk(WitnessHost(tag, ws))
    ensures FiltersOk(Filters(0, Some(GROUP_TAG), Some(HostFilter(tag, ws))))
    ensures FiltersOk(Filters(0, Some(GROUP_TAG), Some(HostFilter(tag, ""))))
  {
    TheyAreOk();
    OtherFilterHolds();
    LabelIsAccepted();
    LabelsAreOk(tag, ws, HostCanHold(tag));
    BothIsAccepted(First(tag, HostCanHold(tag)), ws, tag);
    BothIsAccepted(First(tag, HostCanHold(tag)), "", tag);
    NamesAreOk();
  }

  lemma GroupRowsAreOk(tag: string, ws: string)
    requires White(ws) && AcceptedTag(tag) && |GroupFilter(tag, ws)| <= COLUMN_MAX
    ensures HostOk(HOST) && GroupOk(WitnessGroup(tag, ws))
    ensures FiltersOk(Filters(0, Some(GroupFilter(tag, ws)), Some(HOST_TAG)))
    ensures FiltersOk(Filters(0, Some(GroupFilter(tag, "")), Some(HOST_TAG)))
  {
    TheyAreOk();
    OtherFilterHolds();
    LabelIsAccepted();
    LabelsAreOk(tag, ws, GroupCanHold(tag));
    BothIsAccepted(First(tag, GroupCanHold(tag)), ws, tag);
    BothIsAccepted(First(tag, GroupCanHold(tag)), "", tag);
    NamesAreOk();
  }

  /** For every tag the grammar accepts and every white space there are rows and a filter, which may
      be stored unless longer than a column, on which the selection is the same with and without the
      white space exactly when there is none; for the hosts filter and for the groups filter. */
  lemma SpacesChangeSelectionExactly(tag: string, ws: string)
    requires White(ws) && AcceptedTag(tag)
    ensures |HostFilter(tag, ws)| <= COLUMN_MAX ==>
              && GroupOk(GROUP) && HostOk(WitnessHost(tag, ws))
              && FiltersOk(Filters(0, Some(GROUP_TAG), Some(HostFilter(tag, ws))))
              && FiltersOk(Filters(0, Some(GROUP_TAG), Some(HostFilter(tag, ""))))
    ensures |GroupFilter(tag, ws)| <= COLUMN_MAX ==>
              && HostOk(HOST) && GroupOk(WitnessGroup(tag, ws))
              && FiltersOk(Filters(0, Some(GroupFilter(tag, ws)), Some(HOST_TAG)))
              && FiltersOk(Filters(0, Some(GroupFilter(tag, "")), Some(HOST_TAG)))
    ensures (SelectedByHosts(WitnessHost(tag, ws), HostFilter(tag, ws))
             == SelectedByHosts(WitnessHost(tag, ws), HostFilter(tag, ""))) <==> ws == ""
    ensures (SelectedByGroups(WitnessGroup(tag, ws), GroupFilter(tag, ws))
             == SelectedByGroups(WitnessGroup(tag, ws), GroupFilter(tag, ""))) <==> ws == ""
  {
    if |HostFilter(tag, ws)| <= COLUMN_MAX {
      HostRowsAreOk(tag, ws);
    }
    if |GroupFilter(tag, ws)| <= COLUMN_MAX {
      GroupRowsAreOk(tag, ws);
    }
    if ws != "" {
      HostSelectionChanges(tag, ws);
      GroupSelectionChanges(tag, ws);
    }
  }
}
