/** Target selection: `DeploymentContext.get_deployment_target_hosts/1` folds two filter strings
    into a query on host groups and a query on the hosts of the groups found. */
module Targets {
  import opened Wrappers
  import opened Text
  import opened SqlLike
  import FilterGrammar

  type GroupId = nat
  type HostId = nat

  datatype Group = Group(team: nat, name: string, labels: string)
  datatype Host = Host(group: GroupId, name: string, hostname: string, labels: string)

  /** What a deployment row says about its targets; either filter may be null. */
  datatype Filters = Filters(team: nat, groups: Option<string>, hosts: Option<string>)

  /** One `where` added to a query. */
  datatype Clause = NameIs(value: string) | HostnameIs(value: string) | LabelsLike(pattern: string)

  /** `Enum.at(items, 1)` */
  function SecondItem(items: seq<string>): Option<string> {
    if |items| > 1 then Some(items[1]) else None
  }

  /** Interpolating nil into a comparison raises, so a missing value gives no clause. */
  function GroupClause(tag: string): Option<Clause> {
    var items := Split(tag, '=');
    if items[0] == "name" then
      match SecondItem(items)
      case None => None
      case Some(value) => Some(NameIs(value))
    else Some(LabelsLike(TagPattern(tag)))
  }

  function HostClause(tag: string): Option<Clause> {
    var items := Split(tag, '=');
    if items[0] == "name" then
      match SecondItem(items)
      case None => None
      case Some(value) => Some(NameIs(value))
    else if items[0] == "hostname" then
      match SecondItem(items)
      case None => None
      case Some(value) => Some(HostnameIs(value))
    else Some(LabelsLike(TagPattern(tag)))
  }

  /** `Enum.reduce/3` over the tags; None when one of the clauses raised. */
  function Reduce(tags: seq<string>, query: seq<Clause>, clause: string -> Option<Clause>): Option<seq<Clause>> {
    if tags == [] then Some(query)
    else
      match clause(tags[0])
      case None => None
      case Some(c) => Reduce(tags[1..], query + [c], clause)
  }

  function GroupQuery(f: Filters): Option<seq<Clause>> {
    Reduce(Split(OrEmpty(f.groups), ','), [], GroupClause)
  }

  function HostQuery(f: Filters): Option<seq<Clause>> {
    Reduce(Split(OrEmpty(f.hosts), ','), [], HostClause)
  }

  predicate OnGroup(c: Clause, g: Group) {
    match c
    case NameIs(value) => g.name == value
    case HostnameIs(_) => false // groups have no such column and no such clause
    case LabelsLike(pattern) => Like(pattern, g.labels)
  }

  predicate OnHost(c: Clause, h: Host) {
    match c
    case NameIs(value) => h.name == value
    case HostnameIs(value) => h.hostname == value
    case LabelsLike(pattern) => Like(pattern, h.labels)
  }

  function GroupIds(groups: map<GroupId, Group>, team: nat, query: seq<Clause>): set<GroupId> {
    set g | g in groups && groups[g].team == team && forall c :: c in query ==> OnGroup(c, groups[g])
  }

  function HostIds(hosts: map<HostId, Host>, groupIds: set<GroupId>, query: seq<Clause>): set<HostId> {
    set h | h in hosts && hosts[h].group in groupIds && forall c :: c in query ==> OnHost(c, hosts[h])
  }

  /** The whole selection on one snapshot of the tables; None when building a query raised. */
  function Select(groups: map<GroupId, Group>, hosts: map<HostId, Host>, f: Filters): Option<set<HostId>> {
    match (GroupQuery(f), HostQuery(f))
    case (Some(groupQuery), Some(hostQuery)) => Some(HostIds(hosts, GroupIds(groups, f.team, groupQuery), hostQuery))
    case _ => None
  }

  // ----- what a tag asks for, without queries or splitting -----

  predicate HasKey(tag: string, key: string) {
    tag == key || key + "=" <= tag
  }

  /** The tag reads `key=value`, possibly followed by a further `=` and more text. */
  predicate Asks(tag: string, key: string, value: string) {
    '=' !in value && (tag == key + "=" + value || key + "=" + value + "=" <= tag)
  }

  predicate GroupTagHolds(tag: string, g: Group) {
    if HasKey(tag, "name") then Asks(tag, "name", g.name) else Like(TagPattern(tag), g.labels)
  }

  predicate HostTagHolds(tag: string, h: Host) {
    if HasKey(tag, "name") then Asks(tag, "name", h.name)
    else if HasKey(tag, "hostname") then Asks(tag, "hostname", h.hostname)
    else Like(TagPattern(tag), h.labels)
  }

  predicate Wanted(groups: map<GroupId, Group>, hosts: map<HostId, Host>, f: Filters, h: HostId) {
    && h in hosts
    && hosts[h].group in groups
    && groups[hosts[h].group].team == f.team
    && (forall tag :: tag in Split(OrEmpty(f.groups), ',') ==> GroupTagHolds(tag, groups[hosts[h].group]))
    && (forall tag :: tag in Split(OrEmpty(f.hosts), ',') ==> HostTagHolds(tag, hosts[h]))
  }

  /** A tag that names a column and gives no value. */
  predicate GroupTagRaises(tag: string) { tag == "name" }

  predicate HostTagRaises(tag: string) { tag == "name" || tag == "hostname" }

  predicate Raises(f: Filters) {
    || (exists tag :: tag in Split(OrEmpty(f.groups), ',') && GroupTagRaises(tag))
    || (exists tag :: tag in Split(OrEmpty(f.hosts), ',') && HostTagRaises(tag))
  }

  // ----- proofs -----

  /** What the first two items of a split at `=` say about the text. */
  lemma FirstItems(tag: string, key: string)
    requires '=' !in key
    ensures Split(tag, '=')[0] == key <==> HasKey(tag, key)
    ensures HasKey(tag, key) ==> (|Split(tag, '=')| > 1 <==> tag != key)
    ensures forall value :: HasKey(tag, key) && tag != key
              ==> (Split(tag, '=')[1] == value <==> Asks(tag, key, value))
  {
    var items := Split(tag, '=');
    SplitThenJoin(tag, '=');
    if items[0] == key && |items| > 1 {
      assert tag == key + "=" + Join(items[1..], '=');
      assert key + "=" <= tag;
    }
    if tag == key {
      SplitPlain(key, '=');
    } else if key + "=" <= tag {
      var rest := tag[|key| + 1..];
      assert tag == key + ['='] + rest;
      SplitConcat(key, '=', rest);
      SplitPlain(key, '=');
      assert items == [key] + Split(rest, '=');
      forall value ensures items[1] == value <==> Asks(tag, key, value) {
        AskedValue(rest, value);
        AsksAfterKey(key, rest, value);
      }
    }
  }

  lemma AsksAfterKey(key: string, rest: string, value: string)
    ensures Asks(key + ['='] + rest, key, value) <==> '=' !in value && (rest == value || value + "=" <= rest)
  {
    PrefixAfterPrefix(key + "=", value + "=", rest);
    PrefixAfterPrefix(key + "=", value, rest);
    assert key + "=" + value + "=" == key + "=" + (value + "=");
  }

  lemma PrefixAfterPrefix(front: string, p: string, s: string)
    ensures front + p <= front + s <==> p <= s
    ensures front + p == front + s <==> p == s
  {
    assert (front + p)[|front|..] == p && (front + s)[|front|..] == s;
    if front + p <= front + s {
      assert p == (front + s)[..|front| + |p|][|front|..];
      assert p == s[..|p|];
    }
  }

  lemma AskedValue(rest: string, value: string)
    ensures Split(rest, '=')[0] == value <==> '=' !in value && (rest == value || value + "=" <= rest)
  {
    var items := Split(rest, '=');
    SplitThenJoin(rest, '=');
    assert items[0] in items;
    if items[0] == value {
      if |items| > 1 {
        assert rest == value + "=" + Join(items[1..], '=');
      }
    }
    if '=' !in value && value + "=" <= rest {
      var tail := rest[|value| + 1..];
      assert rest == value + ['='] + tail;
      SplitConcat(value, '=', tail);
      SplitPlain(value, '=');
    }
    if '=' !in value && rest == value {
      SplitPlain(value, '=');
    }
  }

  lemma GroupClauseMeans(tag: string, g: Group)
    ensures GroupClause(tag).None? <==> GroupTagRaises(tag)
    ensures GroupClause(tag).Some? ==> (OnGroup(GroupClause(tag).value, g) <==> GroupTagHolds(tag, g))
  {
    FirstItems(tag, "name");
  }

  lemma HostClauseMeans(tag: string, h: Host)
    ensures HostClause(tag).None? <==> HostTagRaises(tag)
    ensures HostClause(tag).Some? ==> (OnHost(HostClause(tag).value, h) <==> HostTagHolds(tag, h))
  {
    FirstItems(tag, "name");
    FirstItems(tag, "hostname");
  }

  /** The fold raises exactly when a tag does, and otherwise keeps one clause for each tag. */
  lemma {:induction false} ReduceKeepsEachTag(tags: seq<string>, query: seq<Clause>, clause: string -> Option<Clause>)
    ensures Reduce(tags, query, clause).None? <==> exists tag :: tag in tags && clause(tag).None?
    ensures Reduce(tags, query, clause).Some?
            ==> forall c :: c in Reduce(tags, query, clause).value
                            <==> c in query || exists tag :: tag in tags && clause(tag) == Some(c)
  {
    if tags == [] {
    } else {
      assert tags == [tags[0]] + tags[1..];
      if clause(tags[0]).Some? {
        ReduceKeepsEachTag(tags[1..], query + [clause(tags[0]).value], clause);
      } else {
        assert tags[0] in tags;
      }
    }
  }

  lemma GroupQueryMeans(f: Filters, g: Group)
    ensures GroupQuery(f).None? <==> exists tag :: tag in Split(OrEmpty(f.groups), ',') && GroupTagRaises(tag)
    ensures GroupQuery(f).Some?
            ==> ((forall c :: c in GroupQuery(f).value ==> OnGroup(c, g))
                 <==> forall tag :: tag in Split(OrEmpty(f.groups), ',') ==> GroupTagHolds(tag, g))
  {
    var tags := Split(OrEmpty(f.groups), ',');
    ReduceKeepsEachTag(tags, [], GroupClause);
    forall tag ensures GroupClause(tag).None? <==> GroupTagRaises(tag)
               ensures GroupClause(tag).Some? ==> (OnGroup(GroupClause(tag).value, g) <==> GroupTagHolds(tag, g))
    {
      GroupClauseMeans(tag, g);
    }
    if GroupQuery(f).Some? {
      var query := GroupQuery(f).value;
      forall tag | tag in tags ensures GroupClause(tag).Some? && GroupClause(tag).value in query {
      }
    }
  }

  lemma HostQueryMeans(f: Filters, h: Host)
    ensures HostQuery(f).None? <==> exists tag :: tag in Split(OrEmpty(f.hosts), ',') && HostTagRaises(tag)
    ensures HostQuery(f).Some?
            ==> ((forall c :: c in HostQuery(f).value ==> OnHost(c, h))
                 <==> forall tag :: tag in Split(OrEmpty(f.hosts), ',') ==> HostTagHolds(tag, h))
  {
    var tags := Split(OrEmpty(f.hosts), ',');
    ReduceKeepsEachTag(tags, [], HostClause);
    forall tag ensures HostClause(tag).None? <==> HostTagRaises(tag)
               ensures HostClause(tag).Some? ==> (OnHost(HostClause(tag).value, h) <==> HostTagHolds(tag, h))
    {
      HostClauseMeans(tag, h);
    }
    if HostQuery(f).Some? {
      var query := HostQuery(f).value;
      forall tag | tag in tags ensures HostClause(tag).Some? && HostClause(tag).value in query {
      }
    }
  }

  /** The folded queries return exactly the wanted hosts; they raise exactly on a bare column name. */
  lemma SelectsExactlyTheWanted(groups: map<GroupId, Group>, hosts: map<HostId, Host>, f: Filters)
    ensures Select(groups, hosts, f).None? <==> Raises(f)
    ensures Select(groups, hosts, f).Some?
            ==> forall h :: h in Select(groups, hosts, f).value <==> Wanted(groups, hosts, f, h)
  {
    GroupQueryMeans(f, Group(0, "", ""));
    HostQueryMeans(f, Host(0, "", "", ""));
    if Select(groups, hosts, f).Some? {
      forall h ensures h in Select(groups, hosts, f).value <==> Wanted(groups, hosts, f, h) {
        if h in hosts && hosts[h].group in groups {
          GroupQueryMeans(f, groups[hosts[h].group]);
          HostQueryMeans(f, hosts[h]);
        }
      }
    }
  }

  /** A filter the validator accepts never raises. */
  lemma AcceptedFiltersNeverRaise(f: Filters)
    requires FilterGrammar.IsLabels(OrEmpty(f.groups)) && FilterGrammar.IsLabels(OrEmpty(f.hosts))
    ensures !Raises(f)
  {
    forall tag | tag in Split(OrEmpty(f.groups), ',') ensures !GroupTagRaises(tag) {
      FilterGrammar.AcceptedPiecesHaveValues(OrEmpty(f.groups), tag);
    }
    forall tag | tag in Split(OrEmpty(f.hosts), ',') ensures !HostTagRaises(tag) {
      FilterGrammar.AcceptedPiecesHaveValues(OrEmpty(f.hosts), tag);
    }
  }

  /** Only the set of tags matters: order and repetition do not. */
  lemma OnlyTheTagsMatter(groups: map<GroupId, Group>, hosts: map<HostId, Host>, f: Filters, g: Filters)
    requires f.team == g.team
    requires forall tag :: tag in Split(OrEmpty(f.groups), ',') <==> tag in Split(OrEmpty(g.groups), ',')
    requires forall tag :: tag in Split(OrEmpty(f.hosts), ',') <==> tag in Split(OrEmpty(g.hosts), ',')
    ensures Select(groups, hosts, f) == Select(groups, hosts, g)
  {
    SelectsExactlyTheWanted(groups, hosts, f);
    SelectsExactlyTheWanted(groups, hosts, g);
    assert Raises(f) <==> Raises(g);
    if !Raises(f) {
      forall h ensures Wanted(groups, hosts, f, h) <==> Wanted(groups, hosts, g, h) {
      }
      assert Select(groups, hosts, f).value == Select(groups, hosts, g).value;
    }
  }

  /** Writing two filters one after the other, with a comma between, intersects the selections. */
  lemma CommaIntersects(groups: map<GroupId, Group>, hosts: map<HostId, Host>, team: nat,
                        g1: string, g2: string, h1: string, h2: string)
    ensures var both := Select(groups, hosts, Filters(team, Some(g1 + "," + g2), Some(h1 + "," + h2)));
            var first := Select(groups, hosts, Filters(team, Some(g1), Some(h1)));
            var second := Select(groups, hosts, Filters(team, Some(g2), Some(h2)));
            && (both.None? <==> first.None? || second.None?)
            && (both.Some? ==> both.value == first.value * second.value)
  {
    var both := Filters(team, Some(g1 + "," + g2), Some(h1 + "," + h2));
    var first, second := Filters(team, Some(g1), Some(h1)), Filters(team, Some(g2), Some(h2));
    SplitConcat(g1, ',', g2);
    SplitConcat(h1, ',', h2);
    assert g1 + [','] + g2 == g1 + "," + g2 && h1 + [','] + h2 == h1 + "," + h2;
    SelectsExactlyTheWanted(groups, hosts, both);
    SelectsExactlyTheWanted(groups, hosts, first);
    SelectsExactlyTheWanted(groups, hosts, second);
    assert Raises(both) <==> Raises(first) || Raises(second);
    forall h ensures Wanted(groups, hosts, both, h)
                     <==> Wanted(groups, hosts, first, h) && Wanted(groups, hosts, second, h) {
    }
  }

  /** A null filter asks for the same hosts as a blank one. */
  lemma NullIsBlank(groups: map<GroupId, Group>, hosts: map<HostId, Host>, team: nat, other: Option<string>)
    ensures Select(groups, hosts, Filters(team, None, other)) == Select(groups, hosts, Filters(team, Some(""), other))
    ensures Select(groups, hosts, Filters(team, other, None)) == Select(groups, hosts, Filters(team, other, Some("")))
  {
  }
}
