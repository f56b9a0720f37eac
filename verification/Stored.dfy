/** Rows that requests and changesets let into the tables, and runs in which users store only such
    rows. */
module Stored {
  import opened Wrappers
  import opened Text
  import opened FilterGrammar
  import opened Targets
  import opened Rows
  import opened Machine

  /** A required column holds more than white space. */
  predicate Blank(text: string) {
    AllIn(text, Space)
  }

  const NAME_MIN := 2
  const NAME_MAX := 60
  const COLUMN_MAX := 255

  predicate NameOk(name: string) {
    NAME_MIN <= |name| <= NAME_MAX && !Blank(name)
  }

  ghost predicate LabelsOk(labels: string) {
    |labels| <= COLUMN_MAX && !Blank(labels) && IsLabels(labels)
  }

  ghost predicate FiltersOk(f: Filters) {
    f.groups.Some? && LabelsOk(f.groups.value) && f.hosts.Some? && LabelsOk(f.hosts.value)
  }

  ghost predicate DeploymentOk(row: Deployment) {
    && FiltersOk(row.filters)
    && row.rollout in {"one_by_one", "all_at_once", "percent", "count"}
    && row.schedule in {"once", "recursive"}
  }

  ghost predicate GroupOk(row: Group) {
    NameOk(row.name) && LabelsOk(row.labels)
  }

  ghost predicate HostOk(row: Host) {
    NameOk(row.name) && NameOk(row.hostname) && LabelsOk(row.labels)
  }

  // ----- runs -----

  ghost predicate StoresOk(l: Step) {
    match l
    case DeploymentCreated(row) => DeploymentOk(row)
    case DeploymentEdited(_, row) => DeploymentOk(row)
    case HostCreated(row) => HostOk(row)
    case HostEdited(_, row) => HostOk(row)
    case GroupsChanged(groups) => forall g :: g in groups ==> GroupOk(groups[g])
    case _ => true
  }

  ghost predicate OkRun(s: State, steps: seq<Step>, z: State) {
    Run(s, steps, z) && forall l :: l in steps ==> StoresOk(l)
  }

  /** `Leads` and `Reachable` by such a run. */
  ghost predicate OkLeads(s: State, z: State) {
    exists steps :: OkRun(s, steps, z)
  }

  ghost predicate OkReachable(z: State) {
    exists s :: Init(s) && OkLeads(s, z)
  }

  lemma OkLeadsOn(s: State, m: State, z: State)
    requires OkLeads(s, m) && OkLeads(m, z)
    ensures OkLeads(s, z)
  {
    var first :| OkRun(s, first, m);
    var second :| OkRun(m, second, z);
    RunConcat(s, first, m, second, z);
    assert OkRun(s, first + second, z);
  }

  lemma OkStep(s: State, l: Step, z: State)
    requires Enabled(s, l) && Apply(s, l) == z && StoresOk(l)
    ensures OkLeads(s, z)
  {
    assert [l][1..] == [];
    assert OkRun(s, [l], z);
  }

  lemma OkReachableOn(m: State, z: State)
    requires OkReachable(m) && OkLeads(m, z)
    ensures OkReachable(z)
  {
    var s :| Init(s) && OkLeads(s, m);
    OkLeadsOn(s, m, z);
  }

  lemma OkReachableIsReachable(z: State)
    requires OkReachable(z)
    ensures Reachable(z)
  {
    var s :| Init(s) && OkLeads(s, z);
    var steps :| OkRun(s, steps, z);
    assert Leads(s, z);
  }

  // ----- rows that are in order -----

  function Pair(word: string, value: string): string {
    word + "=" + value
  }

  const GROUP_TAG := Pair("name", "group")
  const HOST_TAG := Pair("name", "host")
  const LABEL := Pair("a", "b")

  const FILTERS := Filters(0, Some(GROUP_TAG), Some(HOST_TAG))
  const DEPLOYMENT := Deployment(FILTERS, "one_by_one", "once", 0, Unknown)
  const GROUP := Group(0, "group", LABEL)
  const HOST := Host(0, "host", "host", LABEL)

  lemma PairIsOk(word: string, value: string)
    requires word != "" && AllIn(word, Word) && value != "" && ',' !in value
    ensures IsLabels(Pair(word, value)) && !Blank(Pair(word, value))
    ensures Split(Pair(word, value), ',') == [Pair(word, value)]
  {
    var pair := Pair(word, value);
    assert pair[|word|] == '=' && pair[..|word|] == word;
    assert EqualsAt(pair, |word|);
    assert ',' !in word by {
      assert !In(',', Word);
    }
    SplitPlain(pair, ',');
    IsLabelsExactly(pair);
    assert '=' in pair && !In('=', Space);
  }

  lemma NamePairIsOk(value: string)
    requires 0 < |value| <= 60 && ',' !in value
    ensures LabelsOk(Pair("name", value)) && Split(Pair("name", value), ',') == [Pair("name", value)]
  {
    PairIsOk("name", value);
  }

  lemma LabelIsOk()
    ensures LabelsOk(LABEL) && Split(LABEL, ',') == [LABEL]
  {
    PairIsOk("a", "b");
  }

  lemma NamesAreOk()
    ensures NameOk("group") && NameOk("host")
  {
    assert "group"[0] == 'g' && !In('g', Space);
    assert "host"[0] == 'h' && !In('h', Space);
  }

  lemma TheyAreOk()
    ensures DeploymentOk(DEPLOYMENT) && GroupOk(GROUP) && HostOk(HOST)
    ensures 2 <= |GROUP.name| <= 60 && 2 <= |HOST.name| <= 60 && 2 <= |HOST.hostname| <= 60
    ensures IsLabels(GROUP_TAG) && IsLabels(HOST_TAG) && IsLabels(LABEL)
    ensures GROUP_TAG != "" && HOST_TAG != "" && LABEL != ""
  {
    NamePairIsOk("group");
    NamePairIsOk("host");
    LabelIsOk();
    NamesAreOk();
  }

  lemma NameTagHolds(value: string)
    requires '=' !in value
    ensures forall g: Group :: g.name == value ==> GroupTagHolds(Pair("name", value), g)
    ensures forall h: Host :: h.name == value ==> HostTagHolds(Pair("name", value), h)
  {
    assert "name" + "=" <= Pair("name", value);
  }

  lemma SingleTagsWant(groupTag: string, hostTag: string, g: Group, h: Host)
    requires LabelsOk(groupTag) && Split(groupTag, ',') == [groupTag] && GroupTagHolds(groupTag, g)
    requires LabelsOk(hostTag) && Split(hostTag, ',') == [hostTag] && HostTagHolds(hostTag, h) && h.group == 0
    ensures var f := Filters(g.team, Some(groupTag), Some(hostTag));
            !Raises(f) && Wanted(map[0 := g], map[0 := h], f, 0)
  {
    AcceptedFiltersNeverRaise(Filters(g.team, Some(groupTag), Some(hostTag)));
  }

  lemma NamedAreWanted(group: string, host: string, labels: string)
    requires 0 < |group| <= NAME_MAX && ',' !in group && '=' !in group
    requires 0 < |host| <= NAME_MAX && ',' !in host && '=' !in host
    ensures var f := Filters(0, Some(Pair("name", group)), Some(Pair("name", host)));
            !Raises(f) && Wanted(map[0 := Group(0, group, labels)], map[0 := Host(0, host, host, labels)], f, 0)
  {
    NamePairIsOk(group);
    NamePairIsOk(host);
    NameTagHolds(group);
    NameTagHolds(host);
    SingleTagsWant(Pair("name", group), Pair("name", host), Group(0, group, labels), Host(0, host, host, labels));
  }

  /** The filters ask for the group and for the host. */
  lemma TheyAreWanted()
    ensures !Raises(FILTERS)
    ensures Wanted(map[0 := GROUP], map[0 := HOST], FILTERS, 0)
  {
    NamedAreWanted("group", "host", LABEL);
  }
}
