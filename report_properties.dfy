/** What the printed report promises, stated over the model of `main`. */
module ReportProperties {

  import opened Wrappers
  import opened Text
  import opened ScwCli
  import opened InstanceReport

  // ---------------------------------------------------------------------
  // Early exits

  /**
   * An empty or failed instance list prints only the fetch diagnostics and
   * the "no instances" message, whatever the security-group command would
   * have returned.
   */
  lemma NoInstancesExit(instancesOutcome: Outcome<Instance>, groupsOutcome: Outcome<SecurityGroup>)
    requires IsFalsy(Fetch(instancesOutcome))
    ensures Stdout(instancesOutcome, groupsOutcome) == Diagnostics(instancesOutcome) + [NoInstancesMessage]
  {
  }

  /** A failed command counts as "no instances", whatever it printed. */
  lemma FailedInstancesFetchExits(instancesOutcome: Outcome<Instance>, groupsOutcome: Outcome<SecurityGroup>)
    requires !instancesOutcome.Decoded?
    ensures Diagnostics(instancesOutcome) != []
    ensures Stdout(instancesOutcome, groupsOutcome)[|Stdout(instancesOutcome, groupsOutcome)| - 1] == NoInstancesMessage
    ensures Count(Stdout(instancesOutcome, groupsOutcome), Title) == 0
  {
    var out := Stdout(instancesOutcome, groupsOutcome);
    var diag := Diagnostics(instancesOutcome);
    assert out == diag + [NoInstancesMessage];
    DiagnosticsAvoid(instancesOutcome, Title);
    CountAbsent(diag, Title);
    CountConcat(diag, [NoInstancesMessage], Title);
    CountOne(NoInstancesMessage, Title);
  }

  /**
   * Instances but no security groups: the diagnostics and the "no security
   * groups" message, and no header, instance or rule line.
   */
  lemma NoGroupsExit(instancesOutcome: Outcome<Instance>, groupsOutcome: Outcome<SecurityGroup>)
    requires !IsFalsy(Fetch(instancesOutcome)) && IsFalsy(Fetch(groupsOutcome))
    ensures Stdout(instancesOutcome, groupsOutcome)
      == Diagnostics(instancesOutcome) + Diagnostics(groupsOutcome) + [NoGroupsMessage]
  {
  }

  // ---------------------------------------------------------------------
  // Correlating instances with security groups

  /**
   * An instance whose embedded group id is the non-empty id of a listed
   * group sees the rules of the last listed group with that id.
   */
  lemma InstanceSeesLastGroup(groups: seq<SecurityGroup>, inst: Instance, i: nat)
    requires i < |groups| && LastWithId(groups, i) && groups[i].id != ""
    requires inst.securityGroup == Some(GroupRef(Some(groups[i].id)))
    ensures NormalizeInstance(inst, RulesById(groups)).firewall == Some(NormalizeRules(groups[i].rules))
  {
  }

  /** An instance whose group id is not the id of any listed group gets the "no rules" case. */
  lemma DanglingGroupReference(groups: seq<SecurityGroup>, inst: Instance)
    requires inst.securityGroup.Some? && inst.securityGroup.value.id.Some?
    requires forall i :: 0 <= i < |groups| ==> groups[i].id != inst.securityGroup.value.id.value
    ensures NormalizeInstance(inst, RulesById(groups)).firewall.None?
    ensures Count(RenderInstance(NormalizeInstance(inst, RulesById(groups))), NoRulesMessage) == 1
  {
    InstanceBlock(inst, RulesById(groups));
  }

  // ---------------------------------------------------------------------
  // Distinct kinds of lines

  /** The fixed lines that the counting properties speak about. */
  predicate Marker(l: string)
  {
    l == Separator || l == Title || l == NoRulesMessage || l == FirewallTitle
  }

  /** The characters of a marker line that tell it apart from every other line. */
  lemma MarkerChars(l: string)
    requires Marker(l)
    ensures |l| > 10
    ensures l[0] == if l == Separator then '-' else if l == Title then 'I' else if l == NoRulesMessage then 'N' else 'F'
    ensures l == Separator ==> l[1] == '-'
    ensures l == Title ==> l[9] == 'I' && l[10] == 'n'
  {
  }

  lemma DiagnosticsAvoid<T>(o: Outcome<T>, l: string)
    requires Marker(l)
    ensures l !in Diagnostics(o)
  {
    MarkerChars(l);
    match o
    case NonZeroExit(error, stderr) =>
      DiffersAt("Error executing command: ", error, l, 0);
      DiffersAt("Error output: ", stderr, l, 0);
    case MalformedJson(error) =>
      DiffersAt("Error parsing JSON output: ", error, l, 0);
    case Decoded(_) =>
  }

  lemma CountOne(a: string, l: string)
    ensures Count([a], l) == if a == l then 1 else 0
  {
  }

  /** No line of a rule block is a separator, the title or a firewall message. */
  lemma {:induction false} RuleLinesAvoid(vs: seq<RuleView>, l: string)
    requires Marker(l)
    ensures l !in RenderRules(vs)
  {
    if vs != [] {
      var v := vs[0];
      MarkerChars(l);
      DiffersAt(ProtocolPrefix, v.protocol, l, if l == Separator then 1 else 0);
      DiffersAt(DirectionPrefix, v.direction, l, 0);
      DiffersAt(ActionPrefix, v.action, l, 0);
      DiffersAt(IpRangePrefix, v.ipRange, l, 0);
      DiffersAt(PortPrefix, v.port, l, 0);
      RuleLinesAvoid(vs[1..], l);
    }
  }

  /** The four lines that open every instance block. */
  function Opening(v: InstanceView): seq<string>
  {
    ["", NamePrefix + v.name, IdPrefix + v.id, StatusPrefix + v.status]
  }

  lemma OpeningAvoid(v: InstanceView, l: string)
    requires Marker(l)
    ensures l !in Opening(v)
  {
    MarkerChars(l);
    DiffersAt(NamePrefix, v.name, l, if l == Title then 9 else 0);
    DiffersAt(IdPrefix, v.id, l, if l == Title then 10 else 0);
    DiffersAt(StatusPrefix, v.status, l, 0);
  }

  // ---------------------------------------------------------------------
  // One instance block

  /**
   * The block of one instance ends with the separator and holds no other
   * separator and no header line. It carries the "no firewall rules"
   * message, once, exactly when the instance has no security group, its
   * group has no id, the id is empty or the id is not a key of the table:
   * then the block is just the three fields, the message and the separator.
   * Otherwise it carries the "Firewall Rules:" line and six lines per rule
   * of the group.
   */
  lemma InstanceBlock(inst: Instance, table: map<string, seq<Rule>>)
    ensures var b := RenderInstance(NormalizeInstance(inst, table));
      && b[|b| - 1] == Separator
      && Count(b, Separator) == 1
      && Count(b, Title) == 0
      && Count(b, NoRulesMessage) == (if Unresolved(inst, table) then 1 else 0)
      && (FirewallTitle in b <==> !Unresolved(inst, table))
      && (Unresolved(inst, table) ==> |b| == 6)
      && (!Unresolved(inst, table) ==> |b| == 7 + 6 * |table[inst.securityGroup.value.id.value]|)
  {
    var v := NormalizeInstance(inst, table);
    var b := RenderInstance(v);
    var fw := RenderFirewall(v.firewall);
    assert b == Opening(v) + fw + [Separator];
    forall l | Marker(l)
      ensures Count(b, l) == Count(fw, l) + (if l == Separator then 1 else 0)
    {
      OpeningAvoid(v, l);
      CountAbsent(Opening(v), l);
      CountConcat(Opening(v), fw, l);
      CountConcat(Opening(v) + fw, [Separator], l);
      CountOne(Separator, l);
    }
    match v.firewall
    case None =>
      assert fw == [NoRulesMessage];
      CountOne(NoRulesMessage, Separator);
      CountOne(NoRulesMessage, Title);
      CountOne(NoRulesMessage, NoRulesMessage);
      OpeningAvoid(v, FirewallTitle);
    case Some(vs) =>
      assert fw == ["", FirewallTitle] + RenderRules(vs);
      RenderRulesLength(vs);
      forall l | Marker(l) && l != FirewallTitle
        ensures Count(fw, l) == 0
      {
        RuleLinesAvoid(vs, l);
        assert l !in fw;
        CountAbsent(fw, l);
      }
      assert b[5] == FirewallTitle;
  }

  lemma {:induction false} RenderRulesLength(vs: seq<RuleView>)
    ensures |RenderRules(vs)| == 6 * |vs|
  {
    if vs != [] {
      RenderRulesLength(vs[1..]);
    }
  }

  // ---------------------------------------------------------------------
  // The whole report

  lemma {:induction false} RenderInstancesCounts(vs: seq<InstanceView>)
    ensures Count(RenderInstances(vs), Separator) == |vs|
    ensures Count(RenderInstances(vs), Title) == 0
  {
    if vs != [] {
      var v := vs[0];
      BlockCounts(v);
      RenderInstancesCounts(vs[1..]);
      CountConcat(RenderInstance(v), RenderInstances(vs[1..]), Separator);
      CountConcat(RenderInstance(v), RenderInstances(vs[1..]), Title);
    }
  }

  /** The separator and header counts of one block, for any view. */
  lemma BlockCounts(v: InstanceView)
    ensures Count(RenderInstance(v), Separator) == 1
    ensures Count(RenderInstance(v), Title) == 0
  {
    var fw := RenderFirewall(v.firewall);
    assert RenderInstance(v) == Opening(v) + fw + [Separator];
    forall l | l == Separator || l == Title
      ensures Count(RenderInstance(v), l) == (if l == Separator then 1 else 0)
    {
      OpeningAvoid(v, l);
      CountAbsent(Opening(v), l);
      match v.firewall {
        case None =>
          assert fw == [NoRulesMessage];
        case Some(vs) =>
          RuleLinesAvoid(vs, l);
          assert fw == ["", FirewallTitle] + RenderRules(vs);
      }
      assert l !in fw;
      CountAbsent(fw, l);
      CountConcat(Opening(v), fw, l);
      CountConcat(Opening(v) + fw, [Separator], l);
      CountOne(Separator, l);
    }
  }

  /**
   * The report opens with the header, which appears exactly once, and it
   * holds one separator after the header per instance.
   */
  lemma HeaderAndSeparators(insts: seq<Instance>, table: map<string, seq<Rule>>)
    ensures Report(insts, table)[..3] == Header
    ensures Count(Report(insts, table), Title) == 1
    ensures Count(Report(insts, table), Separator) == |insts| + 1
  {
    var body := RenderInstances(NormalizeInstances(insts, table));
    assert Report(insts, table) == Header + body;
    assert (Header + body)[..3] == Header;
    RenderInstancesCounts(NormalizeInstances(insts, table));
    assert Header == [""] + [Title] + [Separator];
    CountOne("", Title);
    CountOne(Title, Title);
    CountOne(Separator, Title);
    CountOne("", Separator);
    CountOne(Title, Separator);
    CountOne(Separator, Separator);
    CountConcat([""], [Title], Title);
    CountConcat([""] + [Title], [Separator], Title);
    CountConcat([""], [Title], Separator);
    CountConcat([""] + [Title], [Separator], Separator);
    CountConcat(Header, body, Title);
    CountConcat(Header, body, Separator);
  }

  // ---------------------------------------------------------------------
  // Rule lines

  /**
   * The rules of a group are printed in order, six lines each: protocol,
   * direction, action and IP range with "N/A" for an absent key, the port
   * range as its two ends joined by a dash, each end "N/A" when absent,
   * and an empty line.
   */
  lemma RuleLinesAt(rules: seq<Rule>, j: nat)
    requires j < |rules|
    ensures |RenderRules(NormalizeRules(rules))| == 6 * |rules|
    ensures RenderRules(NormalizeRules(rules))[6 * j..6 * j + 6] == [
      ProtocolPrefix + rules[j].protocol.GetOr(NotAvailable),
      DirectionPrefix + rules[j].direction.GetOr(NotAvailable),
      ActionPrefix + rules[j].action.GetOr(NotAvailable),
      IpRangePrefix + rules[j].ipRange.GetOr(NotAvailable),
      PortPrefix + rules[j].destPortFrom.GetOr(NotAvailable) + "-" + rules[j].destPortTo.GetOr(NotAvailable),
      ""]
  {
    RenderRulesAt(NormalizeRules(rules), j);
    AppendAssoc(PortPrefix, rules[j].destPortFrom.GetOr(NotAvailable) + "-", rules[j].destPortTo.GetOr(NotAvailable));
    AppendAssoc(PortPrefix, rules[j].destPortFrom.GetOr(NotAvailable), "-");
  }

  lemma {:induction false} RenderRulesAt(vs: seq<RuleView>, j: nat)
    requires j < |vs|
    ensures |RenderRules(vs)| == 6 * |vs|
    ensures RenderRules(vs)[6 * j..6 * j + 6] == RenderRule(vs[j])
  {
    RenderRulesLength(vs);
    RenderRulesLength(vs[1..]);
    var rest := RenderRules(vs[1..]);
    assert RenderRules(vs) == RenderRule(vs[0]) + rest;
    if j == 0 {
      assert (RenderRule(vs[0]) + rest)[..6] == RenderRule(vs[0]);
    } else {
      RenderRulesAt(vs[1..], j - 1);
      assert (RenderRule(vs[0]) + rest)[6 * j..6 * j + 6] == rest[6 * (j - 1)..6 * (j - 1) + 6];
    }
  }
}
