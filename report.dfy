/**
 * The correlation and report step of `main`: a lookup table from
 * security-group id to rules, and the instance report printed from it.
 * Printing is appending to a sequence of lines; a printed string that
 * starts with a line break contributes an empty line before its text.
 */
module InstanceReport {

  import opened Wrappers
  import opened Text
  import opened ScwCli

  /** A firewall rule object; every key may be absent. */
  datatype Rule = Rule(
    protocol: Option<string>,
    direction: Option<string>,
    action: Option<string>,
    ipRange: Option<string>,
    destPortFrom: Option<string>,
    destPortTo: Option<string>)

  /** The `security_group` object embedded in an instance; its `id` may be absent. */
  datatype GroupRef = GroupRef(id: Option<string>)

  /** An instance object from the server list. */
  datatype Instance = Instance(
    name: Option<string>,
    id: Option<string>,
    state: Option<string>,
    securityGroup: Option<GroupRef>)

  /** A security group object; `id` and `rules` are always present. */
  datatype SecurityGroup = SecurityGroup(id: string, rules: seq<Rule>)

  /** A rule as the report shows it: every field is display text. */
  datatype RuleView = RuleView(protocol: string, direction: string, action: string, ipRange: string, port: string)

  /**
   * An instance as the report shows it. `firewall` is `None` when the
   * report says that no firewall rules were found.
   */
  datatype InstanceView = InstanceView(name: string, id: string, status: string, firewall: Option<seq<RuleView>>)

  const NotAvailable := "N/A"
  const NoInstancesMessage := "No instances found or error occurred"
  const NoGroupsMessage := "No security groups found or error occurred"
  const NoRulesMessage := "No firewall rules found for this instance"
  const Title := "Instance Information:"
  const FirewallTitle := "Firewall Rules:"
  /** `"-" * 50`. */
  const SeparatorWidth: nat := 50
  const Separator := Dashes(SeparatorWidth)

  const NamePrefix := "Instance Name: "
  const IdPrefix := "Instance ID: "
  const StatusPrefix := "Status: "
  const ProtocolPrefix := "- Protocol: "
  const DirectionPrefix := "  Direction: "
  const ActionPrefix := "  Action: "
  const IpRangePrefix := "  IP Range: "
  const PortPrefix := "  Port: "

  /** The lines printed once, before the first instance block. */
  const Header: seq<string> := ["", Title, Separator]

  // ---------------------------------------------------------------------
  // The lookup table

  /** No group after position `i` carries the id of `groups[i]`. */
  predicate LastWithId(groups: seq<SecurityGroup>, i: nat)
    requires i < |groups|
  {
    forall j :: i < j < |groups| ==> groups[j].id != groups[i].id
  }

  /**
   * The dictionary comprehension `{sg["id"]: sg["rules"] for sg in groups}`:
   * one key per group id, and for a repeated id the rules of the last group
   * carrying it.
   */
  function RulesById(groups: seq<SecurityGroup>): (table: map<string, seq<Rule>>)
    ensures forall k :: k in table <==> exists i :: 0 <= i < |groups| && groups[i].id == k
    ensures forall i {:trigger LastWithId(groups, i)} :: 0 <= i < |groups| && LastWithId(groups, i) ==>
      groups[i].id in table && table[groups[i].id] == groups[i].rules
  {
    if groups == [] then map[]
    else
      var init, last := groups[..|groups| - 1], groups[|groups| - 1];
      assert forall i :: 0 <= i < |init| ==> init[i] == groups[i];
      assert forall i {:trigger LastWithId(groups, i)} :: 0 <= i < |init| && LastWithId(groups, i) ==>
        LastWithId(init, i) && groups[i].id != last.id;
      RulesById(init)[last.id := last.rules]
  }

  // ---------------------------------------------------------------------
  // Normalisation: defaults and the group lookup

  /** `instance.get("security_group", {}).get("id")`. */
  function SecurityGroupId(inst: Instance): Option<string>
  {
    match inst.securityGroup
    case None => None
    case Some(g) => g.id
  }

  /** The report says "no firewall rules" for this instance. */
  predicate Unresolved(inst: Instance, table: map<string, seq<Rule>>)
  {
    inst.securityGroup.None? || inst.securityGroup.value.id.None?
    || inst.securityGroup.value.id.value == ""
    || inst.securityGroup.value.id.value !in table
  }

  function NormalizeRule(rule: Rule): RuleView
  {
    RuleView(
      rule.protocol.GetOr(NotAvailable),
      rule.direction.GetOr(NotAvailable),
      rule.action.GetOr(NotAvailable),
      rule.ipRange.GetOr(NotAvailable),
      rule.destPortFrom.GetOr(NotAvailable) + "-" + rule.destPortTo.GetOr(NotAvailable))
  }

  function NormalizeRules(rules: seq<Rule>): (vs: seq<RuleView>)
    ensures |vs| == |rules|
  {
    seq(|rules|, k requires 0 <= k < |rules| => NormalizeRule(rules[k]))
  }

  /**
   * An instance with its display defaults applied and its security group
   * resolved: the rules are shown exactly when the embedded id is a
   * non-empty key of the table, and they are then that key's rules.
   */
  function NormalizeInstance(inst: Instance, table: map<string, seq<Rule>>): (v: InstanceView)
    ensures v.firewall.None? <==> Unresolved(inst, table)
    ensures v.firewall.Some? ==> v.firewall.value == NormalizeRules(table[inst.securityGroup.value.id.value])
  {
    var sgId := SecurityGroupId(inst);
    var firewall :=
      if sgId.Some? && sgId.value != "" && sgId.value in table
      then Some(NormalizeRules(table[sgId.value]))
      else None;
    InstanceView(inst.name.GetOr(NotAvailable), inst.id.GetOr(NotAvailable), inst.state.GetOr(NotAvailable), firewall)
  }

  function NormalizeInstances(insts: seq<Instance>, table: map<string, seq<Rule>>): (vs: seq<InstanceView>)
    ensures |vs| == |insts|
  {
    seq(|insts|, k requires 0 <= k < |insts| => NormalizeInstance(insts[k], table))
  }

  // ---------------------------------------------------------------------
  // Rendering

  function RenderRule(v: RuleView): seq<string>
  {
    [ProtocolPrefix + v.protocol, DirectionPrefix + v.direction, ActionPrefix + v.action,
     IpRangePrefix + v.ipRange, PortPrefix + v.port, ""]
  }

  function RenderRules(vs: seq<RuleView>): seq<string>
  {
    if vs == [] then [] else RenderRule(vs[0]) + RenderRules(vs[1..])
  }

  function RenderFirewall(firewall: Option<seq<RuleView>>): seq<string>
  {
    match firewall
    case None => [NoRulesMessage]
    case Some(vs) => ["", FirewallTitle] + RenderRules(vs)
  }

  function RenderInstance(v: InstanceView): seq<string>
  {
    ["", NamePrefix + v.name, IdPrefix + v.id, StatusPrefix + v.status]
    + RenderFirewall(v.firewall) + [Separator]
  }

  function RenderInstances(vs: seq<InstanceView>): seq<string>
  {
    if vs == [] then [] else RenderInstance(vs[0]) + RenderInstances(vs[1..])
  }

  /** The report printed once both lists are non-empty. */
  function Report(insts: seq<Instance>, table: map<string, seq<Rule>>): seq<string>
  {
    Header + RenderInstances(NormalizeInstances(insts, table))
  }

  /** Everything `main` prints, given what the two list commands come to. */
  function Stdout(instancesOutcome: Outcome<Instance>, groupsOutcome: Outcome<SecurityGroup>): seq<string>
  {
    var instances := Fetch(instancesOutcome);
    Diagnostics(instancesOutcome) +
    if IsFalsy(instances) then [NoInstancesMessage]
    else
      var groups := Fetch(groupsOutcome);
      Diagnostics(groupsOutcome) +
      if IsFalsy(groups) then [NoGroupsMessage]
      else Report(instances.items, RulesById(groups.items))
  }

  // ---------------------------------------------------------------------
  // The imperative report

  /**
   * `main`: fetch the instances, stop if there are none, fetch the security
   * groups, stop if there are none, build the table, then print one block
   * per instance. `commands` lists the CLI commands issued, in order.
   */
  method PrintReport(instancesOutcome: Outcome<Instance>, groupsOutcome: Outcome<SecurityGroup>)
    returns (out: seq<string>, commands: seq<seq<string>>)
    ensures out == Stdout(instancesOutcome, groupsOutcome)
    ensures commands == if IsFalsy(Fetch(instancesOutcome)) then [InstancesCommand]
                        else [InstancesCommand, SecurityGroupsCommand]
  {
    commands := [InstancesCommand];
    out := Diagnostics(instancesOutcome);
    var instances := Fetch(instancesOutcome);
    if IsFalsy(instances) {
      out := out + [NoInstancesMessage];
      return;
    }

    commands := commands + [SecurityGroupsCommand];
    out := out + Diagnostics(groupsOutcome);
    var groups := Fetch(groupsOutcome);
    if IsFalsy(groups) {
      out := out + [NoGroupsMessage];
      return;
    }

    var table := RulesById(groups.items);
    ghost var prefix := out + Header;
    out := out + ["", Title];
    out := out + [Separator];

    var insts := instances.items;
    assert NormalizeInstances(insts[..0], table) == [];
    for i := 0 to |insts|
      invariant out == prefix + RenderInstances(NormalizeInstances(insts[..i], table))
    {
      ghost var done := RenderInstances(NormalizeInstances(insts[..i], table));
      var block := PrintInstance(insts[i], table);
      out := out + block;
      AppendAssoc(prefix, done, block);
      NormalizeInstancesSnoc(insts, table, i);
      RenderInstancesAppend(NormalizeInstances(insts[..i], table), NormalizeInstance(insts[i], table));
    }
    assert insts[..|insts|] == insts;
  }

  /** The body of the `for instance in instances` loop of `main`: one instance block. */
  method PrintInstance(inst: Instance, table: map<string, seq<Rule>>) returns (out: seq<string>)
    ensures out == RenderInstance(NormalizeInstance(inst, table))
  {
    out := ["", NamePrefix + inst.name.GetOr(NotAvailable)];
    out := out + [IdPrefix + inst.id.GetOr(NotAvailable)];
    out := out + [StatusPrefix + inst.state.GetOr(NotAvailable)];

    var sgId := SecurityGroupId(inst);
    if sgId.Some? && sgId.value != "" && sgId.value in table {
      out := out + ["", FirewallTitle];
      var lines := PrintRules(table[sgId.value]);
      out := out + lines;
    } else {
      out := out + [NoRulesMessage];
    }

    out := out + [Separator];
  }

  /** The `for rule in ...` loop of `main`: the rule blocks of one security group, in order. */
  method PrintRules(rules: seq<Rule>) returns (out: seq<string>)
    ensures out == RenderRules(NormalizeRules(rules))
  {
    out := [];
    for j := 0 to |rules|
      invariant out == RenderRules(NormalizeRules(rules[..j]))
    {
      var lines := PrintRule(rules[j]);
      out := out + lines;
      NormalizeRulesSnoc(rules, j);
      RenderRulesAppend(NormalizeRules(rules[..j]), NormalizeRule(rules[j]));
    }
    assert rules[..|rules|] == rules;
  }

  /** The body of the `for rule in ...` loop of `main`: the lines of one rule. */
  method PrintRule(rule: Rule) returns (out: seq<string>)
    ensures out == RenderRule(NormalizeRule(rule))
  {
    out := [ProtocolPrefix + rule.protocol.GetOr(NotAvailable)];
    out := out + [DirectionPrefix + rule.direction.GetOr(NotAvailable)];
    out := out + [ActionPrefix + rule.action.GetOr(NotAvailable)];
    out := out + [IpRangePrefix + rule.ipRange.GetOr(NotAvailable)];
    var port := rule.destPortFrom.GetOr(NotAvailable) + "-" + rule.destPortTo.GetOr(NotAvailable);
    out := out + [PortPrefix + port];
    out := out + [""];
  }

  // ---------------------------------------------------------------------
  // Lemmas

  lemma NormalizeRulesSnoc(rules: seq<Rule>, j: nat)
    requires j < |rules|
    ensures NormalizeRules(rules[..j + 1]) == NormalizeRules(rules[..j]) + [NormalizeRule(rules[j])]
  {
  }

  lemma NormalizeInstancesSnoc(insts: seq<Instance>, table: map<string, seq<Rule>>, i: nat)
    requires i < |insts|
    ensures NormalizeInstances(insts[..i + 1], table) == NormalizeInstances(insts[..i], table) + [NormalizeInstance(insts[i], table)]
  {
  }

  lemma {:induction false} RenderRulesAppend(vs: seq<RuleView>, v: RuleView)
    ensures RenderRules(vs + [v]) == RenderRules(vs) + RenderRule(v)
  {
    if vs == [] {
      assert [v][1..] == [];
    } else {
      assert (vs + [v])[1..] == vs[1..] + [v];
      RenderRulesAppend(vs[1..], v);
    }
  }

  lemma {:induction false} RenderInstancesAppend(vs: seq<InstanceView>, v: InstanceView)
    ensures RenderInstances(vs + [v]) == RenderInstances(vs) + RenderInstance(v)
  {
    if vs == [] {
      assert [v][1..] == [];
    } else {
      assert (vs + [v])[1..] == vs[1..] + [v];
      RenderInstancesAppend(vs[1..], v);
    }
  }
}
