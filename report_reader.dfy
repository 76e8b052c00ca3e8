/**
 * Reading the instance report back: a parser for the lines printed after
 * the early exits. Parsing a rendered report gives back exactly the
 * normalised instances, so the report is unambiguous: every instance has
 * exactly one block, in input order, and every shown field and rule can
 * be recovered from it.
 */
module ReportReader {

  import opened Wrappers
  import opened Text
  import opened InstanceReport

  /** The six lines of one rule block, at the front of `lines`. */
  function ParseRule(lines: seq<string>): Option<RuleView>
  {
    if |lines| < 6 || lines[5] != "" then None
    else
      var protocol := StripPrefix(ProtocolPrefix, lines[0]);
      var direction := StripPrefix(DirectionPrefix, lines[1]);
      var action := StripPrefix(ActionPrefix, lines[2]);
      var ipRange := StripPrefix(IpRangePrefix, lines[3]);
      var port := StripPrefix(PortPrefix, lines[4]);
      if protocol.None? || direction.None? || action.None? || ipRange.None? || port.None? then None
      else Some(RuleView(protocol.value, direction.value, action.value, ipRange.value, port.value))
  }

  /** Rule blocks up to and including the closing separator; returns what follows it. */
  function ParseRules(lines: seq<string>): (r: Option<(seq<RuleView>, seq<string>)>)
    ensures r.Some? ==> |r.value.1| < |lines|
    decreases |lines|
  {
    if |lines| == 0 then None
    else if lines[0] == Separator then Some(([], lines[1..]))
    else match ParseRule(lines)
      case None => None
      case Some(v) =>
        match ParseRules(lines[6..])
        case None => None
        case Some((vs, rest)) => Some(([v] + vs, rest))
  }

  /** One instance block at the front of `lines`; returns what follows its separator. */
  function ParseInstance(lines: seq<string>): (r: Option<(InstanceView, seq<string>)>)
    ensures r.Some? ==> |r.value.1| < |lines|
  {
    if |lines| < 6 || lines[0] != "" then None
    else
      var name := StripPrefix(NamePrefix, lines[1]);
      var id := StripPrefix(IdPrefix, lines[2]);
      var status := StripPrefix(StatusPrefix, lines[3]);
      if name.None? || id.None? || status.None? then None
      else if lines[4] == NoRulesMessage && lines[5] == Separator then
        Some((InstanceView(name.value, id.value, status.value, None), lines[6..]))
      else if lines[4] == "" && lines[5] == FirewallTitle then
        match ParseRules(lines[6..])
        case None => None
        case Some((vs, rest)) => Some((InstanceView(name.value, id.value, status.value, Some(vs)), rest))
      else None
  }

  function ParseInstances(lines: seq<string>): Option<seq<InstanceView>>
    decreases |lines|
  {
    if lines == [] then Some([])
    else match ParseInstance(lines)
      case None => None
      case Some((v, rest)) =>
        match ParseInstances(rest)
        case None => None
        case Some(vs) => Some([v] + vs)
  }

  /** A whole report: the header, then the instance blocks. */
  function ParseReport(lines: seq<string>): Option<seq<InstanceView>>
  {
    if |lines| < 3 || lines[..3] != Header then None else ParseInstances(lines[3..])
  }

  // ---------------------------------------------------------------------
  // Round trip

  lemma ParseRuleOfRender(v: RuleView, rest: seq<string>)
    ensures ParseRule(RenderRule(v) + rest) == Some(v)
  {
    StripPrefixOf(ProtocolPrefix, v.protocol);
    StripPrefixOf(DirectionPrefix, v.direction);
    StripPrefixOf(ActionPrefix, v.action);
    StripPrefixOf(IpRangePrefix, v.ipRange);
    StripPrefixOf(PortPrefix, v.port);
  }

  lemma {:induction false} ParseRulesOfRender(vs: seq<RuleView>, rest: seq<string>)
    ensures ParseRules(RenderRules(vs) + [Separator] + rest) == Some((vs, rest))
  {
    var lines := RenderRules(vs) + [Separator] + rest;
    if vs == [] {
      assert lines == [Separator] + rest;
      assert lines[1..] == rest;
    } else {
      var v := vs[0];
      var tail := RenderRules(vs[1..]) + [Separator] + rest;
      assert lines == RenderRule(v) + tail;
      assert Separator[1] == '-';
      DiffersAt(ProtocolPrefix, v.protocol, Separator, 1);
      assert lines[0] != Separator;
      ParseRuleOfRender(v, tail);
      assert lines[6..] == tail;
      ParseRulesOfRender(vs[1..], rest);
      assert [v] + vs[1..] == vs;
    }
  }

  lemma ParseInstanceOfRender(v: InstanceView, rest: seq<string>)
    ensures ParseInstance(RenderInstance(v) + rest) == Some((v, rest))
  {
    var lines := RenderInstance(v) + rest;
    StripPrefixOf(NamePrefix, v.name);
    StripPrefixOf(IdPrefix, v.id);
    StripPrefixOf(StatusPrefix, v.status);
    var opening := ["", NamePrefix + v.name, IdPrefix + v.id, StatusPrefix + v.status];
    match v.firewall {
      case None =>
        assert lines == opening + [NoRulesMessage, Separator] + rest;
        assert lines[6..] == rest;
      case Some(vs) =>
        assert lines == opening + ["", FirewallTitle] + (RenderRules(vs) + [Separator] + rest);
        assert lines[4] != NoRulesMessage;
        assert lines[6..] == RenderRules(vs) + [Separator] + rest;
        ParseRulesOfRender(vs, rest);
    }
  }

  lemma {:induction false} ParseInstancesOfRender(vs: seq<InstanceView>)
    ensures ParseInstances(RenderInstances(vs)) == Some(vs)
  {
    if vs != [] {
      var lines := RenderInstances(vs);
      assert lines == RenderInstance(vs[0]) + RenderInstances(vs[1..]);
      assert lines != [];
      ParseInstanceOfRender(vs[0], RenderInstances(vs[1..]));
      ParseInstancesOfRender(vs[1..]);
      assert [vs[0]] + vs[1..] == vs;
    }
  }

  /**
   * Reading a report back gives one entry per instance, in input order,
   * with the name, id and status shown ("N/A" for an absent key), the
   * "no firewall rules" case exactly for the unresolved instances, and
   * otherwise the resolved group's rules in order.
   */
  lemma ReportRoundTrip(insts: seq<Instance>, table: map<string, seq<Rule>>)
    ensures var r := ParseReport(Report(insts, table));
      && r.Some? && |r.value| == |insts|
      && forall k :: 0 <= k < |insts| ==>
        && r.value[k].name == insts[k].name.GetOr(NotAvailable)
        && r.value[k].id == insts[k].id.GetOr(NotAvailable)
        && r.value[k].status == insts[k].state.GetOr(NotAvailable)
        && (r.value[k].firewall.None? <==> Unresolved(insts[k], table))
        && (r.value[k].firewall.Some? ==>
              r.value[k].firewall.value == NormalizeRules(table[insts[k].securityGroup.value.id.value]))
  {
    var lines := Report(insts, table);
    var body := RenderInstances(NormalizeInstances(insts, table));
    assert lines == Header + body;
    assert lines[..3] == Header;
    assert lines[3..] == body;
    ParseInstancesOfRender(NormalizeInstances(insts, table));
  }
}
