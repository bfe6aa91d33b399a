/** Template compilation helpers of net_processing.py: the role table, the
    "is this network used" queries, the per-record normalisation of top-level
    devices and bridge members, and the network-isolation resource-registry
    lines written for one network. */
module NetProcessing {
  import opened Common
  import opened Strings
  import opened Devices

  /** One row of `TYPE_LIST`: the row of the role in the editor's role list,
      the file name of the role's nic config, and the role's template name. */
  datatype RoleType = RoleType(index: nat, filename: string, templateName: string)

  const TypeList: seq<RoleType> := [
    RoleType(0, "controller.yaml", "Controller"),
    RoleType(1, "compute.yaml", "Compute"),
    RoleType(2, "ceph-storage.yaml", "CephStorage"),
    RoleType(3, "cinder-storage.yaml", "BlockStorage"),
    RoleType(4, "swift-storage.yaml", "SwiftStorage")
  ]

  /** The dictionary from role file name to that role's top-level records. */
  type Config = map<string, seq<Device>>

  lemma TypeListFilenamesDistinct()
    ensures forall i, j :: 0 <= i < j < |TypeList| ==> TypeList[i].filename != TypeList[j].filename
  {
  }

  // ---------------------------------------------------------------------
  // Which networks are used

  /** The device, or one of its direct members, is assigned `name`. */
  ghost predicate OnNetwork(d: Device, name: string) {
    d.network == Some(name) ||
    (d.members.Some? && exists j :: 0 <= j < |d.members.value| && d.members.value[j].network == Some(name))
  }

  /** Reference meaning of `_net_used`: some top-level device of the role, or
      a direct member of one, is on `name`.  Deeper nesting is not looked at. */
  ghost predicate UsesNetwork(devices: seq<Device>, name: string) {
    exists i :: 0 <= i < |devices| && OnNetwork(devices[i], name)
  }

  /** Every key `_net_used` reads is present: `network` and `members` on the
      top-level records, `network` on their members. */
  ghost predicate WellFormedRole(devices: seq<Device>) {
    forall i :: 0 <= i < |devices| ==>
      devices[i].network.Some? && devices[i].members.Some? &&
      forall j :: 0 <= j < |devices[i].members.value| ==> devices[i].members.value[j].network.Some?
  }

  ghost predicate WellFormedConfig(data: Config) {
    forall f :: f in data ==> WellFormedRole(data[f])
  }

  /** The inner loop of `_net_used` over one device's members. */
  function ScanMembers(members: seq<Device>, name: string): (r: Result<bool>)
    ensures r.Ok? ==> (r.value <==> exists j :: 0 <= j < |members| && members[j].network == Some(name))
    ensures (forall j :: 0 <= j < |members| ==> members[j].network.Some?) ==> r.Ok?
    ensures r.Err? ==> r.error == KeyError
  {
    if members == [] then Ok(false)
    else if members[0].network.None? then Err(KeyError)
    else if members[0].network.value == name then Ok(true)
    else
      var rest := ScanMembers(members[1..], name);
      assert forall j :: 0 < j < |members| ==> members[j] == members[1..][j - 1];
      rest
  }

  /** The outer loop of `_net_used`, returning as soon as a match is found. */
  function ScanRole(devices: seq<Device>, name: string): (r: Result<bool>)
    ensures r.Ok? ==> (r.value <==> UsesNetwork(devices, name))
    ensures WellFormedRole(devices) ==> r.Ok?
    ensures r.Err? ==> r.error == KeyError
  {
    if devices == [] then Ok(false)
    else
      var d := devices[0];
      if d.network.None? then Err(KeyError)
      else if d.network.value == name then Ok(true)
      else if d.members.None? then Err(KeyError)
      else match ScanMembers(d.members.value, name)
        case Err(e) => Err(e)
        case Ok(found) =>
          if found then Ok(true)
          else
            var rest := ScanRole(devices[1..], name);
            assert forall i :: 0 < i < |devices| ==> devices[i] == devices[1..][i - 1];
            assert !OnNetwork(d, name);
            rest
  }

  /** `_net_used(data, name, filename)`; a role missing from `data` raises. */
  function NetUsed(data: Config, name: string, filename: string): (r: Result<bool>)
    ensures r.Ok? ==> filename in data && (r.value <==> UsesNetwork(data[filename], name))
    ensures filename in data && WellFormedRole(data[filename]) ==> r.Ok?
    ensures r.Err? ==> r.error == KeyError
  {
    if filename !in data then Err(KeyError) else ScanRole(data[filename], name)
  }

  /** `_net_used_all`: the list comprehension asks every role of `data`, so
      any malformed role raises; otherwise the answer is `any` of them. */
  function NetUsedAll(data: Config, name: string): (r: Result<bool>)
    ensures r.Ok? ==> (r.value <==> exists f :: f in data && UsesNetwork(data[f], name))
    ensures WellFormedConfig(data) ==> r.Ok?
    ensures r.Err? ==> r.error == KeyError
  {
    if exists f :: f in data && NetUsed(data, name, f).Err? then Err(KeyError)
    else Ok(exists f :: f in data && NetUsed(data, name, f) == Ok(true))
  }

  // ---------------------------------------------------------------------
  // The network-isolation resource registry

  /** The sink `_write_net_iso` writes to: the strings passed to `f.write`. */
  class OutputFile {
    var writes: seq<string>

    constructor ()
      ensures writes == []
    {
      writes := [];
    }

    method Write(s: string)
      modifies this
      ensures writes == old(writes) + [s]
    {
      writes := writes + [s];
    }
  }

  /** The inner `write` helper: two spaces of indentation and a newline. */
  function Line(content: string): string {
    "  " + content + "\n"
  }

  /** `basename` defaults to the lower-cased network name. */
  function BaseName(net: string, basename: Option<string>): string {
    if basename.None? then Lower(net) else basename.value
  }

  /** The three lines written once for a network used anywhere. */
  function Header(net: string, base: string): seq<string> {
    [ Line("# " + net),
      Line("OS::TripleO::Network::" + net + ": ../network/" + base + ".yaml"),
      Line("OS::TripleO::Network::Ports::" + net + "VipPort: ../network/ports/" + base + ".yaml") ]
  }

  /** The port line written for one role that uses the network. */
  function PortLine(net: string, base: string, t: RoleType): string {
    Line("OS::TripleO::" + t.templateName + "::Ports::" + net + "Port: ../network/ports/" + base + ".yaml")
  }

  /** What the loop over `types` writes, and whether it raised part way. */
  function PortWrites(net: string, data: Config, base: string, types: seq<RoleType>): Partial<seq<string>>
    decreases |types|
  {
    if types == [] then Partial([], Completed)
    else
      var before := PortWrites(net, data, base, types[..|types| - 1]);
      var t := types[|types| - 1];
      if before.outcome.Raised? then before
      else match NetUsed(data, net, t.filename)
        case Err(e) => Partial(before.state, Raised(e))
        case Ok(used) => Partial(before.state + (if used then [PortLine(net, base, t)] else []), Completed)
  }

  /** Everything `_write_net_iso(f, net, data, basename)` writes, and how it ends. */
  function NetIsoWrites(net: string, data: Config, basename: Option<string>): Partial<seq<string>> {
    var base := BaseName(net, basename);
    match NetUsedAll(data, net)
    case Err(e) => Partial([], Raised(e))
    case Ok(used) =>
      var ports := PortWrites(net, data, base, TypeList);
      Partial((if used then Header(net, base) else []) + ports.state, ports.outcome)
  }

  method WriteNetIso(f: OutputFile, net: string, data: Config, basename: Option<string>) returns (outcome: Outcome)
    modifies f
    ensures f.writes == old(f.writes) + NetIsoWrites(net, data, basename).state
    ensures outcome == NetIsoWrites(net, data, basename).outcome
  {
    var base := BaseName(net, basename);
    var usedAll := NetUsedAll(data, net);
    if usedAll.Err? {
      return Raised(usedAll.error);
    }
    if usedAll.value {
      var header := Header(net, base);
      f.Write(header[0]);
      f.Write(header[1]);
      f.Write(header[2]);
    }
    assert f.writes == old(f.writes) + if usedAll.value then Header(net, base) else [];
    outcome := WritePorts(f, net, data, base);
  }

  /** The `for` loop of `_write_net_iso` over `TYPE_LIST`. */
  method WritePorts(f: OutputFile, net: string, data: Config, base: string) returns (outcome: Outcome)
    modifies f
    ensures f.writes == old(f.writes) + PortWrites(net, data, base, TypeList).state
    ensures outcome == PortWrites(net, data, base, TypeList).outcome
  {
    var types := TypeList;
    for i := 0 to |types|
      invariant PortWrites(net, data, base, types[..i]).outcome == Completed
      invariant f.writes == old(f.writes) + PortWrites(net, data, base, types[..i]).state
    {
      var t := types[i];
      assert types[..i + 1][..i] == types[..i];
      var used := NetUsed(data, net, t.filename);
      if used.Err? {
        assert types[..i + 1] <= types;
        PortWritesRaisedStays(net, data, base, types[..i + 1], types);
        return Raised(used.error);
      }
      if used.value {
        f.Write(PortLine(net, base, t));
      }
    }
    assert types[..|types|] == types;
    return Completed;
  }

  /** Once the loop has raised, later roles change nothing. */
  lemma {:induction false} PortWritesRaisedStays(net: string, data: Config, base: string, prefix: seq<RoleType>, types: seq<RoleType>)
    requires prefix <= types
    requires PortWrites(net, data, base, prefix).outcome.Raised?
    ensures PortWrites(net, data, base, types) == PortWrites(net, data, base, prefix)
    decreases |types|
  {
    if |types| > |prefix| {
      assert prefix <= types[..|types| - 1];
      PortWritesRaisedStays(net, data, base, prefix, types[..|types| - 1]);
    } else {
      assert prefix == types;
    }
  }

  /** The roles of `types` whose records use `net`, in their original order. */
  ghost function RolesUsing(data: Config, net: string, types: seq<RoleType>): (r: seq<RoleType>)
    requires forall t :: t in types ==> t.filename in data
    ensures forall t :: t in r ==> t in types && UsesNetwork(data[t.filename], net)
    ensures forall t :: t in types && UsesNetwork(data[t.filename], net) ==> t in r
    decreases |types|
  {
    if types == [] then []
    else
      var last := types[|types| - 1];
      assert forall t :: t in types ==> t in types[..|types| - 1] || t == last;
      RolesUsing(data, net, types[..|types| - 1]) + (if UsesNetwork(data[last.filename], net) then [last] else [])
  }

  function PortLines(net: string, base: string, types: seq<RoleType>): (r: seq<string>)
    ensures |r| == |types|
    ensures forall i :: 0 <= i < |types| ==> r[i] == PortLine(net, base, types[i])
  {
    seq(|types|, i requires 0 <= i < |types| => PortLine(net, base, types[i]))
  }

  lemma PortLinesAppend(net: string, base: string, a: seq<RoleType>, b: seq<RoleType>)
    ensures PortLines(net, base, a + b) == PortLines(net, base, a) + PortLines(net, base, b)
  {
    var lhs, rhs := PortLines(net, base, a + b), PortLines(net, base, a) + PortLines(net, base, b);
    assert |lhs| == |rhs|;
    forall i | 0 <= i < |lhs| ensures lhs[i] == rhs[i] {
      if i < |a| { assert (a + b)[i] == a[i]; } else { assert (a + b)[i] == b[i - |a|]; }
    }
  }

  /** On a configuration where every key `_net_used` reads is present, the
      port loop never raises and writes one line per role that uses the
      network, in the order of `types`. */
  lemma {:induction false} PortWritesOnWellFormed(net: string, data: Config, base: string, types: seq<RoleType>)
    requires WellFormedConfig(data)
    requires forall t :: t in types ==> t.filename in data
    ensures PortWrites(net, data, base, types) == Partial(PortLines(net, base, RolesUsing(data, net, types)), Completed)
    decreases |types|
  {
    if types != [] {
      var init := types[..|types| - 1];
      var last := types[|types| - 1];
      assert forall t :: t in init ==> t in types;
      assert last in types;
      PortWritesOnWellFormed(net, data, base, init);
      var tail := if UsesNetwork(data[last.filename], net) then [last] else [];
      assert NetUsed(data, net, last.filename) == Ok(UsesNetwork(data[last.filename], net));
      assert RolesUsing(data, net, types) == RolesUsing(data, net, init) + tail;
      PortLinesAppend(net, base, RolesUsing(data, net, init), tail);
      assert PortLines(net, base, tail) == if tail == [] then [] else [PortLine(net, base, last)];
    }
  }

  /** `_write_net_iso` writes nothing at all for a network no role uses
      (whether or not it then raises). */
  lemma {:induction false} NetIsoUnusedWritesNothing(net: string, data: Config, basename: Option<string>)
    requires NetUsedAll(data, net) != Ok(true)
    ensures NetIsoWrites(net, data, basename).state == []
  {
    if NetUsedAll(data, net) == Ok(false) {
      PortWritesUnused(net, data, BaseName(net, basename), TypeList);
    }
  }

  lemma {:induction false} PortWritesUnused(net: string, data: Config, base: string, types: seq<RoleType>)
    requires NetUsedAll(data, net) == Ok(false)
    ensures PortWrites(net, data, base, types).state == []
    decreases |types|
  {
    if types != [] {
      PortWritesUnused(net, data, base, types[..|types| - 1]);
    }
  }

  /** On a well-formed configuration that has every role of `TYPE_LIST`,
      `_write_net_iso` completes and writes the three header lines exactly
      when the network is used by some role, followed by one port line per
      role of `TYPE_LIST` that uses it, in `TYPE_LIST` order; so it writes
      3 * [used anywhere] + (number of roles using it) lines. */
  lemma NetIsoWritesOnWellFormed(net: string, data: Config, basename: Option<string>)
    requires WellFormedConfig(data)
    requires forall t :: t in TypeList ==> t.filename in data
    ensures var w := NetIsoWrites(net, data, basename);
      var used := exists f :: f in data && UsesNetwork(data[f], net);
      var roles := RolesUsing(data, net, TypeList);
      var base := BaseName(net, basename);
      w.outcome == Completed &&
      w.state == (if used then Header(net, base) else []) + PortLines(net, base, roles) &&
      |w.state| == (if used then 3 else 0) + |roles| &&
      (roles != [] ==> used)
  {
    PortWritesOnWellFormed(net, data, BaseName(net, basename), TypeList);
    var roles := RolesUsing(data, net, TypeList);
    if roles != [] {
      assert roles[0] in roles;
      assert roles[0].filename in data && UsesNetwork(data[roles[0].filename], net);
    }
  }

  /** Two spaces of indentation, something, and a newline. */
  predicate IsIndentedLine(s: string) {
    |s| >= 3 && s[..2] == "  " && s[|s| - 1] == '\n'
  }

  predicate AllIndented(lines: seq<string>) {
    forall i :: 0 <= i < |lines| ==> IsIndentedLine(lines[i])
  }

  lemma LineIsIndented()
    ensures forall content :: IsIndentedLine(Line(content))
  {
    forall content ensures IsIndentedLine(Line(content)) {
      assert Line(content)[..2] == "  ";
    }
  }

  /** Every string `_write_net_iso` writes is an indented, newline-terminated line. */
  lemma NetIsoLinesAreIndented(net: string, data: Config, basename: Option<string>)
    ensures AllIndented(NetIsoWrites(net, data, basename).state)
  {
    var base := BaseName(net, basename);
    LineIsIndented();
    PortWritesAreLines(net, data, base, TypeList);
    var header := Header(net, base);
    assert IsIndentedLine(header[0]) && IsIndentedLine(header[1]) && IsIndentedLine(header[2]);
    var w := NetIsoWrites(net, data, basename).state;
    var ports := PortWrites(net, data, base, TypeList).state;
    assert w == [] || w == ports || w == header + ports;
    forall i | 0 <= i < |w| ensures IsIndentedLine(w[i]) {
      if w == header + ports && i < |header| {
        assert w[i] == header[i];
      } else if w != [] {
        assert w[i] == ports[i - (|w| - |ports|)];
      }
    }
  }

  lemma {:induction false} PortWritesAreLines(net: string, data: Config, base: string, types: seq<RoleType>)
    ensures AllIndented(PortWrites(net, data, base, types).state)
    decreases |types|
  {
    if types != [] {
      var init := types[..|types| - 1];
      PortWritesAreLines(net, data, base, init);
      var t := types[|types| - 1];
      LineIsIndented();
      assert IsIndentedLine(PortLine(net, base, t));
      var before := PortWrites(net, data, base, init).state;
      var w := PortWrites(net, data, base, types).state;
      assert w == before || w == before + [PortLine(net, base, t)];
      forall i | 0 <= i < |w| ensures IsIndentedLine(w[i]) {
        if i < |before| {
          assert w[i] == before[i];
        } else {
          assert w[i] == PortLine(net, base, t);
        }
      }
    }
  }

  // ---------------------------------------------------------------------
  // Normalisation of top-level devices

  const ControlPlaneAddress := Address(ListJoin("/", ["{get_param: ControlPlaneIp}", "{get_param: ControlPlaneSubnetCidr}"]))
  const MetadataRoute := Route("169.254.169.254/32", "{get_param: EC2MetadataIp}")
  const ControlPlaneDefaultRoute := DefaultRoute("{get_param: ControlPlaneDefaultRoute}")
  const ExternalAddress := Address(Plain("{get_param: ExternalIpSubnet}"))
  const ExternalDefaultRoute := Route("0.0.0.0/0", "{get_param: ExternalInterfaceDefaultRoute}")

  function SubnetAddress(net: string): Address {
    Address(Plain("{get_param: " + net + "IpSubnet}"))
  }

  function VlanIdParam(net: string): string {
    "{get_param: " + net + "NetworkVlanID}"
  }

  /** Only these two record types are normalised at the top level. */
  predicate IsTopLevelKind(d: Device) {
    d.deviceType == "interface" || d.deviceType == "ovs_bridge"
  }

  /** A network that gets the generic `<Net>IpSubnet` address. */
  predicate IsOrdinaryNetwork(net: string) {
    net != "ControlPlane" && net != "External" && net != "None"
  }

  /** The keys the normalisation never touches. */
  predicate SameKeptFields(a: Device, b: Device) {
    a.deviceType == b.deviceType && a.name == b.name && a.useDhcp == b.useDhcp &&
    a.dnsServers == b.dnsServers && a.vlanId == b.vlanId && a.members == b.members
  }

  /** What `_process_network_config(d, filename)` leaves in `d`, and whether it
      raised: reading a missing `network` raises before any change, and
      `del d['routes']` on an ordinary network raises after `network`,
      `primary` and `addresses` were already updated. */
  function NetworkConfigStep(d: Device, filename: string): (p: Partial<Device>)
    ensures !IsTopLevelKind(d) ==> p == Partial(d, Completed)
    ensures p.outcome.Raised? <==>
      IsTopLevelKind(d) && (d.network.None? || (IsOrdinaryNetwork(d.network.value) && d.routes.None?))
    ensures p.outcome.Raised? ==> p.outcome.error == KeyError
    ensures d.network.None? ==> p.state == d
    ensures SameKeptFields(p.state, d)
    ensures IsTopLevelKind(d) && d.network.Some? ==> p.state.network.None? && p.state.primary.None?
  {
    if !IsTopLevelKind(d) then Partial(d, Completed)
    else if d.network.None? then Partial(d, Raised(KeyError))
    else
      var network := d.network.value;
      var stripped := d.(network := None, primary := None);
      if network == "ControlPlane" then
        var routes := [MetadataRoute] + (if filename != "controller.yaml" then [ControlPlaneDefaultRoute] else []);
        Partial(stripped.(addresses := Some([ControlPlaneAddress]), routes := Some(routes)), Completed)
      else if network == "External" then
        Partial(stripped.(addresses := Some([ExternalAddress]), routes := Some([ExternalDefaultRoute])), Completed)
      else if network == "None" then
        Partial(stripped.(addresses := None, routes := None), Completed)
      else
        var addressed := stripped.(addresses := Some([SubnetAddress(network)]));
        if addressed.routes.None? then Partial(addressed, Raised(KeyError))
        else Partial(addressed.(routes := None), Completed)
  }

  /** The addresses and routes a normalised top-level device ends up with, by
      its network: ControlPlane gets the joined control-plane address, the
      metadata route and, outside controller.yaml, a default route; External
      gets its subnet and one default route for every role; None loses both
      keys; any other network gets its subnet and loses `routes`. */
  lemma NetworkConfigAddressing(d: Device, filename: string)
    requires IsTopLevelKind(d) && d.network.Some?
    ensures var p := NetworkConfigStep(d, filename); var net := d.network.value;
      (net == "ControlPlane" ==>
        p.state.addresses == Some([ControlPlaneAddress]) &&
        p.state.routes == Some(if filename == "controller.yaml" then [MetadataRoute]
                               else [MetadataRoute, ControlPlaneDefaultRoute])) &&
      (net == "External" ==>
        p.state.addresses == Some([ExternalAddress]) && p.state.routes == Some([ExternalDefaultRoute])) &&
      (net == "None" ==> p.state.addresses.None? && p.state.routes.None?) &&
      (IsOrdinaryNetwork(net) ==>
        p.state.addresses == Some([SubnetAddress(net)]) && p.state.routes.None?)
  {
    assert [MetadataRoute] + [ControlPlaneDefaultRoute] == [MetadataRoute, ControlPlaneDefaultRoute];
    assert [MetadataRoute] + [] == [MetadataRoute];
  }

  /** The role file name matters only for ControlPlane, and there only as
      "is it controller.yaml". */
  lemma NetworkConfigFilenameIrrelevant(d: Device, f1: string, f2: string)
    requires d.network != Some("ControlPlane") ||
             ((f1 == "controller.yaml") == (f2 == "controller.yaml"))
    ensures NetworkConfigStep(d, f1) == NetworkConfigStep(d, f2)
  {
  }

  /** Normalisation consumes `network`, so normalising a normalised
      interface or bridge again raises KeyError without changing it. */
  lemma NetworkConfigOnce(d: Device, f1: string, f2: string)
    requires IsTopLevelKind(d) && NetworkConfigStep(d, f1).outcome == Completed
    ensures var once := NetworkConfigStep(d, f1).state;
      NetworkConfigStep(once, f2) == Partial(once, Raised(KeyError))
  {
  }

  method ProcessNetworkConfig(d: Record, filename: string) returns (outcome: Outcome)
    modifies d
    ensures d.Value() == NetworkConfigStep(old(d.Value()), filename).state
    ensures outcome == NetworkConfigStep(old(d.Value()), filename).outcome
  {
    if d.deviceType == "interface" || d.deviceType == "ovs_bridge" {
      if d.network.None? {
        return Raised(KeyError);
      }
      var network := d.network.value;
      d.network := None;
      d.primary := None;
      if network == "ControlPlane" {
        d.addresses := Some([ControlPlaneAddress]);
        d.routes := Some([MetadataRoute]);
        if filename != "controller.yaml" {
          d.routes := Some(d.routes.value + [ControlPlaneDefaultRoute]);
        } else {
          assert [MetadataRoute] + [] == [MetadataRoute];
        }
      } else if network == "External" {
        d.addresses := Some([ExternalAddress]);
        d.routes := Some([ExternalDefaultRoute]);
      } else if network == "None" {
        d.addresses := None;
        d.routes := None;
      } else {
        d.addresses := Some([SubnetAddress(network)]);
        if d.routes.None? {
          return Raised(KeyError);
        }
        d.routes := None;
      }
    }
    return Completed;
  }

  // ---------------------------------------------------------------------
  // Normalisation of bridge members

  /** What `_process_bridge_members(nd)` leaves in `nd`: a VLAN gets its VLAN
      id parameter and a one-element subnet address and keeps `network`; any
      other record is untouched; a VLAN without `network` raises unchanged. */
  function BridgeMemberStep(d: Device): (p: Partial<Device>)
    ensures d.deviceType != "vlan" ==> p == Partial(d, Completed)
    ensures p.outcome.Raised? <==> d.deviceType == "vlan" && d.network.None?
    ensures p.outcome.Raised? ==> p == Partial(d, Raised(KeyError))
    ensures d.deviceType == "vlan" && d.network.Some? ==>
      var net := d.network.value;
      p.state == d.(vlanId := Some(VlanIdParam(net)), addresses := Some([SubnetAddress(net)]))
  {
    if d.deviceType == "vlan" then
      if d.network.None? then Partial(d, Raised(KeyError))
      else
        var net := d.network.value;
        Partial(d.(vlanId := Some(VlanIdParam(net)), addresses := Some([SubnetAddress(net)])), Completed)
    else Partial(d, Completed)
  }

  /** Processing a bridge member twice is the same as processing it once. */
  lemma BridgeMemberIdempotent(d: Device)
    ensures BridgeMemberStep(BridgeMemberStep(d).state) == BridgeMemberStep(d)
  {
  }

  method ProcessBridgeMembers(nd: Record) returns (outcome: Outcome)
    modifies nd
    ensures nd.Value() == BridgeMemberStep(old(nd.Value())).state
    ensures outcome == BridgeMemberStep(old(nd.Value())).outcome
  {
    if nd.deviceType == "vlan" {
      if nd.network.None? {
        return Raised(KeyError);
      }
      var vlanId := VlanIdParam(nd.network.value);
      nd.vlanId := Some(vlanId);
      var netmask := SubnetAddress(nd.network.value);
      nd.addresses := Some([netmask]);
    }
    return Completed;
  }
}
