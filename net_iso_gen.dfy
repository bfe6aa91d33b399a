/** The data logic of the editor window (`MainForm` in net-iso-gen.py): the
    per-role lists of top-level records, each with its own nested list, the
    allocation of `nic<N>` names, the add/delete/rename operations gated by
    which list was selected last, and the conversion of the lists into the
    dictionary the template code consumes. */
module NetIsoGen {
  import opened Common
  import opened Strings
  import opened Devices
  import opened NetProcessing

  /** A row of a role's list: its record and the rows of its nested list. */
  datatype Entry = Entry(data: Device, nested: seq<Device>)

  /** Which list had the focus last (`_last_selected`): none yet, the role
      list, the top-level list of the current role, or the nested list of the
      current top-level row. */
  datatype Level = NoFocus | RoleList | TopLevel | NestedLevel

  const AddInterfaceError := "Can only add interfaces to top-level nodes and bridges."
  const AddBridgeError := "Can only add bridges to top-level nodes"
  const AddVlanError := "Can only add VLANs to top-level nodes and bridges"
  const DeleteRoleError := "Cannot delete top-level node type"
  const NetworkChangeError := "Cannot change network type of nodes"
  const NameChangeError := "Cannot change name of node types"

  // ---------------------------------------------------------------------
  // New records

  /** `_new_nic_item(nic_name)`: an interface on ControlPlane marked primary. */
  function NewNicItem(name: string): (d: Device)
    ensures d.deviceType == "interface" && d.name == name
    ensures d.network == Some("ControlPlane") && d.primary == Some(true) && d.useDhcp == Some(false)
    ensures d.addresses == Some([]) && d.routes == Some([])
    ensures forall filename :: NetworkConfigStep(d, filename).outcome == Completed
  {
    Device("interface", name, Some(false), None, Some("ControlPlane"), Some(true), None, Some([]), Some([]), None)
  }

  /** The record `_add_bridge` creates. */
  const NewBridge := Device("ovs_bridge", "br-ex", Some(false), Some("{get_param: DnsServers}"), Some("None"),
                            None, None, Some([]), Some([]), Some([]))

  /** The record `_add_vlan` creates. */
  const NewVlan := Device("vlan", "VLAN", None, None, Some("External"), None, Some(""), Some([]), Some([]), None)

  // ---------------------------------------------------------------------
  // Allocation of nic names

  function NicName(n: nat): string {
    "nic" + NatToString(n)
  }

  /** An interface whose name the scan tries to read a number from. */
  predicate IsNicCandidate(d: Device) {
    d.deviceType == "interface" && StartsWith(d.name, "nic")
  }

  function NicSuffix(d: Device): Option<int>
    requires IsNicCandidate(d)
  {
    ParseInt(d.name[3..])
  }

  /** `int(d['name'][3:])` raises ValueError on this record. */
  ghost predicate BadNicName(d: Device) {
    IsNicCandidate(d) && NicSuffix(d).None?
  }

  /** The record's number, if it has one, is below `n`. */
  ghost predicate SuffixBelow(d: Device, n: int) {
    IsNicCandidate(d) ==> NicSuffix(d).Some? && NicSuffix(d).value < n
  }

  ghost predicate HasSuffix(d: Device, k: int) {
    IsNicCandidate(d) && NicSuffix(d) == Some(k)
  }

  /** `calculate_from_data(d, next_nic_num)`: raise the candidate number past
      the record's own number. */
  function NicNumberAfter(d: Device, next: int): (r: Result<int>)
    ensures r.Err? <==> BadNicName(d)
    ensures r.Err? ==> r.error == ValueError
    ensures r.Ok? ==> r.value >= next && SuffixBelow(d, r.value)
    ensures r.Ok? ==> r.value == next || HasSuffix(d, r.value - 1)
  {
    if d.deviceType == "interface" && StartsWith(d.name, "nic") then
      match ParseInt(d.name[3..])
      case None => Err(ValueError)
      case Some(k) => Ok(Max(next, k + 1))
    else Ok(next)
  }

  /** The records the scan of `_next_nic_name` visits for one top-level row:
      an interface itself, or the nested rows of a bridge. */
  function Scanned(e: Entry): seq<Device> {
    if e.data.deviceType == "interface" then [e.data]
    else if e.data.deviceType == "ovs_bridge" then e.nested
    else []
  }

  function ScannedRecords(entries: seq<Entry>): seq<Device>
    decreases |entries|
  {
    if entries == [] then []
    else ScannedRecords(entries[..|entries| - 1]) + Scanned(entries[|entries| - 1])
  }

  /** The number the scan of `_next_nic_name` ends with, starting from 1
      and taking each visited record in turn. */
  function NextNicNumber(ds: seq<Device>): (r: Result<int>)
    ensures r.Ok? ==> r.value >= 1
    decreases |ds|
  {
    if ds == [] then Ok(1)
    else match NextNicNumber(ds[..|ds| - 1])
      case Err(e) => Err(e)
      case Ok(n) => NicNumberAfter(ds[|ds| - 1], n)
  }

  lemma NextNicNumberStep(ds: seq<Device>, d: Device)
    ensures NextNicNumber(ds + [d]) ==
      match NextNicNumber(ds)
      case Err(e) => Err(e)
      case Ok(n) => NicNumberAfter(d, n)
  {
    assert (ds + [d])[..|ds|] == ds;
  }

  ghost predicate SomeBadNicName(ds: seq<Device>) {
    exists i :: 0 <= i < |ds| && BadNicName(ds[i])
  }

  ghost predicate AllSuffixesBelow(ds: seq<Device>, n: int) {
    forall i :: 0 <= i < |ds| ==> SuffixBelow(ds[i], n)
  }

  ghost predicate SomeSuffixIs(ds: seq<Device>, k: int) {
    exists i :: 0 <= i < |ds| && HasSuffix(ds[i], k)
  }

  /** The scan raises, with ValueError, exactly when a visited `nic`
      interface has a suffix that is not a number. */
  lemma {:induction false} NextNicNumberRaises(ds: seq<Device>)
    ensures NextNicNumber(ds).Err? <==> SomeBadNicName(ds)
    ensures NextNicNumber(ds).Err? ==> NextNicNumber(ds).error == ValueError
    decreases |ds|
  {
    if ds != [] {
      var init, last := ds[..|ds| - 1], ds[|ds| - 1];
      NextNicNumberRaises(init);
      if SomeBadNicName(init) {
        var i :| 0 <= i < |init| && BadNicName(init[i]);
        assert BadNicName(ds[i]);
      } else if BadNicName(last) {
        assert BadNicName(ds[|ds| - 1]);
      } else {
        forall i | 0 <= i < |ds| ensures !BadNicName(ds[i]) {
          if i < |init| { assert ds[i] == init[i]; }
        }
      }
    }
  }

  /** When the scan completes, every visited `nic` number is below the
      result. */
  lemma {:induction false} NextNicNumberAbove(ds: seq<Device>)
    ensures NextNicNumber(ds).Ok? ==> AllSuffixesBelow(ds, NextNicNumber(ds).value)
    decreases |ds|
  {
    if ds != [] && NextNicNumber(ds).Ok? {
      var init, last := ds[..|ds| - 1], ds[|ds| - 1];
      NextNicNumberAbove(init);
      var n := NextNicNumber(init).value;
      var m := NextNicNumber(ds).value;
      assert NicNumberAfter(last, n) == Ok(m);
      forall i | 0 <= i < |ds| ensures SuffixBelow(ds[i], m) {
        if i < |init| {
          assert ds[i] == init[i];
          assert SuffixBelow(init[i], n);
        }
      }
    }
  }

  /** When the scan ends above 1, some visited `nic` interface carries the
      number just below the result: the result is the largest number plus
      one, not merely an upper bound. */
  lemma {:induction false} NextNicNumberTight(ds: seq<Device>)
    ensures NextNicNumber(ds).Ok? && NextNicNumber(ds).value > 1 ==> SomeSuffixIs(ds, NextNicNumber(ds).value - 1)
    decreases |ds|
  {
    if ds != [] && NextNicNumber(ds).Ok? && NextNicNumber(ds).value > 1 {
      var init, last := ds[..|ds| - 1], ds[|ds| - 1];
      NextNicNumberTight(init);
      var n := NextNicNumber(init).value;
      var m := NextNicNumber(ds).value;
      assert NicNumberAfter(last, n) == Ok(m);
      if HasSuffix(last, m - 1) {
        assert HasSuffix(ds[|ds| - 1], m - 1);
      } else {
        var i :| 0 <= i < |init| && HasSuffix(init[i], n - 1);
        assert ds[i] == init[i];
      }
    }
  }

  /** The name `_next_nic_name` returns for a role with these rows. */
  function NextNicNameOf(entries: seq<Entry>): Result<string> {
    match NextNicNumber(ScannedRecords(entries))
    case Err(e) => Err(e)
    case Ok(n) => Ok(NicName(n))
  }

  /** The allocated name is not the name of any interface the scan looked at. */
  lemma NextNicNameIsFresh(entries: seq<Entry>)
    requires NextNicNameOf(entries).Ok?
    ensures forall d :: d in ScannedRecords(entries) && d.deviceType == "interface" ==>
      d.name != NextNicNameOf(entries).value
  {
    var ds := ScannedRecords(entries);
    var n := NextNicNumber(ds).value;
    NextNicNumberAbove(ds);
    ParseIntOfNatToString(n);
    assert StartsWith(NicName(n), "nic") && NicName(n)[3..] == NatToString(n);
    forall d | d in ds && d.deviceType == "interface"
      ensures d.name != NicName(n)
    {
      var i :| 0 <= i < |ds| && ds[i] == d;
      assert SuffixBelow(d, n);
      if StartsWith(d.name, "nic") {
        assert d.name[3..] != NatToString(n);
      }
    }
  }

  /** Adding the allocated interface as a new top-level row makes the next
      allocation one higher, so repeated additions get distinct names. */
  lemma NextNicNumberAfterAdding(entries: seq<Entry>, n: nat)
    requires NextNicNumber(ScannedRecords(entries)) == Ok(n)
    ensures NextNicNumber(ScannedRecords(entries + [Entry(NewNicItem(NicName(n)), [])])) == Ok(n + 1)
  {
    var d := NewNicItem(NicName(n));
    var added := entries + [Entry(d, [])];
    assert added[..|added| - 1] == entries;
    assert ScannedRecords(added) == ScannedRecords(entries) + [d];
    NextNicNumberStep(ScannedRecords(entries), d);
    NicNumberAfterOwnName(d, n);
  }

  /** An interface named `nic<n>` moves the candidate `n` on to `n + 1`. */
  lemma NicNumberAfterOwnName(d: Device, n: nat)
    requires d.deviceType == "interface" && d.name == NicName(n)
    ensures NicNumberAfter(d, n) == Ok(n + 1)
  {
    assert StartsWith(d.name, "nic") && d.name[3..] == NatToString(n);
    ParseIntOfNatToString(n);
  }

  lemma {:induction false} ScannedRecordsPrefix(entries: seq<Entry>, k: nat)
    requires k <= |entries|
    ensures ScannedRecords(entries[..k]) <= ScannedRecords(entries)
    decreases |entries|
  {
    if k < |entries| {
      var init := entries[..|entries| - 1];
      assert init[..k] == entries[..k];
      ScannedRecordsPrefix(init, k);
    } else {
      assert entries[..k] == entries;
    }
  }

  lemma ScannedRecordsStep(entries: seq<Entry>, i: nat)
    requires i < |entries|
    ensures ScannedRecords(entries[..i + 1]) == ScannedRecords(entries[..i]) + Scanned(entries[i])
  {
    assert entries[..i + 1][..i] == entries[..i];
  }

  lemma NextNicNumberRaisedStays(prefix: seq<Device>, ds: seq<Device>)
    requires prefix <= ds
    requires NextNicNumber(prefix).Err?
    ensures NextNicNumber(ds) == NextNicNumber(prefix)
  {
    NextNicNumberRaises(prefix);
    NextNicNumberRaises(ds);
    var i :| 0 <= i < |prefix| && BadNicName(prefix[i]);
    assert ds[i] == prefix[i];
  }

  /** One more record of a row, seen from the scan's side. */
  lemma ScanExtends(before: seq<Device>, ds: seq<Device>, j: nat)
    requires j < |ds|
    ensures before + ds[..j + 1] == (before + ds[..j]) + [ds[j]]
    ensures before + ds[..j + 1] <= before + ds
  {
    assert ds[..j + 1] == ds[..j] + [ds[j]];
  }

  /** The inner step of `_next_nic_name`: carry the candidate number over
      the records of one row, in order. */
  method ScanRecords(ghost before: seq<Device>, ds: seq<Device>, next: int) returns (r: Result<int>)
    requires NextNicNumber(before) == Ok(next)
    ensures r == NextNicNumber(before + ds)
  {
    var current := next;
    assert before + ds[..0] == before;
    for j := 0 to |ds|
      invariant NextNicNumber(before + ds[..j]) == Ok(current)
    {
      ScanExtends(before, ds, j);
      NextNicNumberStep(before + ds[..j], ds[j]);
      var n := NicNumberAfter(ds[j], current);
      if n.Err? {
        NextNicNumberRaisedStays(before + ds[..j + 1], before + ds);
        return n;
      }
      current := n.value;
    }
    assert ds[..|ds|] == ds;
    return Ok(current);
  }

  // ---------------------------------------------------------------------
  // The dictionary handed to the template code

  /** `_ui_to_dict`'s copy of one row: `members` is the nested list for a
      bridge and empty for anything else. */
  function Flatten(e: Entry): Device {
    e.data.(members := Some(if e.data.deviceType == "ovs_bridge" then e.nested else []))
  }

  function FlattenRole(entries: seq<Entry>): (r: seq<Device>)
    ensures |r| == |entries|
    ensures forall i :: 0 <= i < |entries| ==> r[i] == Flatten(entries[i])
  {
    seq(|entries|, i requires 0 <= i < |entries| => Flatten(entries[i]))
  }

  /** The dictionary after the first `k` roles of `TYPE_LIST`. */
  function DictUpTo(roles: seq<seq<Entry>>, k: nat): (data: Config)
    requires k <= |TypeList| == |roles|
    ensures data.Keys == set i | 0 <= i < k :: TypeList[i].filename
    ensures forall i :: 0 <= i < k ==> data[TypeList[i].filename] == FlattenRole(roles[i])
  {
    TypeListFilenamesDistinct();
    if k == 0 then map[]
    else DictUpTo(roles, k - 1)[TypeList[k - 1].filename := FlattenRole(roles[k - 1])]
  }

  /** What `_ui_to_dict` returns for these role lists: one list per
      `TYPE_LIST` file name, row for row the role's list. */
  function RolesToDict(roles: seq<seq<Entry>>): (data: Config)
    requires |roles| == |TypeList|
    ensures forall t :: t in TypeList ==> t.filename in data
    ensures forall f :: f in data ==> exists k :: 0 <= k < |TypeList| && TypeList[k].filename == f
    ensures forall k :: 0 <= k < |TypeList| ==> data[TypeList[k].filename] == FlattenRole(roles[k])
  {
    var data := DictUpTo(roles, |TypeList|);
    assert forall t :: t in TypeList ==> exists k :: 0 <= k < |TypeList| && TypeList[k] == t;
    data
  }

  // ---------------------------------------------------------------------
  // What the editor keeps true of its records

  /** Every record the editor creates has a `network` key, and every
      top-level record also a `routes` key; renaming and changing the network
      keep them. */
  ghost predicate EntriesWellFormed(entries: seq<Entry>) {
    forall i :: 0 <= i < |entries| ==>
      entries[i].data.network.Some? && entries[i].data.routes.Some? &&
      forall j :: 0 <= j < |entries[i].nested| ==> entries[i].nested[j].network.Some?
  }

  ghost predicate RolesWellFormed(roles: seq<seq<Entry>>) {
    |roles| == |TypeList| && forall k :: 0 <= k < |roles| ==> EntriesWellFormed(roles[k])
  }

  /** A row of the role, or a nested row of a bridge, is on `net`. */
  ghost predicate RoleUsesNetwork(entries: seq<Entry>, net: string) {
    exists i :: 0 <= i < |entries| &&
      (entries[i].data.network == Some(net) ||
       (entries[i].data.deviceType == "ovs_bridge" &&
        exists j :: 0 <= j < |entries[i].nested| && entries[i].nested[j].network == Some(net)))
  }

  lemma EditorDictWellFormed(roles: seq<seq<Entry>>)
    requires RolesWellFormed(roles)
    ensures WellFormedConfig(RolesToDict(roles))
  {
    var data := RolesToDict(roles);
    forall f | f in data ensures WellFormedRole(data[f]) {
      var k :| 0 <= k < |TypeList| && TypeList[k].filename == f;
      assert EntriesWellFormed(roles[k]);
    }
  }

  /** On the editor's dictionary `_net_used` never raises, and it reports
      exactly whether a row of the role, or a nested row of one of its
      bridges, is on the network. */
  lemma EditorNetUsed(roles: seq<seq<Entry>>, net: string, k: nat)
    requires RolesWellFormed(roles) && k < |TypeList|
    ensures NetUsed(RolesToDict(roles), net, TypeList[k].filename) == Ok(RoleUsesNetwork(roles[k], net))
  {
    EditorDictWellFormed(roles);
    FlattenedUses(roles[k], net);
  }

  lemma FlattenedUses(entries: seq<Entry>, net: string)
    ensures UsesNetwork(FlattenRole(entries), net) <==> RoleUsesNetwork(entries, net)
  {
    var devices := FlattenRole(entries);
    if UsesNetwork(devices, net) {
      var i :| 0 <= i < |devices| && OnNetwork(devices[i], net);
      assert devices[i] == Flatten(entries[i]);
    }
    if RoleUsesNetwork(entries, net) {
      var i :| 0 <= i < |entries| &&
        (entries[i].data.network == Some(net) ||
         (entries[i].data.deviceType == "ovs_bridge" &&
          exists j :: 0 <= j < |entries[i].nested| && entries[i].nested[j].network == Some(net)));
      assert OnNetwork(devices[i], net);
    }
  }

  /** On the editor's dictionary `_write_net_iso` always completes. */
  lemma EditorNetIsoCompletes(roles: seq<seq<Entry>>, net: string, basename: Option<string>)
    requires RolesWellFormed(roles)
    ensures NetIsoWrites(net, RolesToDict(roles), basename).outcome == Completed
  {
    EditorDictWellFormed(roles);
    NetIsoWritesOnWellFormed(net, RolesToDict(roles), basename);
  }

  /** Every record of the editor's dictionary normalises without raising:
      the top-level record for its own role, and each of its members. */
  lemma EditorRecordsNormalise(roles: seq<seq<Entry>>, k: nat, i: nat)
    requires RolesWellFormed(roles) && k < |TypeList| && i < |roles[k]|
    ensures var f := TypeList[k].filename; var d := RolesToDict(roles)[f][i];
      NetworkConfigStep(d, f).outcome == Completed &&
      forall m :: m in d.members.value ==> BridgeMemberStep(m).outcome == Completed
  {
    assert EntriesWellFormed(roles[k]);
  }

  /** Where a single-selection list view moves its current row when that
      row is removed and `remaining` rows are left: to the next row, which
      then moves up into the removed row's place; to the row above when the
      last row was removed; to no row (-1) when the list is now empty. */
  function RowAfterRemoval(row: nat, remaining: nat): (r: int)
    requires row <= remaining
    ensures -1 <= r < remaining
    ensures r == -1 <==> remaining == 0
    ensures row < remaining ==> r == row
    ensures row == remaining ==> r == row - 1
  {
    if row < remaining then row else row - 1
  }

  // ---------------------------------------------------------------------
  // The editor window's model

  class Editor {
    /** One list per row of the role list, in `TYPE_LIST` order. */
    var roles: seq<seq<Entry>>
    /** The current row of the role list. */
    var role: nat
    var level: Level
    /** The current row of the top-level list (-1 when there is none). */
    var topRow: int
    /** The current row of the nested list (-1 when there is none). */
    var nestedRow: int

    ghost predicate Valid()
      reads this
    {
      RolesWellFormed(roles) && role < |roles|
    }

    /** The window as `__init__` leaves it: five empty roles, the first one
        current, nothing focused yet. */
    constructor ()
      ensures Valid()
      ensures |roles| == |TypeList| && forall k :: 0 <= k < |roles| ==> roles[k] == []
      ensures role == 0 && level == NoFocus && topRow == -1 && nestedRow == -1
    {
      roles := [[], [], [], [], []];
      role := 0;
      level := NoFocus;
      topRow := -1;
      nestedRow := -1;
    }

    /** The top-level list has a current row. */
    predicate HasCurrentTop()
      reads this
      requires Valid()
    {
      0 <= topRow < |roles[role]|
    }

    /** The nested list of the current top-level row has a current row. */
    predicate HasCurrentNested()
      reads this
      requires Valid()
    {
      HasCurrentTop() && 0 <= nestedRow < |roles[role][topRow].nested|
    }

    /** A click on role `k`: `_node_type_focused`, and, when `k` is not
        already the current role, `_node_type_changed`, which shows role
        `k`'s list with no current row and empties the nested list.  A
        click on the current role keeps both current rows. */
    method SelectRole(k: nat)
      requires Valid() && k < |roles|
      modifies this`role, this`level, this`topRow, this`nestedRow
      ensures Valid() && roles == old(roles)
      ensures role == k && level == RoleList
      ensures k == old(role) ==> topRow == old(topRow) && nestedRow == old(nestedRow)
      ensures k != old(role) ==> topRow == -1 && nestedRow == -1 && !HasCurrentTop() && !HasCurrentNested()
    {
      if k != role {
        topRow, nestedRow := -1, -1;
      }
      role, level := k, RoleList;
    }

    /** `_interface_focused`: the top-level list takes the focus with `row`
        current (-1 for none); the nested list shown is that row's, with no
        current row yet. */
    method SelectTopRow(row: int)
      requires Valid()
      modifies this`level, this`topRow, this`nestedRow
      ensures Valid() && roles == old(roles) && role == old(role)
      ensures level == TopLevel && topRow == row && !HasCurrentNested()
    {
      level, topRow, nestedRow := TopLevel, row, -1;
    }

    /** `_nested_focused`: the nested list takes the focus with `row`
        current (-1 for none). */
    method SelectNestedRow(row: int)
      requires Valid()
      modifies this`level, this`nestedRow
      ensures Valid() && roles == old(roles) && role == old(role) && topRow == old(topRow)
      ensures level == NestedLevel && nestedRow == row
    {
      level, nestedRow := NestedLevel, row;
    }

    /** `_next_nic_name` */
    method NextNicName() returns (r: Result<string>)
      requires Valid()
      ensures r == NextNicNameOf(roles[role])
    {
      var entries := roles[role];
      var next := 1;
      for i := 0 to |entries|
        invariant NextNicNumber(ScannedRecords(entries[..i])) == Ok(next)
      {
        ScannedRecordsStep(entries, i);
        ScannedRecordsPrefix(entries, i + 1);
        ghost var before := ScannedRecords(entries[..i]);
        var d := entries[i].data;
        var visited: seq<Device> := if d.deviceType == "ovs_bridge" then entries[i].nested else [];
        if d.deviceType == "interface" {
          visited := [d];
        }
        assert visited == Scanned(entries[i]);
        var n := ScanRecords(before, visited, next);
        if n.Err? {
          NextNicNumberRaisedStays(before + visited, ScannedRecords(entries));
          return Err(n.error);
        }
        next := n.value;
      }
      assert entries[..|entries|] == entries;
      return Ok(NicName(next));
    }

    /** `_add_interface` */
    method AddInterface() returns (outcome: Outcome)
      requires Valid()
      modifies this`roles
      ensures Valid()
      ensures old(level) == RoleList ==>
        (match NextNicNameOf(old(roles[role]))
         case Err(e) => outcome == Raised(e) && roles == old(roles)
         case Ok(name) => (outcome == Completed &&
           roles == old(roles)[role := old(roles[role]) + [Entry(NewNicItem(name), [])]]))
      ensures old(level) == TopLevel && !old(HasCurrentTop()) ==>
        outcome == Raised(AttributeError) && roles == old(roles)
      ensures old(level) == TopLevel && old(HasCurrentTop()) ==>
        (match NextNicNameOf(old(roles[role]))
         case Err(e) => outcome == Raised(e) && roles == old(roles)
         case Ok(name) => (outcome == Completed &&
           roles == old(roles)[role := old(roles[role])[topRow :=
             old(roles[role][topRow]).(nested := old(roles[role][topRow].nested) + [NewNicItem(name)])]]))
      ensures old(level) == NoFocus || old(level) == NestedLevel ==>
        outcome == Raised(RuntimeError(AddInterfaceError)) && roles == old(roles)
    {
      if level == RoleList {
        var name := NextNicName();
        if name.Err? {
          return Raised(name.error);
        }
        roles := roles[role := roles[role] + [Entry(NewNicItem(name.value), [])]];
      } else if level == TopLevel {
        if !(0 <= topRow < |roles[role]|) {
          return Raised(AttributeError);
        }
        var current := roles[role][topRow];
        var name := NextNicName();
        if name.Err? {
          return Raised(name.error);
        }
        roles := roles[role := roles[role][topRow := current.(nested := current.nested + [NewNicItem(name.value)])]];
      } else {
        return Raised(RuntimeError(AddInterfaceError));
      }
      return Completed;
    }

    /** `_add_bridge` */
    method AddBridge() returns (outcome: Outcome)
      requires Valid()
      modifies this`roles
      ensures Valid()
      ensures old(level) == RoleList ==>
        outcome == Completed && roles == old(roles)[role := old(roles[role]) + [Entry(NewBridge, [])]]
      ensures old(level) != RoleList ==>
        outcome == Raised(RuntimeError(AddBridgeError)) && roles == old(roles)
    {
      if level == RoleList {
        roles := roles[role := roles[role] + [Entry(NewBridge, [])]];
        return Completed;
      }
      return Raised(RuntimeError(AddBridgeError));
    }

    /** `_add_vlan`; with the role list selected it does nothing. */
    method AddVlan() returns (outcome: Outcome)
      requires Valid()
      modifies this`roles
      ensures Valid()
      ensures old(level) == RoleList ==> outcome == Completed && roles == old(roles)
      ensures old(level) == TopLevel && !old(HasCurrentTop()) ==>
        outcome == Raised(AttributeError) && roles == old(roles)
      ensures old(level) == TopLevel && old(HasCurrentTop()) ==>
        outcome == Completed &&
        roles == old(roles)[role := old(roles[role])[topRow :=
          old(roles[role][topRow]).(nested := old(roles[role][topRow].nested) + [NewVlan])]]
      ensures old(level) == NoFocus || old(level) == NestedLevel ==>
        outcome == Raised(RuntimeError(AddVlanError)) && roles == old(roles)
    {
      if level == RoleList {
        return Completed;
      } else if level == TopLevel {
        if !(0 <= topRow < |roles[role]|) {
          return Raised(AttributeError);
        }
        var current := roles[role][topRow];
        roles := roles[role := roles[role][topRow := current.(nested := current.nested + [NewVlan])]];
        return Completed;
      }
      return Raised(RuntimeError(AddVlanError));
    }

    /** `_delete_current`: removes the current row of the selected list;
        with nothing selected it does nothing.  Qt then moves that list's
        current row as `RowAfterRemoval` says; a new current top-level row
        shows its own nested list, which has no current row. */
    method DeleteCurrent() returns (outcome: Outcome)
      requires Valid()
      modifies this`roles, this`topRow, this`nestedRow
      ensures Valid()
      ensures old(level) == RoleList ==>
        outcome == Raised(RuntimeError(DeleteRoleError)) && roles == old(roles)
      ensures old(level) == TopLevel && !old(HasCurrentTop()) ==>
        outcome == Raised(AttributeError) && roles == old(roles)
      ensures old(level) == TopLevel && old(HasCurrentTop()) ==>
        outcome == Completed &&
        roles == old(roles)[role := old(roles[role])[..old(topRow)] + old(roles[role])[old(topRow) + 1..]] &&
        topRow == RowAfterRemoval(old(topRow), |roles[role]|) && nestedRow == -1 &&
        (HasCurrentTop() <==> roles[role] != [])
      ensures old(level) == NestedLevel && !old(HasCurrentNested()) ==>
        outcome == Raised(AttributeError) && roles == old(roles)
      ensures old(level) == NestedLevel && old(HasCurrentNested()) ==>
        var nested := old(roles[role][topRow].nested);
        outcome == Completed &&
        roles == old(roles)[role := old(roles[role])[old(topRow) :=
          old(roles[role][topRow]).(nested := nested[..old(nestedRow)] + nested[old(nestedRow) + 1..])]] &&
        topRow == old(topRow) && nestedRow == RowAfterRemoval(old(nestedRow), |nested| - 1) &&
        (HasCurrentNested() <==> roles[role][topRow].nested != [])
      ensures old(level) == NoFocus ==> outcome == Completed && roles == old(roles)
      ensures !(old(level) == TopLevel && old(HasCurrentTop())) &&
              !(old(level) == NestedLevel && old(HasCurrentNested())) ==>
        topRow == old(topRow) && nestedRow == old(nestedRow)
    {
      if level == RoleList {
        return Raised(RuntimeError(DeleteRoleError));
      } else if level == TopLevel {
        if !(0 <= topRow < |roles[role]|) {
          return Raised(AttributeError);
        }
        roles := roles[role := roles[role][..topRow] + roles[role][topRow + 1..]];
        topRow, nestedRow := RowAfterRemoval(topRow, |roles[role]|), -1;
      } else if level == NestedLevel {
        if !(0 <= topRow < |roles[role]| && 0 <= nestedRow < |roles[role][topRow].nested|) {
          return Raised(AttributeError);
        }
        var current := roles[role][topRow];
        var nested := current.nested[..nestedRow] + current.nested[nestedRow + 1..];
        roles := roles[role := roles[role][topRow := current.(nested := nested)]];
        nestedRow := RowAfterRemoval(nestedRow, |nested|);
      }
      return Completed;
    }

    /** `_network_type_changed`: the selected record's `network` becomes `network`. */
    method NetworkTypeChanged(network: string) returns (outcome: Outcome)
      requires Valid()
      modifies this`roles
      ensures Valid()
      ensures old(level) == TopLevel && old(HasCurrentTop()) ==>
        outcome == Completed &&
        roles == old(roles)[role := old(roles[role])[topRow :=
          old(roles[role][topRow]).(data := old(roles[role][topRow].data).(network := Some(network)))]]
      ensures old(level) == NestedLevel && old(HasCurrentNested()) ==>
        var current := old(roles[role][topRow]);
        outcome == Completed &&
        roles == old(roles)[role := old(roles[role])[topRow :=
          current.(nested := current.nested[nestedRow := current.nested[nestedRow].(network := Some(network))])]]
      ensures (old(level) == TopLevel && !old(HasCurrentTop())) ||
              (old(level) == NestedLevel && !old(HasCurrentNested())) ==>
        outcome == Raised(AttributeError) && roles == old(roles)
      ensures old(level) == NoFocus || old(level) == RoleList ==>
        outcome == Raised(RuntimeError(NetworkChangeError)) && roles == old(roles)
    {
      if level == TopLevel {
        if !(0 <= topRow < |roles[role]|) {
          return Raised(AttributeError);
        }
        var current := roles[role][topRow];
        roles := roles[role := roles[role][topRow := current.(data := current.data.(network := Some(network)))]];
      } else if level == NestedLevel {
        if !(0 <= topRow < |roles[role]| && 0 <= nestedRow < |roles[role][topRow].nested|) {
          return Raised(AttributeError);
        }
        var current := roles[role][topRow];
        var d := current.nested[nestedRow];
        roles := roles[role := roles[role][topRow := current.(nested := current.nested[nestedRow := d.(network := Some(network))])]];
      } else {
        return Raised(RuntimeError(NetworkChangeError));
      }
      return Completed;
    }

    /** `_name_changed`: the selected record's `name` becomes `text`. */
    method NameChanged(text: string) returns (outcome: Outcome)
      requires Valid()
      modifies this`roles
      ensures Valid()
      ensures old(level) == TopLevel && old(HasCurrentTop()) ==>
        outcome == Completed &&
        roles == old(roles)[role := old(roles[role])[topRow :=
          old(roles[role][topRow]).(data := old(roles[role][topRow].data).(name := text))]]
      ensures old(level) == NestedLevel && old(HasCurrentNested()) ==>
        var current := old(roles[role][topRow]);
        outcome == Completed &&
        roles == old(roles)[role := old(roles[role])[topRow :=
          current.(nested := current.nested[nestedRow := current.nested[nestedRow].(name := text)])]]
      ensures (old(level) == TopLevel && !old(HasCurrentTop())) ||
              (old(level) == NestedLevel && !old(HasCurrentNested())) ==>
        outcome == Raised(AttributeError) && roles == old(roles)
      ensures old(level) == NoFocus || old(level) == RoleList ==>
        outcome == Raised(RuntimeError(NameChangeError)) && roles == old(roles)
    {
      if level == TopLevel {
        if !(0 <= topRow < |roles[role]|) {
          return Raised(AttributeError);
        }
        var current := roles[role][topRow];
        roles := roles[role := roles[role][topRow := current.(data := current.data.(name := text))]];
      } else if level == NestedLevel {
        if !(0 <= topRow < |roles[role]| && 0 <= nestedRow < |roles[role][topRow].nested|) {
          return Raised(AttributeError);
        }
        var current := roles[role][topRow];
        var d := current.nested[nestedRow];
        roles := roles[role := roles[role][topRow := current.(nested := current.nested[nestedRow := d.(name := text)])]];
      } else {
        return Raised(RuntimeError(NameChangeError));
      }
      return Completed;
    }

    /** `_ui_to_dict` */
    method UiToDict() returns (data: Config)
      requires Valid()
      ensures data == RolesToDict(roles)
    {
      data := map[];
      for k := 0 to |TypeList|
        invariant data == DictUpTo(roles, k)
      {
        var t := TypeList[k];
        assert t.index == k;
        var entries := roles[t.index];
        var rows: seq<Device> := [];
        for i := 0 to |entries|
          invariant |rows| == i
          invariant forall m :: 0 <= m < i ==> rows[m] == Flatten(entries[m])
        {
          var d := entries[i].data;
          var members: seq<Device> := [];
          if d.deviceType == "ovs_bridge" {
            var nested := entries[i].nested;
            for j := 0 to |nested|
              invariant members == nested[..j]
            {
              members := members + [nested[j]];
            }
            assert nested[..|nested|] == nested;
          }
          rows := rows + [d.(members := Some(members))];
        }
        assert rows == FlattenRole(roles[k]);
        data := data[t.filename := rows];
      }
      assert DictUpTo(roles, |TypeList|) == RolesToDict(roles);
    }
  }
}
