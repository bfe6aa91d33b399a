# Network-isolation template generator, modelled in Dafny

The generator builds TripleO network-isolation templates from a topology the
user edits in a small editor window. This project models the two pieces of
it that hold the logic:

* **`net_processing.py`** (module `NetProcessing`, file `net_processing.dfy`):
  * the role table `TYPE_LIST`;
  * the usage queries `_net_used` and `_net_used_all`;
  * `_write_net_iso`, which appends the resource-registry lines for one network to a file;
  * the in-place normalisation of device records by `_process_network_config` and `_process_bridge_members`.
* **The data logic of `MainForm` in `net-iso-gen.py`** (module `NetIsoGen`, file `net_iso_gen.dfy`):
  * each of the five roles has a list of top-level device records;
  * each top-level record has its own nested list;
  * `_next_nic_name` allocates `nic<N>` names;
  * the add, delete and edit operations are gated by which list had the focus last;
  * `_ui_to_dict` flattens the lists into the dictionary the template writer consumes.

Device records are string-keyed dictionaries in the program. Here they are
the datatype `Devices.Device`: every key the modelled code reads or writes
is a field, and a key that may be missing (`del`, `pop`) is an `Option`.
Code that mutates a dictionary in place works on the class `Devices.Record`.
Python exceptions are the datatype `Common.Error`. A call that can raise
after part of its mutation is done returns both the state it leaves and how
it ended (`Common.Partial`).

Each imperative operation is a method proved against a specification
function:

* `WriteNetIso` against `NetIsoWrites`, and its port loop `WritePorts` against `PortWrites`;
* `ProcessNetworkConfig` against `NetworkConfigStep`;
* `ProcessBridgeMembers` against `BridgeMemberStep`;
* `Editor.NextNicName` against `NextNicNameOf`, and its inner loop `ScanRecords` against `NextNicNumber`;
* `Editor.UiToDict` against `RolesToDict`.

Lemmas state what those functions promise.

The editor keeps an invariant, `Editor.Valid`. Every record it creates has a
`network` key, and every top-level record also a `routes` key. Renaming and
changing a network keep these keys. Because of this invariant, the
editor's dictionary never makes `_net_used` or `_write_net_iso` raise, and
`_process_network_config` and `_process_bridge_members` always succeed on it
(`EditorNetIsoCompletes`, `EditorRecordsNormalise`).

## Model

| member | source | states |
|---|---|---|
| NetProcessing.TypeListFilenamesDistinct | net_processing.py:15-19 | the five role file names of `TYPE_LIST` are pairwise distinct, so each role has its own dictionary key |
| NetProcessing.ScanMembers | net_processing.py:48-50 | the member loop finds the network exactly when some member's `network` equals it; it cannot raise when every member has a `network` key, and any raise is KeyError |
| NetProcessing.ScanRole | net_processing.py:43-51 | `_net_used`'s loop answers true exactly when a top-level record of the role, or a direct member of one, is on the network; it does not raise on a role where every record has `network` and `members`; any raise is KeyError |
| NetProcessing.NetUsed | net_processing.py:43-51 | a missing role key raises KeyError; otherwise the result is true exactly when the role uses the network in the sense above, and it cannot raise on a well-formed role |
| NetProcessing.NetUsedAll | net_processing.py:40-41 | true exactly when some key of the dictionary names a role that uses the network; it cannot raise on a well-formed dictionary |
| NetProcessing.OutputFile.Write | net_processing.py:25-27 | writing appends exactly one string to the file and keeps what was written before |
| NetProcessing.WriteNetIso | net_processing.py:21-38 | the file gains exactly the lines `NetIsoWrites` specifies, and the call ends as that specification says, including after a raise part-way through |
| NetProcessing.WritePorts | net_processing.py:35-38 | the loop over `TYPE_LIST` appends the port lines of the roles using the network, in table order, and stops at the first role whose lookup raises |
| NetProcessing.PortWritesRaisedStays | net_processing.py:35-38 | once a role's lookup raises, later roles add no line and do not change the outcome |
| NetProcessing.RolesUsing | net_processing.py:35-36 | a role is selected exactly when it is in the table and its records use the network |
| NetProcessing.PortLines | net_processing.py:37-38 | one port line per role, in order, naming the role's template and the network's port file |
| NetProcessing.PortWritesOnWellFormed | net_processing.py:35-38 | on a well-formed dictionary holding every listed role, the loop completes and writes exactly the port lines of the roles using the network, in table order |
| NetProcessing.NetIsoUnusedWritesNothing | net_processing.py:29-38 | when the network is not used anywhere, or the usage check raises, nothing is written |
| NetProcessing.PortWritesUnused | net_processing.py:35-38 | when no role uses the network, the port loop writes nothing |
| NetProcessing.NetIsoWritesOnWellFormed | net_processing.py:21-38 | on a well-formed dictionary with every `TYPE_LIST` role, the output is the 3 header lines when the network is used, followed by one port line per role that uses it in `TYPE_LIST` order; that is 3·[used] + #roles lines, and a role using it implies the header is present |
| NetProcessing.LineIsIndented | net_processing.py:26 | whatever the content, the `write` helper's line is two spaces, the content and a newline |
| NetProcessing.NetIsoLinesAreIndented | net_processing.py:25-38 | every line `_write_net_iso` writes, header or port line, is indented by two spaces and ends in a newline |
| NetProcessing.PortWritesAreLines | net_processing.py:25-38 | every port line written is an indented, newline-terminated line |
| NetProcessing.NetworkConfigStep | net_processing.py:53-87 | records other than interfaces and bridges are unchanged; on an interface or bridge it raises (KeyError) exactly when `network` is missing, or when the network is ordinary and `routes` is missing; `type`, `name`, `use_dhcp`, `dns_servers`, `vlan_id` and `members` are kept; `network` and `primary` are removed |
| NetProcessing.NetworkConfigAddressing | net_processing.py:60-87 | ControlPlane gets the joined ControlPlaneIp/ControlPlaneSubnetCidr address and the metadata route, plus a ControlPlaneDefaultRoute default route outside controller.yaml; External gets its subnet and one 0.0.0.0/0 route for every role; None loses both keys; any other network gets its own subnet address and loses `routes` |
| NetProcessing.NetworkConfigFilenameIrrelevant | net_processing.py:71-73 | the role file name affects the result only for ControlPlane, and only as whether it is controller.yaml |
| NetProcessing.NetworkConfigOnce | net_processing.py:55-56 | normalisation consumes `network`, so normalising an interface or bridge again raises KeyError and changes nothing |
| NetProcessing.ProcessNetworkConfig | net_processing.py:53-87 | the record is left as `NetworkConfigStep` says and the call ends as it says, including the partial update before `del d['routes']` raises |
| NetProcessing.BridgeMemberStep | net_processing.py:89-95 | a VLAN gets the `<Net>NetworkVlanID` parameter and a one-element `<Net>IpSubnet` address list and keeps `network`; any other record is untouched; a VLAN without `network` raises KeyError unchanged |
| NetProcessing.BridgeMemberIdempotent | net_processing.py:89-95 | processing a bridge member twice gives the same record and outcome as processing it once |
| NetProcessing.ProcessBridgeMembers | net_processing.py:89-95 | the record is left as `BridgeMemberStep` says, and the outcome agrees with it |
| Strings.Lower | net_processing.py:23 | the default base name is the network name lower-cased character by character (ASCII), with the same length |
| Strings.NatToString | net-iso-gen.py:501 | `'%d' % n` for a natural number is a non-empty run of decimal digits with no leading zero |
| Strings.DigitsValueOfNatToString | net-iso-gen.py:501 | the digits written for `n` denote `n` |
| Strings.ParseIntOfDigits | net-iso-gen.py:487 | `int()` of a run of decimal digits is the number they denote |
| Strings.ParseIntSpaceAfterSign | net-iso-gen.py:487 | `int()` accepts whitespace between the sign and the digits: `int('- ' + digits)` is minus their value |
| Strings.ParseIntOfNatToString | net-iso-gen.py:487 | `int()` reads back what `'%d'` wrote |
| NetIsoGen.NewNicItem | net-iso-gen.py:504-515 | a new NIC is an interface with the given name, `use_dhcp` False, empty addresses and routes, on ControlPlane and primary; it normalises without raising for every role |
| NetIsoGen.NicNumberAfter | net-iso-gen.py:484-489 | `calculate_from_data` raises ValueError exactly on an interface named `nic` + a non-number; otherwise the candidate never decreases and ends above the record's own number, and it changes only to that number plus one |
| NetIsoGen.NextNicNumber | net-iso-gen.py:491-500 | the scan over the visited records, when it completes, ends with a number of at least 1 |
| NetIsoGen.NextNicNumberRaises | net-iso-gen.py:487 | the scan raises, always ValueError, exactly when some visited `nic` interface has a non-numeric suffix |
| NetIsoGen.NextNicNumberAbove | net-iso-gen.py:484-500 | when the scan completes, every visited `nic` number is below the result |
| NetIsoGen.NextNicNumberTight | net-iso-gen.py:484-500 | when the result exceeds 1, some visited `nic` interface carries the result minus one, so the result is the largest number plus one (or 1 when there is none) |
| NetIsoGen.NextNicNameIsFresh | net-iso-gen.py:479-502 | the allocated name differs from the name of every interface the scan counted |
| NetIsoGen.NicNumberAfterOwnName | net-iso-gen.py:484-489 | an interface named `nic<n>` moves the candidate `n` on to `n + 1` |
| NetIsoGen.NextNicNumberAfterAdding | net-iso-gen.py:517-524 | after the allocated NIC is appended to a role, the next allocation is one higher, so successive additions get distinct names |
| NetIsoGen.NextNicNumberRaisedStays | net-iso-gen.py:491-500 | a raise on a prefix of the visited records is the result of the whole scan |
| NetIsoGen.ScanRecords | net-iso-gen.py:496-500 | the loop over one row's records carries the candidate exactly as the specification scan does |
| NetIsoGen.FlattenRole | net-iso-gen.py:390-399 | the role's dictionary list has one record per row, in order, each row's record with `members` set |
| NetIsoGen.DictUpTo | net-iso-gen.py:386-399 | after the first k roles the dictionary holds exactly their file names, each mapped to its flattened role list |
| NetIsoGen.RolesToDict | net-iso-gen.py:385-400 | the dictionary has exactly the `TYPE_LIST` file names as keys, each mapped to its role's rows in order; `members` is the nested list for a bridge and empty otherwise |
| NetIsoGen.FlattenedUses | net-iso-gen.py:392-398 | a flattened role uses a network exactly when one of its rows, or a nested row of one of its bridges, is on it |
| NetIsoGen.EditorDictWellFormed | net-iso-gen.py:380-400 | the editor's dictionary is well formed for the usage queries (every record and member has `network`) |
| NetIsoGen.EditorNetUsed | net_processing.py:43-51 | on the editor's dictionary `_net_used` never raises, and it is true exactly when a row of the role, or a nested row of one of its bridges, is on the network |
| NetIsoGen.EditorNetIsoCompletes | net_processing.py:21-38 | on the editor's dictionary `_write_net_iso` always completes |
| NetIsoGen.EditorRecordsNormalise | net_processing.py:53-95 | every top-level record of the editor's dictionary normalises without raising for its own role, and so does each of its members |
| NetIsoGen.Editor.constructor | net-iso-gen.py:82-90 | the window starts with five empty roles, the first current, and nothing focused |
| NetIsoGen.Editor.SelectRole | net-iso-gen.py:448-454 | clicking a role makes it current and focuses the role list; switching to another role leaves no current top-level or nested row, while clicking the current role keeps both; no list changes |
| NetIsoGen.Editor.SelectTopRow | net-iso-gen.py:456-467 | focusing the top-level list records its current row and leaves no current nested row; no list changes |
| NetIsoGen.Editor.SelectNestedRow | net-iso-gen.py:469-477 | focusing the nested list records its current row; no list changes |
| NetIsoGen.Editor.NextNicName | net-iso-gen.py:479-502 | the nested loops return exactly `NextNicNameOf` of the current role: a ValueError, or the fresh `nic<N>` name |
| NetIsoGen.Editor.AddInterface | net-iso-gen.py:517-533 | with the role list focused it appends a new NIC to the role; with the top-level list focused it appends one to the current row's nested list; a raise from naming changes nothing; no current row is AttributeError; otherwise RuntimeError; every other list is unchanged and the invariant holds |
| NetIsoGen.Editor.AddBridge | net-iso-gen.py:535-553 | only with the role list focused: appends the `br-ex` bridge to the role; otherwise RuntimeError and no change |
| NetIsoGen.Editor.AddVlan | net-iso-gen.py:555-575 | role list: nothing happens; top-level list: appends the VLAN record to the current row's nested list (AttributeError without one); otherwise RuntimeError |
| NetIsoGen.RowAfterRemoval | net-iso-gen.py:582-585 | after `takeRow` in the single-selection list views (net-iso-gen.py:60, 136, 144) the next row becomes current and moves up into the removed row's index; after removing the last row the row above becomes current; no row is current only when the list is empty |
| NetIsoGen.Editor.DeleteCurrent | net-iso-gen.py:577-585 | role list: RuntimeError; top-level or nested list: removes exactly the current row, keeping the others in order (AttributeError without one), then moves the current row as `RowAfterRemoval` says, so a current row remains while the list is non-empty; a new current top-level row shows its nested list with no current row; nothing focused: no change |
| NetIsoGen.Editor.NetworkTypeChanged | net-iso-gen.py:598-608 | only the selected record's `network` changes; RuntimeError with nothing below the role level focused, AttributeError without a current row |
| NetIsoGen.Editor.NameChanged | net-iso-gen.py:624-634 | only the selected record's `name` changes; RuntimeError with nothing below the role level focused, AttributeError without a current row |
| NetIsoGen.Editor.UiToDict | net-iso-gen.py:380-400 | the nested loops build exactly `RolesToDict` of the editor's roles |

## Left out

- The Qt user interface is not modelled. This covers widgets, layouts, icons, the file dialog, `_update_input`, `_set_output_path` and the application entry point. The focus handlers become `SelectRole`, `SelectTopRow` and `SelectNestedRow`, which set the abstract current role, focused list and current rows.
- The chain of Qt signals a change of current row sets off is not modelled. `_interface_changed` and `_update_input` refill the network selector and the name field, and the network selector's `currentIndexChanged` can call `_network_type_changed` again with the value just shown. The model keeps only the new current rows, as `DeleteCurrent` and the `Select` methods state.
- A Qt index that is invalid, or points past the list, is modelled as an AttributeError. This is what `None.item(...)` or `None.takeRow(...)` raises.
- `_primary_changed` is not modelled. It is a no-op except in the nested list and sits outside the data logic.
- The display text that `_name_changed` sets on the item is not modelled. The record's `name` is set to the edited text, which the line edit holds at that moment.
- The nested model `_interface_models` creates for a new top-level row (net-iso-gen.py:523, 550) is that row's initially empty nested list. Nested rows have no nested list of their own in the model. So the model created for a new VLAN row (net-iso-gen.py:571), which is always nested, is dropped, as nothing can reach it. A NIC added to a nested list gets no such model in the program either (net-iso-gen.py:529-530).
- `_generate_templates` and `_global_to_dict` are not part of this model. They call helpers (`_validate_config`, `_write_nic_configs`, `_write_net_env`, `SIMILAR_NETS`) that are not part of this model either.
- `DATA_MAJOR` and `DATA_MINOR` are not modelled. They are constants with no behaviour attached.
- YAML rendering and key order are not modelled.
- `test-net-iso-gen.py`, `build-nodes-json.py` and `rh1tools/read-error-notifications.py` are not part of this model. They are tests, a client of the compute API, and a message-queue consumer.
- The file object `f` of `_write_net_iso` is a sequence of written strings. Actual I/O and its failures are not modelled.
- Python 2 dictionary iteration order is arbitrary. `_net_used_all` evaluates every role before `any`, so the model gives the same result for every order. A KeyError carries no key because the raising key depends on that order.
- `Strings.Lower`: only ASCII letters are lower-cased. The network name can be a `unicode` string, because the window sets the `QString` API to version 2 (net-iso-gen.py:24), so Qt text comes back as `unicode`. On such a name `lower()` also maps non-ASCII letters, which the model does not.
- `Strings.ParseInt`: `int()` is modelled on byte strings: surrounding whitespace, an optional sign, optional whitespace after the sign, and ASCII decimal digits. Names edited in the window reach `_name_changed` as `unicode` (net-iso-gen.py:24, 633). On `unicode`, `int()` also accepts non-ASCII decimal digits and Unicode whitespace, and the model rejects both with ValueError. So a name such as `nic` followed by Arabic-Indic digits raises in the model but is counted by the program. Python 2's switch from `int` to `long` results is not distinguished, because integers are unbounded here.
