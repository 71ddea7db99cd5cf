# Spectrum Scale inventory generator — a Dafny model

`resources/common/scripts/prepare_scale_inv_ini.py` reads the provisioning
output of a Spectrum Scale cloud deployment. That output has three address
lists (compute, storage and descriptor nodes), the availability zones, the
volume mappings and the filesystem settings. The script turns it into an
Ansible inventory. This project models the decisions the script makes on
the way:

- **Cluster type** (`Topology`). From the list lengths and the zone count
  the script picks `compute`, `storage` or `combined`. It also picks the node
  classes that receive a pagepool entry and whether synchronous replication
  is configured.
- **Sizing** (`Sizing`). The total node count counts descriptor
  (tie-breaker) nodes only across zones. The quorum table gives all nodes
  below 4, then 3, 5 or 7. There are two manager slots. The pagepool is a
  quarter of the instance memory, capped, computed in exact integers with
  Python's truncating `int()`.
- **Host roles** (`NodeRoles`, properties in `NodeRoleProperties`).
  `initialize_node_details` has four per-address loops: compute, one-zone
  storage, multi-zone storage and combined storage. Each loop decides the
  quorum, manager, GUI, collector, NSD and admin flags from the position the
  script computes with `list.index`. Descriptor nodes are always quorum NSD
  nodes. Compute nodes of a combined cluster take the leftover quorum slots.
  The model includes the case where a negative leftover drops the compute
  nodes from the inventory.
- **Disks** (`Disks`, properties in `DiskProperties`). In one zone the
  storage addresses split into failure groups 1 and 2 at the midpoint.
  Across zones they split by the third octet of the address. Every device
  gives one `dataAndMetadata` entry in the `system` pool. The first device
  of the first descriptor address gives a final `descOnly` entry in failure
  group 3.
- **Configuration records** (`ScaleConfig`). This covers one tunables entry
  per node class and the fixed ephemeral port range. It also covers the
  filesystem record: it is named after the last component of the mount
  point, keeps metadata twice, and keeps data twice only across zones.
- **The main flow** (`Inventory`). `PrepareInventory` runs the steps above in
  the script's order and states every output in terms of the specification
  functions. The lemmas beside it connect the steps end to end.

Each loop of the script is a `method` with loop invariants. It is proved
equal to a specification function (`InitialNodeDetails`, `DisksList`,
`FailureGroups`), and the lemmas are stated about that function.

## Model

| member | source | states |
|---|---|---|
| Sizing.TotalNodeCount | resources/common/scripts/prepare_scale_inv_ini.py:672-678 | descriptor nodes are counted exactly when the cluster spans more than one zone; the total lies between compute+storage and compute+storage+descriptor |
| Sizing.QuorumCount | resources/common/scripts/prepare_scale_inv_ini.py:686-694 | the quorum never exceeds the node count, equals it exactly below 4 nodes, and is odd and between 3 and 7 from 3 nodes on |
| Sizing.QuorumBands | resources/common/scripts/prepare_scale_inv_ini.py:687-694 | the table band by band: all nodes up to 3, 3 for 4-9, 5 for 10-18, 7 from 19 |
| Sizing.QuorumMonotone | resources/common/scripts/prepare_scale_inv_ini.py:686-694 | a bigger cluster never gets a smaller quorum |
| Sizing.TruncDiv | resources/common/scripts/prepare_scale_inv_ini.py:38-41 | the quotient is rounded toward zero, as Python `int()` of a float quotient: q*b <= a < q*b + b when a >= 0, and q*b - b < a <= q*b when a < 0 |
| Sizing.PagepoolCandidate | resources/common/scripts/prepare_scale_inv_ini.py:38-41 | the uncapped pagepool is at least 1 GB |
| Sizing.CalculatePagepool | resources/common/scripts/prepare_scale_inv_ini.py:35-46 | the pagepool is the smaller of the computed quarter and the ceiling, equals one of them, and is positive when the ceiling is |
| Sizing.PagepoolCapped | resources/common/scripts/prepare_scale_inv_ini.py:42-45 | the ceiling is used exactly when the computed quarter reaches it |
| Sizing.PagepoolIsQuarterOfMemory | resources/common/scripts/prepare_scale_inv_ini.py:37-41 | the three truncating conversions compose to one: memory (MiB) x 1048576 / 4e9, rounded down, and at least 1; negative memory gives 1 |
| Sizing.PagepoolExamples | resources/common/scripts/prepare_scale_inv_ini.py:35-46 | 16384 MiB with a 100 GB ceiling gives 4 GB; 1024 MiB with a 1 GB ceiling gives 1 GB |
| Topology.Classify | resources/common/scripts/prepare_scale_inv_ini.py:574-667 | compute iff no storage node and some compute node; storage iff no compute node, some storage node and one zone or several with a descriptor node; replication iff not compute and several zones; which node classes are listed, without repeats, the storage class first (the compute class for a compute cluster) and the descriptor class last |
| Topology.CombinedFallThrough | resources/common/scripts/prepare_scale_inv_ini.py:645-667 | an empty deployment, and a multi-zone storage-only one without descriptor node, are classified combined |
| NodeRoles.IndexOf | resources/common/scripts/prepare_scale_inv_ini.py:243-245 | `list.index` returns the position of the first occurrence |
| NodeRoles.IndexOfDistinct | resources/common/scripts/prepare_scale_inv_ini.py:243-245 | in a list without repeats, `index` of the j-th element is j |
| NodeRoles.RoleAt | resources/common/scripts/prepare_scale_inv_ini.py:241-273 | the nested role decision in closed form: quorum iff position <= threshold; GUI iff position 0 within threshold and manager slots; manager and collector within threshold and manager slots, one-zone storage managers and other lists' collectors limited to positions 0-1; admin is the quorum flag (multi-zone and combined storage) or the GUI flag (otherwise); NSD iff a storage list |
| NodeRoles.DescriptorNode | resources/common/scripts/prepare_scale_inv_ini.py:311-316 | a descriptor node is a quorum NSD node of class computedescnodegrp with no other role |
| NodeRoles.CombinedComputeNode | resources/common/scripts/prepare_scale_inv_ini.py:417-437 | a combined cluster's compute node is quorum and admin together or neither, never manager, GUI, collector or NSD |
| NodeRoles.StorageStartQuorum | resources/common/scripts/prepare_scale_inv_ini.py:318-323 | the storage threshold, the last position that is made quorum, is quorum - 2 across zones and quorum - 1 otherwise |
| NodeRoles.ListGui | resources/common/scripts/prepare_scale_inv_ini.py:245-252 | a GUI address is reported iff the list is not a combined cluster's storage list, is non-empty and its first node is GUI; the address is the first one and the key names the list (compute or storage) |
| NodeRoles.CombinedComputeNodes | resources/common/scripts/prepare_scale_inv_ini.py:416-437 | a negative leftover drops every compute address; otherwise one record per compute address in order, quorum exactly at the first `leftover` positions |
| NodeRoles.QuorumsLeft | resources/common/scripts/prepare_scale_inv_ini.py:404-414 | one zone: the leftover is max(quorum - storage, 0); several zones: it is 0 when storage - descriptor >= quorum and quorum - storage - descriptor otherwise, so negative exactly when storage < quorum + descriptor and quorum < storage + descriptor |
| NodeRoles.ListGuiStep | resources/common/scripts/prepare_scale_inv_ini.py:245-252 | the loop takes the GUI branch only at the first address, and at step 0 exactly when the list reports a GUI address |
| NodeRoles.AppendListRoles | resources/common/scripts/prepare_scale_inv_ini.py:242-274 | the per-address loop appends exactly the list's role records and reports the GUI address the loop writes out |
| NodeRoles.AppendDescriptors | resources/common/scripts/prepare_scale_inv_ini.py:359-364 | the descriptor loop appends one descriptor record per address |
| NodeRoles.AppendCombinedCompute | resources/common/scripts/prepare_scale_inv_ini.py:416-437 | the compute loops of a combined cluster append the leftover-quorum records, or none when the leftover is negative |
| NodeRoles.InitializeNodeDetails | resources/common/scripts/prepare_scale_inv_ini.py:231-439 | the whole function equals the specification `InitialNodeDetails` for every cluster type and zone count |
| NodeRoleProperties.OneRecordPerAddress | resources/common/scripts/prepare_scale_inv_ini.py:231-439 | one record per address in input order (descriptor, storage, compute), except that a negative leftover drops every compute address |
| NodeRoleProperties.ListNodesConsistent | resources/common/scripts/prepare_scale_inv_ini.py:242-274 | in every list record the GUI node is also quorum, manager, collector and admin, a manager is a quorum node, and NSD servers are exactly the records not of class computenodegrp |
| NodeRoleProperties.AllRecordsConsistent | resources/common/scripts/prepare_scale_inv_ini.py:231-439 | every record of every topology satisfies those role implications |
| NodeRoleProperties.GuiCountAroundList | resources/common/scripts/prepare_scale_inv_ini.py:310-437 | descriptor records before a role list and GUI-free records after it leave the list's single GUI node (or none) as the only one |
| NodeRoleProperties.RecordClasses | resources/common/scripts/prepare_scale_inv_ini.py:310-437 | records are classed by position: computedescnodegrp for the descriptors, the list's class for the role list, computenodegrp for the combined compute records |
| NodeRoleProperties.ManagersAreCollectors | resources/common/scripts/prepare_scale_inv_ini.py:243-262 | with two manager slots a node is a manager exactly when it is a collector |
| NodeRoleProperties.ListFlagsAtPositions | resources/common/scripts/prepare_scale_inv_ini.py:242-274 | with distinct addresses each record's flags are those of its own position |
| NodeRoleProperties.GuiIsFirstNode | resources/common/scripts/prepare_scale_inv_ini.py:245-252 | only position 0 can be the GUI node; a list has one GUI node or none; the reported GUI address is that node's |
| NodeRoleProperties.AtMostTwoManagersAndCollectors | resources/common/scripts/prepare_scale_inv_ini.py:243-262 | with two manager slots at most two managers and two collectors, at positions 0 and 1 |
| NodeRoleProperties.ListQuorumCount | resources/common/scripts/prepare_scale_inv_ini.py:241-274 | a list gets min(threshold + 1, length) quorum nodes |
| NodeRoleProperties.DescriptorsThenStorageQuorum | resources/common/scripts/prepare_scale_inv_ini.py:310-357 | descriptor records followed by a storage list (multi-zone storage or combined) hold every descriptor plus min(threshold + 1, storage) quorum nodes |
| NodeRoleProperties.ComputeQuorumNodes | resources/common/scripts/prepare_scale_inv_ini.py:240-274 | a compute cluster gets min(quorum, compute) quorum nodes |
| NodeRoleProperties.SingleAzStorageQuorumNodes | resources/common/scripts/prepare_scale_inv_ini.py:275-309 | a one-zone storage cluster gets min(quorum, storage) quorum nodes |
| NodeRoleProperties.MultiAzStorageQuorumNodes | resources/common/scripts/prepare_scale_inv_ini.py:310-357 | a multi-zone storage cluster makes every descriptor node quorum and adds min(quorum - 1, storage) storage quorum nodes |
| NodeRoleProperties.CombinedMultiAzQuorum | resources/common/scripts/prepare_scale_inv_ini.py:358-437 | a multi-zone combined cluster has every descriptor node quorum, min(quorum - 1, storage) quorum storage nodes and, when the leftover is positive, min(leftover, compute) quorum compute nodes; a negative leftover adds none |
| NodeRoleProperties.CombinedComputeRoles | resources/common/scripts/prepare_scale_inv_ini.py:416-437 | with a leftover >= 0 the first `leftover` compute nodes are quorum and admin, the rest have no role, min(leftover, compute) join the quorum |
| NodeRoleProperties.CombinedSingleAzQuorum | resources/common/scripts/prepare_scale_inv_ini.py:358-437 | a one-zone combined cluster has every descriptor node quorum plus min(quorum, storage + compute) quorum nodes among storage then compute: len(desc) + min(quorum, storage + compute) in all |
| Disks.ThirdOctet | resources/common/scripts/prepare_scale_inv_ini.py:469-473 | the subnet read from an address is a 1-3 digit decimal string |
| Disks.ThirdOctetOfQuad | resources/common/scripts/prepare_scale_inv_ini.py:469-473 | the subnet read from a dotted quad a.b.c.d is c |
| Disks.WithSubnetMembers | resources/common/scripts/prepare_scale_inv_ini.py:471-476 | an address goes to the first group iff its subnet matches the first address's, to the second iff not |
| Disks.WithSubnetSizes | resources/common/scripts/prepare_scale_inv_ini.py:471-476 | the two subnet groups together are as long as the address list |
| Disks.FailureGroups | resources/common/scripts/prepare_scale_inv_ini.py:461-476 | every address lands in a group and the sizes add up; one zone: the halves concatenate back to the list, the first has length/2 and the second at most one more; several zones: the first address is in group 1 and the groups are disjoint |
| Disks.DeviceEntries | resources/common/scripts/prepare_scale_inv_ini.py:490-500 | one entry per device |
| Disks.SplitFailureGroups | resources/common/scripts/prepare_scale_inv_ini.py:455-476 | the split loop computes `FailureGroups` |
| Disks.AppendAddressEntries | resources/common/scripts/prepare_scale_inv_ini.py:490-500 | the two device loops of one address append its group-1 entries then its group-2 entries |
| Disks.CollectDataDisks | resources/common/scripts/prepare_scale_inv_ini.py:490-500 | the walk over the mapping appends each address's entries in mapping order |
| Disks.DescDisk | resources/common/scripts/prepare_scale_inv_ini.py:503-507 | at most one entry, present iff there is a descriptor address: group 3, `descOnly`, system pool, served by the first descriptor address, with one of its devices |
| Disks.GetDisksList | resources/common/scripts/prepare_scale_inv_ini.py:455-508 | the function computes `DisksList` |
| DiskProperties.GroupAt | resources/common/scripts/prepare_scale_inv_ini.py:461-476 | every address has failure group 1 or 2; across zones the first address has group 1 |
| DiskProperties.DisksByPosition | resources/common/scripts/prepare_scale_inv_ini.py:490-500 | one `dataAndMetadata` entry in the system pool per device, each in group 1 or 2 |
| DiskProperties.GroupMembership | resources/common/scripts/prepare_scale_inv_ini.py:461-476 | with distinct addresses, membership in the script's group lists is exactly the positional or subnet group |
| DiskProperties.AddressEntriesPositional | resources/common/scripts/prepare_scale_inv_ini.py:490-500 | testing one address against both group lists yields its devices once, tagged with its own group |
| DiskProperties.WalkIsPositional | resources/common/scripts/prepare_scale_inv_ini.py:490-500 | a walk over group lists that tag every address correctly yields the entries by position |
| DiskProperties.DataDisksArePositional | resources/common/scripts/prepare_scale_inv_ini.py:490-500 | the walk that tests each address against both group lists yields each device once with its group |
| DiskProperties.DisksListShape | resources/common/scripts/prepare_scale_inv_ini.py:455-508 | the data entries come first in mapping order; a descriptor entry (first device of the first descriptor address, group 3) comes last iff there is a descriptor address; group 3 iff `descOnly`; all in the system pool |
| ScaleConfig.InitializeScaleConfigDetails | resources/common/scripts/prepare_scale_inv_ini.py:442-452 | one entry per node class in order, each with the single parameter; the ephemeral port range is 60000-61000 |
| ScaleConfig.StripTrailingSlashes | resources/common/scripts/prepare_scale_inv_ini.py:525 | the path loses only trailing slashes and the result does not end in one |
| ScaleConfig.LastComponent | resources/common/scripts/prepare_scale_inv_ini.py:525 | the name is the slash-free suffix that follows the last slash |
| ScaleConfig.FilesystemName | resources/common/scripts/prepare_scale_inv_ini.py:525 | the filesystem name holds no slash and is empty exactly when the mount point is made of slashes alone |
| ScaleConfig.StrippedEmptyIffSlashes | resources/common/scripts/prepare_scale_inv_ini.py:525 | stripping trailing slashes leaves nothing exactly when the path is all slashes |
| ScaleConfig.FilesystemNameOfMount | resources/common/scripts/prepare_scale_inv_ini.py:525 | a mount point parent/name, with any number of trailing slashes, gives the filesystem name `name` |
| ScaleConfig.ScaleStorageDetails | resources/common/scripts/prepare_scale_inv_ini.py:511-532 | one filesystem named after the mount point carrying the disks unchanged; metadata kept twice; data kept twice iff several zones; automatic mount on |
| Inventory.PrepareInventory | resources/common/scripts/prepare_scale_inv_ini.py:573-798 | the main flow: classification, total, quorum, two managers, pagepool, one pagepool entry per node class, the host records, and disks plus filesystem exactly for storage and combined clusters |
| Inventory.NodeClassesCovered | resources/common/scripts/prepare_scale_inv_ini.py:574-667 | every host record's node class has a pagepool entry, given no descriptor node in one zone |
| Inventory.ComputeClusterGui | resources/common/scripts/prepare_scale_inv_ini.py:240-252 | a compute cluster with a positive quorum has one GUI node, its first address, which is reported |
| Inventory.StorageClusterGui | resources/common/scripts/prepare_scale_inv_ini.py:275-357 | a storage cluster whose threshold reaches position 0 has one GUI node, its first storage address, which is reported |
| Inventory.CombinedStorageGui | resources/common/scripts/prepare_scale_inv_ini.py:358-403 | a combined cluster whose storage threshold reaches position 0 has one GUI node, its first storage address, and reports no GUI address |
| Inventory.CombinedClusterGui | resources/common/scripts/prepare_scale_inv_ini.py:645-667 | a deployment with compute and storage nodes is combined and has exactly one GUI node, the first storage address, with no GUI address reported |
| Inventory.OneGuiNode | resources/common/scripts/prepare_scale_inv_ini.py:672-730 | a compute-only or storage-only deployment always gets exactly one GUI node, and it is the reported address |
| Inventory.ComputeNodeDropped | resources/common/scripts/prepare_scale_inv_ini.py:404-437 | one compute, three storage and one descriptor node across two zones: combined, quorum 3, leftover -1, and the compute node gets no host record |
| Inventory.OrdinaryDeploymentSizing | resources/common/scripts/prepare_scale_inv_ini.py:672-694 | four compute, five storage and one descriptor node over two zones: combined, total 10, quorum 5, and the storage side leaves a leftover of -1 |
| Inventory.OrdinaryDeploymentDropsCompute | resources/common/scripts/prepare_scale_inv_ini.py:404-437 | for any addresses with those counts the host records are exactly the descriptor then storage addresses (six records), so none of the four compute nodes gets one |
| Inventory.DescriptorClassWithoutPagepool | resources/common/scripts/prepare_scale_inv_ini.py:645-667 | one compute, one storage and one descriptor node in one zone: combined, the first host record is of class computedescnodegrp, and that class has no pagepool entry |
| Inventory.LoneStorageNodeWithoutQuorum | resources/common/scripts/prepare_scale_inv_ini.py:358-403 | one storage node over two zones without a descriptor node: combined, quorum count 1, and the node is neither quorum nor GUI, so the cluster has no quorum node |
| Inventory.TieBreakersExceedQuorum | resources/common/scripts/prepare_scale_inv_ini.py:358-403 | two storage and three descriptor nodes over two zones: storage, quorum count 3, yet five quorum nodes, because every descriptor node is quorum |
| Inventory.ReplicasFollowReplicaConfig | resources/common/scripts/prepare_scale_inv_ini.py:511-521 | for storage and combined clusters the filesystem keeps data twice exactly when replication is configured |

## Left out

- File I/O: reading the provisioning JSON, the cleanup of old files, writing
  the inventory, the group variables and the GUI side file. The GUI address
  that the script writes to a side file is returned as data (`NodeDetails.gui`).
- Command-line parsing, the four playbook templates, `initialize_cluster_details`,
  the host-line rendering of `get_host_format` and the SSH/bastion arguments.
  These are string templating with no decisions beyond the arguments.
- The `user` and `key_file` fields of every host record. They are constant
  across the records.
- The `storage_instances` interleaving in `get_disks_list`. It is computed
  and never used.
- Sizing.CalculatePagepool: returns the number of GB; the `"{}G"` formatting
  and the string-to-int parsing of the arguments are not modelled. The three
  float products (x 1.048576, x 0.001 and x 0.01) are modelled as exact
  rational products truncated toward zero, so float rounding at an exact
  integer boundary is not captured.
- Disks.GetDisksList: whenever the zone count is not 1 (several zones, and
  also zero), it requires a non-empty disk mapping and every storage address
  to be a dotted quad of 1-3 digit octets. The script's regex search also
  accepts an address with extra text around it. An empty mapping makes the
  script raise IndexError when it reads the first address, an address with
  no match makes it raise, and an empty first descriptor device list makes
  it raise too; the model requires none of these to happen.
- Inventory.PrepareInventory: requires the disk inputs to be readable as in
  `Disks.GetDisksList` when the cluster is not compute-only.
- ScaleConfig.FilesystemName: `PurePath` also drops `.` components and
  collapses repeated slashes; the model only strips trailing slashes and takes
  the last component.
- NodeRoles.InitialNodeDetails: `storage` with zero zones emits no record,
  as the script does. The main flow never passes that case.
- Per-position role lemmas (`ListFlagsAtPositions`, `GuiIsFirstNode` and
  those built on them) require distinct addresses. With a repeated address
  the script's `list.index` gives every copy the first copy's roles.
  `RoleAt` and `IndexOf` model that case too.
