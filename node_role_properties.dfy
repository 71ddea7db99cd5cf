/** What the role assignment guarantees: one record per address in list
    order (except the dropped compute nodes of a combined cluster), the
    role implications, where the GUI node sits, how many managers,
    collectors and quorum nodes each list gets. */
module NodeRoleProperties {
  import opened Cluster
  import opened NodeRoles

  function Addresses(nodes: seq<Node>): seq<string>
  {
    seq(|nodes|, j requires 0 <= j < |nodes| => nodes[j].address)
  }

  function QuorumFlags(nodes: seq<Node>): seq<bool>
  {
    seq(|nodes|, j requires 0 <= j < |nodes| => nodes[j].isQuorum)
  }

  function ManagerFlags(nodes: seq<Node>): seq<bool>
  {
    seq(|nodes|, j requires 0 <= j < |nodes| => nodes[j].isManager)
  }

  function CollectorFlags(nodes: seq<Node>): seq<bool>
  {
    seq(|nodes|, j requires 0 <= j < |nodes| => nodes[j].isCollector)
  }

  function GuiFlags(nodes: seq<Node>): seq<bool>
  {
    seq(|nodes|, j requires 0 <= j < |nodes| => nodes[j].isGui)
  }

  /** The role implications every record satisfies: the GUI node is also
      quorum, manager, collector and admin; a manager is a quorum node; NSD
      servers are exactly the storage and descriptor nodes. */
  predicate Consistent(n: Node)
  {
    && (n.isGui ==> n.isQuorum && n.isManager && n.isCollector && n.isAdmin)
    && (n.isManager ==> n.isQuorum)
    && (n.isNsd <==> n.nodeClass != ComputeNodeGrp)
  }

  lemma AddressesAppend(a: seq<Node>, b: seq<Node>)
    ensures Addresses(a + b) == Addresses(a) + Addresses(b)
  {
  }

  // ---------------------------------------------------------------------
  // One record per address, in order

  /** `initialize_node_details` emits one record per input address, in
      input order: descriptor nodes, then storage nodes, then compute nodes.
      The one exception is a combined cluster whose quorum shortfall is
      negative, which emits no compute record at all. */
  lemma OneRecordPerAddress(azCount: nat, clusterType: ClusterType,
                            compute: seq<string>, storage: seq<string>, desc: seq<string>,
                            quorumCount: nat, managerCount: nat)
    ensures Addresses(InitialNodeDetails(azCount, clusterType, compute, storage, desc, quorumCount, managerCount).nodes)
            == match clusterType
               case Compute => compute
               case Storage => if azCount == 1 then storage else if azCount > 1 then desc + storage else []
               case Combined =>
                 if QuorumsLeft(azCount, |storage|, |desc|, quorumCount) >= 0 then desc + storage + compute
                 else desc + storage
  {
    var t := StorageStartQuorum(azCount, quorumCount);
    var left := QuorumsLeft(azCount, |storage|, |desc|, quorumCount);
    assert Addresses(DescriptorNodes(desc)) == desc;
    assert Addresses(CombinedComputeNodes(compute, left)) == if left >= 0 then compute else [];
    match clusterType
    case Compute =>
      assert Addresses(ListNodes(ComputeList, compute, quorumCount - 1, managerCount)) == compute;
    case Storage =>
      if azCount == 1 {
        assert Addresses(ListNodes(SingleAzStorageList, storage, quorumCount - 1, managerCount)) == storage;
      } else if azCount > 1 {
        var s := ListNodes(MultiAzStorageList, storage, t, managerCount);
        assert Addresses(s) == storage;
        AddressesAppend(DescriptorNodes(desc), s);
      }
    case Combined =>
      var s := ListNodes(CombinedStorageList, storage, t, managerCount);
      assert Addresses(s) == storage;
      AddressesAppend(DescriptorNodes(desc), s);
      AddressesAppend(DescriptorNodes(desc) + s, CombinedComputeNodes(compute, left));
  }

  // ---------------------------------------------------------------------
  // Role implications

  lemma ListNodesConsistent(branch: ListBranch, addrs: seq<string>, startQuorum: int, managerCount: int)
    ensures forall j :: 0 <= j < |addrs| ==> Consistent(ListNodes(branch, addrs, startQuorum, managerCount)[j])
  {
  }

  /** Every record of every topology satisfies the role implications. */
  lemma AllRecordsConsistent(azCount: nat, clusterType: ClusterType,
                             compute: seq<string>, storage: seq<string>, desc: seq<string>,
                             quorumCount: nat, managerCount: nat)
    ensures var nodes := InitialNodeDetails(azCount, clusterType, compute, storage, desc, quorumCount, managerCount).nodes;
            forall j :: 0 <= j < |nodes| ==> Consistent(nodes[j])
  {
    var t := StorageStartQuorum(azCount, quorumCount);
    var left := QuorumsLeft(azCount, |storage|, |desc|, quorumCount);
    var d := DescriptorNodes(desc);
    var c := CombinedComputeNodes(compute, left);
    assert forall j :: 0 <= j < |d| ==> Consistent(d[j]);
    assert forall j :: 0 <= j < |c| ==> Consistent(c[j]);
    ListNodesConsistent(ComputeList, compute, quorumCount - 1, managerCount);
    ListNodesConsistent(SingleAzStorageList, storage, quorumCount - 1, managerCount);
    ListNodesConsistent(MultiAzStorageList, storage, t, managerCount);
    ListNodesConsistent(CombinedStorageList, storage, t, managerCount);
    var s := ListNodes(CombinedStorageList, storage, t, managerCount);
    var all := d + s + c;
    forall j | 0 <= j < |all| && clusterType == Combined ensures Consistent(all[j]) {
      if j < |d| { assert all[j] == d[j]; }
      else if j < |d| + |s| { assert all[j] == s[j - |d|]; }
      else { assert all[j] == c[j - |d| - |s|]; }
    }
  }

  /** With two manager slots the "third manager" sub-branches of the
      compute and single-zone storage loops are never taken: in every loop
      a node is a manager exactly when it is a collector. */
  lemma ManagersAreCollectors(branch: ListBranch, address: string, i: nat, startQuorum: int)
    ensures var n := RoleAt(branch, address, i, startQuorum, 2); n.isManager <==> n.isCollector
  {
  }

  // ---------------------------------------------------------------------
  // Counting roles within one list (addresses assumed distinct)

  lemma ListFlagsAtPositions(branch: ListBranch, addrs: seq<string>, startQuorum: int, managerCount: int)
    requires Distinct(addrs)
    ensures var nodes := ListNodes(branch, addrs, startQuorum, managerCount);
            forall j :: 0 <= j < |nodes| ==> nodes[j] == RoleAt(branch, addrs[j], j, startQuorum, managerCount)
  {
    forall j | 0 <= j < |addrs| {
      IndexOfDistinct(addrs, j);
    }
  }

  /** The GUI flag sits on position 0 only, and exactly when position 0 is
      within the quorum threshold: a non-empty list has one GUI node or
      none. The address the loop reports is that node's. */
  lemma GuiIsFirstNode(branch: ListBranch, addrs: seq<string>, startQuorum: int, managerCount: int)
    requires Distinct(addrs)
    ensures var nodes := ListNodes(branch, addrs, startQuorum, managerCount);
            && (forall j :: 0 <= j < |nodes| && nodes[j].isGui ==> j == 0 && 0 <= startQuorum)
            && CountTrue(GuiFlags(nodes)) == (if |addrs| > 0 && 0 <= startQuorum && 0 < managerCount then 1 else 0)
            && (ListGui(branch, addrs, startQuorum, managerCount).Some? <==>
                  branch != CombinedStorageList && exists j :: 0 <= j < |nodes| && nodes[j].isGui)
            && (ListGui(branch, addrs, startQuorum, managerCount).Some? ==>
                  nodes[0].isGui && ListGui(branch, addrs, startQuorum, managerCount).value.address == nodes[0].address)
  {
    var nodes := ListNodes(branch, addrs, startQuorum, managerCount);
    ListFlagsAtPositions(branch, addrs, startQuorum, managerCount);
    var k := if 0 <= startQuorum && 0 < managerCount then 1 else 0;
    CountTruePrefix(GuiFlags(nodes), k);
  }

  /** Descriptor records before a role list, and records without a GUI
      flag after it, leave the list's GUI count unchanged. */
  lemma GuiCountAroundList(desc: seq<string>, branch: ListBranch, addrs: seq<string>, startQuorum: int,
                           managerCount: int, rest: seq<Node>)
    requires Distinct(addrs)
    requires forall j :: 0 <= j < |rest| ==> !rest[j].isGui
    ensures CountTrue(GuiFlags(DescriptorNodes(desc) + ListNodes(branch, addrs, startQuorum, managerCount) + rest))
            == (if |addrs| > 0 && 0 <= startQuorum && 0 < managerCount then 1 else 0)
  {
    var d := DescriptorNodes(desc);
    var s := ListNodes(branch, addrs, startQuorum, managerCount);
    GuiIsFirstNode(branch, addrs, startQuorum, managerCount);
    CountTruePrefix(GuiFlags(d), 0);
    CountTruePrefix(GuiFlags(rest), 0);
    assert GuiFlags(d + s + rest) == GuiFlags(d) + GuiFlags(s) + GuiFlags(rest);
    CountTrueAppend(GuiFlags(d), GuiFlags(s));
    CountTrueAppend(GuiFlags(d) + GuiFlags(s), GuiFlags(rest));
  }

  /** The node class of every record by position: the descriptor records
      first, then the role list, then records of class computenodegrp. */
  lemma RecordClasses(desc: seq<string>, branch: ListBranch, addrs: seq<string>, startQuorum: int,
                      managerCount: int, rest: seq<Node>)
    requires forall j :: 0 <= j < |rest| ==> rest[j].nodeClass == ComputeNodeGrp
    ensures var nodes := DescriptorNodes(desc) + ListNodes(branch, addrs, startQuorum, managerCount) + rest;
            forall j :: 0 <= j < |nodes| ==>
              nodes[j].nodeClass == (if j < |desc| then ComputeDescNodeGrp
                                     else if j < |desc| + |addrs| then ClassOf(branch)
                                     else ComputeNodeGrp)
  {
    var d := DescriptorNodes(desc);
    var s := ListNodes(branch, addrs, startQuorum, managerCount);
    var nodes := d + s + rest;
    forall j | 0 <= j < |nodes|
      ensures nodes[j].nodeClass == (if j < |desc| then ComputeDescNodeGrp
                                     else if j < |desc| + |addrs| then ClassOf(branch)
                                     else ComputeNodeGrp)
    {
      if j < |d| { assert nodes[j] == d[j]; }
      else if j < |d| + |s| { assert nodes[j] == s[j - |d|]; }
      else { assert nodes[j] == rest[j - |d| - |s|]; }
    }
  }

  /** With two manager slots a list has at most two managers and at most
      two collectors, all of them at positions 0 and 1. */
  lemma AtMostTwoManagersAndCollectors(branch: ListBranch, addrs: seq<string>, startQuorum: int)
    requires Distinct(addrs)
    ensures var nodes := ListNodes(branch, addrs, startQuorum, 2);
            && (forall j :: 0 <= j < |nodes| && (nodes[j].isManager || nodes[j].isCollector) ==> j < 2)
            && CountTrue(ManagerFlags(nodes)) <= 2
            && CountTrue(CollectorFlags(nodes)) <= 2
  {
    var nodes := ListNodes(branch, addrs, startQuorum, 2);
    ListFlagsAtPositions(branch, addrs, startQuorum, 2);
    CountTrueBelow(ManagerFlags(nodes), 2);
    CountTrueBelow(CollectorFlags(nodes), 2);
  }

  /** A list loop makes quorum nodes of positions 0 to `startQuorum`. */
  lemma ListQuorumCount(branch: ListBranch, addrs: seq<string>, startQuorum: int, managerCount: int)
    requires Distinct(addrs)
    ensures CountTrue(QuorumFlags(ListNodes(branch, addrs, startQuorum, managerCount)))
            == Max(Min(startQuorum + 1, |addrs|), 0)
  {
    var nodes := ListNodes(branch, addrs, startQuorum, managerCount);
    ListFlagsAtPositions(branch, addrs, startQuorum, managerCount);
    CountTruePrefix(QuorumFlags(nodes), startQuorum + 1);
  }

  /** Every descriptor node is quorum and the storage list that follows
      adds `min(threshold + 1, len)`. */
  lemma DescriptorsThenStorageQuorum(branch: ListBranch, desc: seq<string>, storage: seq<string>,
                                     startQuorum: int, managerCount: nat)
    requires Distinct(storage) && startQuorum >= -1
    ensures CountTrue(QuorumFlags(DescriptorNodes(desc) + ListNodes(branch, storage, startQuorum, managerCount)))
            == |desc| + Min(startQuorum + 1, |storage|)
  {
    var d := DescriptorNodes(desc);
    var s := ListNodes(branch, storage, startQuorum, managerCount);
    ListQuorumCount(branch, storage, startQuorum, managerCount);
    CountTruePrefix(QuorumFlags(d), |desc|);
    assert QuorumFlags(d + s) == QuorumFlags(d) + QuorumFlags(s);
    CountTrueAppend(QuorumFlags(d), QuorumFlags(s));
  }

  /** A compute cluster gets `min(quorum_count, len)` quorum nodes. */
  lemma ComputeQuorumNodes(azCount: nat, compute: seq<string>, storage: seq<string>, desc: seq<string>,
                           quorumCount: nat, managerCount: nat)
    requires Distinct(compute)
    ensures CountTrue(QuorumFlags(InitialNodeDetails(azCount, Compute, compute, storage, desc, quorumCount, managerCount).nodes))
            == Min(quorumCount, |compute|)
  {
    ListQuorumCount(ComputeList, compute, quorumCount - 1, managerCount);
  }

  /** A single-zone storage cluster gets `min(quorum_count, len)` quorum
      nodes. */
  lemma SingleAzStorageQuorumNodes(compute: seq<string>, storage: seq<string>, desc: seq<string>,
                                   quorumCount: nat, managerCount: nat)
    requires Distinct(storage)
    ensures CountTrue(QuorumFlags(InitialNodeDetails(1, Storage, compute, storage, desc, quorumCount, managerCount).nodes))
            == Min(quorumCount, |storage|)
  {
    ListQuorumCount(SingleAzStorageList, storage, quorumCount - 1, managerCount);
  }

  /** Across zones every descriptor node of a storage cluster is quorum and
      the storage list adds `min(quorum_count - 1, len)`. */
  lemma MultiAzStorageQuorumNodes(azCount: nat, compute: seq<string>, storage: seq<string>, desc: seq<string>,
                                  quorumCount: nat, managerCount: nat)
    requires Distinct(storage) && azCount > 1 && quorumCount >= 1
    ensures CountTrue(QuorumFlags(InitialNodeDetails(azCount, Storage, compute, storage, desc, quorumCount, managerCount).nodes))
            == |desc| + Min(quorumCount - 1, |storage|)
  {
    var t := StorageStartQuorum(azCount, quorumCount);
    DescriptorsThenStorageQuorum(MultiAzStorageList, desc, storage, t, managerCount);
  }

  /** Across zones a combined cluster makes every descriptor node quorum,
      then `min(quorum_count - 1, len)` storage nodes, then the first
      `left` compute nodes when the leftover is positive; a negative
      leftover drops the compute records and adds none. */
  lemma CombinedMultiAzQuorum(azCount: nat, compute: seq<string>, storage: seq<string>, desc: seq<string>,
                              quorumCount: nat, managerCount: nat)
    requires Distinct(storage) && azCount > 1 && quorumCount >= 1
    ensures var left := QuorumsLeft(azCount, |storage|, |desc|, quorumCount);
            CountTrue(QuorumFlags(InitialNodeDetails(azCount, Combined, compute, storage, desc, quorumCount, managerCount).nodes))
            == |desc| + Min(quorumCount - 1, |storage|) + (if left > 0 then Min(left, |compute|) else 0)
  {
    var t := StorageStartQuorum(azCount, quorumCount);
    var left := QuorumsLeft(azCount, |storage|, |desc|, quorumCount);
    var ds := DescriptorNodes(desc) + ListNodes(CombinedStorageList, storage, t, managerCount);
    var c := CombinedComputeNodes(compute, left);
    DescriptorsThenStorageQuorum(CombinedStorageList, desc, storage, t, managerCount);
    if left >= 0 {
      CombinedComputeRoles(compute, left);
      assert QuorumFlags(ds + c) == QuorumFlags(ds) + QuorumFlags(c);
      CountTrueAppend(QuorumFlags(ds), QuorumFlags(c));
    } else {
      assert ds + c == ds;
    }
  }

  /** The compute records of a combined cluster with a shortfall of
      `left >= 0`: the first `left` are quorum and admin and nothing else,
      every later one has no role, so `min(left, len)` compute nodes join
      the quorum. */
  lemma CombinedComputeRoles(compute: seq<string>, left: int)
    requires left >= 0
    ensures var nodes := CombinedComputeNodes(compute, left);
            && Addresses(nodes) == compute
            && (forall j :: 0 <= j < |nodes| ==>
                  (nodes[j].isQuorum <==> j < left) && (nodes[j].isAdmin <==> j < left)
                  && !nodes[j].isManager && !nodes[j].isGui && !nodes[j].isCollector && !nodes[j].isNsd)
            && CountTrue(QuorumFlags(nodes)) == Min(left, |compute|)
  {
    CountTruePrefix(QuorumFlags(CombinedComputeNodes(compute, left)), left);
  }

  /** A single-zone combined cluster makes every descriptor node quorum
      (the descriptor loop runs whatever the zone count) and fills the
      quorum from storage first and compute second: it ends up with
      `len(desc) + min(quorum_count, storage + compute)` quorum nodes. */
  lemma CombinedSingleAzQuorum(compute: seq<string>, storage: seq<string>, desc: seq<string>,
                               quorumCount: nat, managerCount: nat)
    requires Distinct(storage)
    ensures CountTrue(QuorumFlags(InitialNodeDetails(1, Combined, compute, storage, desc, quorumCount, managerCount).nodes))
            == |desc| + Min(quorumCount, |storage| + |compute|)
  {
    var t := StorageStartQuorum(1, quorumCount);
    var left := QuorumsLeft(1, |storage|, |desc|, quorumCount);
    var ds := DescriptorNodes(desc) + ListNodes(CombinedStorageList, storage, t, managerCount);
    var c := CombinedComputeNodes(compute, left);
    DescriptorsThenStorageQuorum(CombinedStorageList, desc, storage, t, managerCount);
    CombinedComputeRoles(compute, left);
    assert QuorumFlags(ds + c) == QuorumFlags(ds) + QuorumFlags(c);
    CountTrueAppend(QuorumFlags(ds), QuorumFlags(c));
  }
}
