/** Role assignment (`initialize_node_details`): walk the ordered address
    lists of a cluster and give each node its quorum, manager, GUI,
    collector, NSD-server and admin flags and its node class. */
module NodeRoles {
  import opened Cluster

  datatype Node = Node(
    address: string,
    isQuorum: bool,
    isManager: bool,
    isGui: bool,
    isCollector: bool,
    isNsd: bool,
    isAdmin: bool,
    nodeClass: NodeClass)

  /** The four role loops of the script. They share one shape and differ in
      small ways: the single-zone storage loop makes its third and later
      managers collectors instead of managers; the multi-zone and combined
      storage loops make every quorum node an admin node; the combined loop
      does not report its GUI node. */
  datatype ListBranch =
    | ComputeList          // compute-only cluster
    | SingleAzStorageList  // storage-only cluster in one zone
    | MultiAzStorageList   // storage-only cluster across zones
    | CombinedStorageList  // storage nodes of a combined cluster

  /** The address written to the GUI side file, with its key. */
  datatype GuiReport = GuiReport(key: string, address: string)

  /** The result: the host records in emission order, and the GUI address
      the script writes to a side file while it walks the lists. */
  datatype NodeDetails = NodeDetails(nodes: seq<Node>, gui: Option<GuiReport>)

  /** `list.index(x)`: the position of the first occurrence. */
  function IndexOf(s: seq<string>, x: string): (i: nat)
    requires x in s
    ensures i < |s| && s[i] == x
    ensures x !in s[..i]
  {
    if s[0] == x then 0
    else
      var i := 1 + IndexOf(s[1..], x);
      assert s[..i] == [s[0]] + s[1..][..i - 1];
      i
  }

  /** Without repeated addresses, the first occurrence is the position. */
  lemma {:induction false} IndexOfDistinct(s: seq<string>, j: nat)
    requires Distinct(s) && j < |s|
    ensures IndexOf(s, s[j]) == j
  {
    if j > 0 {
      assert s[0] != s[j];
      assert Distinct(s[1..]) by {
        forall a, b | 0 <= a < b < |s[1..]| ensures s[1..][a] != s[1..][b] {
          assert s[1..][a] == s[a + 1] && s[1..][b] == s[b + 1];
        }
      }
      assert s[1..][j - 1] == s[j];
      IndexOfDistinct(s[1..], j - 1);
    }
  }

  function ClassOf(branch: ListBranch): NodeClass
  {
    if branch == ComputeList then ComputeNodeGrp else StorageNodeGrp
  }

  /** The record a list loop writes for a node whose address first occurs
      at position `i`, with quorum threshold `startQuorum` (the last index
      that gets quorum) and `managerCount` manager-eligible slots. */
  function RoleAt(branch: ListBranch, address: string, i: nat, startQuorum: int, managerCount: int): (n: Node)
    ensures n.address == address && n.nodeClass == ClassOf(branch)
    ensures n.isNsd <==> branch != ComputeList
    ensures n.isQuorum <==> i <= startQuorum
    ensures n.isGui <==> i == 0 && 0 <= startQuorum && 0 < managerCount
    ensures n.isManager <==>
              i <= startQuorum && i < managerCount && (branch == SingleAzStorageList ==> i <= 1)
    ensures n.isCollector <==>
              i <= startQuorum && i < managerCount && (branch != SingleAzStorageList ==> i <= 1)
    ensures n.isAdmin <==>
              if branch == MultiAzStorageList || branch == CombinedStorageList then n.isQuorum else n.isGui
  {
    var nsd := branch != ComputeList;
    var spread := branch == MultiAzStorageList || branch == CombinedStorageList;
    var cls := ClassOf(branch);
    if i <= startQuorum && i <= managerCount - 1 then
      if i == 0 then
        Node(address, true, true, true, true, nsd, true, cls)
      else if i == 1 then
        Node(address, true, true, false, true, nsd, spread, cls)
      else if branch == SingleAzStorageList then
        Node(address, true, false, false, true, nsd, false, cls)
      else
        Node(address, true, true, false, false, nsd, spread, cls)
    else if i <= startQuorum then
      Node(address, true, false, false, false, nsd, spread, cls)
    else
      Node(address, false, false, false, false, nsd, false, cls)
  }

  /** The records one list loop emits, in list order. */
  function ListNodes(branch: ListBranch, addrs: seq<string>, startQuorum: int, managerCount: int): seq<Node>
  {
    seq(|addrs|, j requires 0 <= j < |addrs| =>
      RoleAt(branch, addrs[j], IndexOf(addrs, addrs[j]), startQuorum, managerCount))
  }

  function GuiLabel(branch: ListBranch): string
  {
    if branch == ComputeList then "compute_cluster_gui_ip_address"
    else "storage_cluster_gui_ip_address"
  }

  /** What a list loop writes to the GUI side file: the first address, when
      position 0 takes the GUI branch and the loop writes at all. */
  function ListGui(branch: ListBranch, addrs: seq<string>, startQuorum: int, managerCount: int): (gui: Option<GuiReport>)
    ensures gui.Some? <==>
              branch != CombinedStorageList && addrs != [] && RoleAt(branch, addrs[0], 0, startQuorum, managerCount).isGui
    ensures gui.Some? ==> gui.value.address == addrs[0] && gui.value.key == GuiLabel(branch)
  {
    if branch != CombinedStorageList && |addrs| > 0 && 0 <= startQuorum && 0 < managerCount
    then Some(GuiReport(GuiLabel(branch), addrs[0]))
    else None
  }

  /** A descriptor (tie-breaker) node: quorum and NSD server only. */
  function DescriptorNode(address: string): (n: Node)
    ensures n.address == address && n.isQuorum && n.isNsd
    ensures !n.isManager && !n.isGui && !n.isCollector && !n.isAdmin
    ensures n.nodeClass == ComputeDescNodeGrp
  {
    Node(address, true, false, false, false, true, false, ComputeDescNodeGrp)
  }

  function DescriptorNodes(addrs: seq<string>): seq<Node>
  {
    seq(|addrs|, j requires 0 <= j < |addrs| => DescriptorNode(addrs[j]))
  }

  /** A compute node of a combined cluster: quorum and admin when it fills
      a quorum slot the storage side left open, otherwise no role. */
  function CombinedComputeNode(address: string, quorum: bool): (n: Node)
    ensures n.address == address && n.nodeClass == ComputeNodeGrp
    ensures n.isQuorum == quorum && n.isAdmin == quorum
    ensures !n.isManager && !n.isGui && !n.isCollector && !n.isNsd
  {
    Node(address, quorum, false, false, false, false, quorum, ComputeNodeGrp)
  }

  /** The quorum slots left for compute nodes after the descriptor and
      storage nodes of a combined cluster. */
  function QuorumsLeft(azCount: nat, storageCount: nat, descCount: nat, quorumCount: nat): (left: int)
    ensures azCount <= 1 ==> left == Max(quorumCount - storageCount, 0)
    ensures azCount > 1 ==>
              left == (if storageCount - descCount >= quorumCount then 0 else quorumCount - storageCount - descCount)
    ensures azCount > 1 ==>
              (left < 0 <==> storageCount < quorumCount + descCount && quorumCount < storageCount + descCount)
    ensures left <= quorumCount
  {
    if azCount > 1 then
      if storageCount - descCount >= quorumCount then 0
      else quorumCount - storageCount - descCount
    else
      if storageCount > quorumCount then 0
      else quorumCount - storageCount
  }

  /** The compute records of a combined cluster: the first `left` get
      quorum and admin, the rest nothing; when `left` is negative neither
      of the script's two loops runs and no compute record is emitted. */
  function CombinedComputeNodes(compute: seq<string>, left: int): (nodes: seq<Node>)
    ensures left < 0 ==> nodes == []
    ensures left >= 0 ==> |nodes| == |compute|
    ensures left >= 0 ==> forall j :: 0 <= j < |nodes| ==>
              nodes[j].address == compute[j] && (nodes[j].isQuorum <==> j < left)
  {
    if left > 0 then
      seq(|compute|, j requires 0 <= j < |compute| => CombinedComputeNode(compute[j], j < left))
    else if left == 0 then
      seq(|compute|, j requires 0 <= j < |compute| => CombinedComputeNode(compute[j], false))
    else
      []
  }

  /** The storage loop's quorum threshold: one slot lower across zones, the
      slot reserved for the descriptor side. */
  function StorageStartQuorum(azCount: nat, quorumCount: nat): (startQuorum: int)
    ensures startQuorum + 1 + (if azCount > 1 then 1 else 0) == quorumCount
  {
    if azCount > 1 then quorumCount - 2 else quorumCount - 1
  }

  /** `initialize_node_details` as a value. */
  function InitialNodeDetails(azCount: nat, clusterType: ClusterType,
                              compute: seq<string>, storage: seq<string>, desc: seq<string>,
                              quorumCount: nat, managerCount: nat): NodeDetails
  {
    match clusterType
    case Compute =>
      NodeDetails(ListNodes(ComputeList, compute, quorumCount - 1, managerCount),
                  ListGui(ComputeList, compute, quorumCount - 1, managerCount))
    case Storage =>
      if azCount == 1 then
        NodeDetails(ListNodes(SingleAzStorageList, storage, quorumCount - 1, managerCount),
                    ListGui(SingleAzStorageList, storage, quorumCount - 1, managerCount))
      else if azCount > 1 then
        var t := StorageStartQuorum(azCount, quorumCount);
        NodeDetails(DescriptorNodes(desc) + ListNodes(MultiAzStorageList, storage, t, managerCount),
                    ListGui(MultiAzStorageList, storage, t, managerCount))
      else
        NodeDetails([], None)
    case Combined =>
      var t := StorageStartQuorum(azCount, quorumCount);
      var left := QuorumsLeft(azCount, |storage|, |desc|, quorumCount);
      NodeDetails(DescriptorNodes(desc) + ListNodes(CombinedStorageList, storage, t, managerCount)
                    + CombinedComputeNodes(compute, left),
                  None)
  }

  // ---------------------------------------------------------------------
  // The loops

  /** The loop reaches the GUI branch at step `k` only for the first
      address, and always does at step 0 when the list reports one. */
  lemma ListGuiStep(branch: ListBranch, addrs: seq<string>, k: nat, startQuorum: int, managerCount: int)
    requires k < |addrs|
    ensures var i := IndexOf(addrs, addrs[k]);
            var hit := i <= startQuorum && i <= managerCount - 1 && i == 0 && branch != CombinedStorageList;
            && (hit ==> ListGui(branch, addrs, startQuorum, managerCount) == Some(GuiReport(GuiLabel(branch), addrs[k])))
            && (k == 0 ==> (hit <==> ListGui(branch, addrs, startQuorum, managerCount).Some?))
  {
  }

  /** One role loop: append a record per address of `addrs` to `acc`. */
  method AppendListRoles(acc: seq<Node>, branch: ListBranch, addrs: seq<string>,
                         startQuorum: int, managerCount: int)
    returns (nodes: seq<Node>, gui: Option<GuiReport>)
    ensures nodes == acc + ListNodes(branch, addrs, startQuorum, managerCount)
    ensures gui == ListGui(branch, addrs, startQuorum, managerCount)
  {
    nodes, gui := acc, None;
    ghost var all := ListNodes(branch, addrs, startQuorum, managerCount);
    var k := 0;
    while k < |addrs|
      invariant 0 <= k <= |addrs|
      invariant nodes == acc + all[..k]
      invariant gui == if k > 0 then ListGui(branch, addrs, startQuorum, managerCount) else None
    {
      var ip := addrs[k];
      var i := IndexOf(addrs, ip);
      var node := RoleAt(branch, ip, i, startQuorum, managerCount);
      ListGuiStep(branch, addrs, k, startQuorum, managerCount);
      if i <= startQuorum && i <= managerCount - 1 && i == 0 && branch != CombinedStorageList {
        gui := Some(GuiReport(GuiLabel(branch), ip));
      }
      assert all[..k + 1] == all[..k] + [node];
      nodes := nodes + [node];
      k := k + 1;
    }
    assert all[..k] == all;
  }

  /** The descriptor loop. */
  method AppendDescriptors(acc: seq<Node>, desc: seq<string>) returns (nodes: seq<Node>)
    ensures nodes == acc + DescriptorNodes(desc)
  {
    nodes := acc;
    var k := 0;
    while k < |desc|
      invariant 0 <= k <= |desc|
      invariant nodes == acc + DescriptorNodes(desc[..k])
    {
      assert DescriptorNodes(desc[..k + 1]) == DescriptorNodes(desc[..k]) + [DescriptorNode(desc[k])];
      nodes := nodes + [DescriptorNode(desc[k])];
      k := k + 1;
    }
    assert desc[..k] == desc;
  }

  /** The two compute loops of a combined cluster, over the slices
      `compute[0:left]` and `compute[left:]`, or the single no-role loop. */
  method AppendCombinedCompute(acc: seq<Node>, compute: seq<string>, left: int) returns (nodes: seq<Node>)
    ensures nodes == acc + CombinedComputeNodes(compute, left)
  {
    nodes := acc;
    if left > 0 {
      var split := Min(left, |compute|);
      var k := 0;
      while k < split
        invariant 0 <= k <= split
        invariant nodes == acc + CombinedComputeNodes(compute[..k], left)
      {
        assert CombinedComputeNodes(compute[..k + 1], left)
            == CombinedComputeNodes(compute[..k], left) + [CombinedComputeNode(compute[k], true)];
        nodes := nodes + [CombinedComputeNode(compute[k], true)];
        k := k + 1;
      }
      while k < |compute|
        invariant split <= k <= |compute|
        invariant nodes == acc + CombinedComputeNodes(compute[..k], left)
      {
        assert CombinedComputeNodes(compute[..k + 1], left)
            == CombinedComputeNodes(compute[..k], left) + [CombinedComputeNode(compute[k], false)];
        nodes := nodes + [CombinedComputeNode(compute[k], false)];
        k := k + 1;
      }
      assert compute[..k] == compute;
    }
    if left == 0 {
      var k := 0;
      while k < |compute|
        invariant 0 <= k <= |compute|
        invariant nodes == acc + CombinedComputeNodes(compute[..k], left)
      {
        assert CombinedComputeNodes(compute[..k + 1], left)
            == CombinedComputeNodes(compute[..k], left) + [CombinedComputeNode(compute[k], false)];
        nodes := nodes + [CombinedComputeNode(compute[k], false)];
        k := k + 1;
      }
      assert compute[..k] == compute;
    }
  }

  /** `initialize_node_details`: the host records of the whole cluster and
      the GUI address reported on the way. */
  method InitializeNodeDetails(azCount: nat, clusterType: ClusterType,
                               compute: seq<string>, storage: seq<string>, desc: seq<string>,
                               quorumCount: nat, managerCount: nat)
    returns (details: NodeDetails)
    ensures details == InitialNodeDetails(azCount, clusterType, compute, storage, desc, quorumCount, managerCount)
  {
    var nodes: seq<Node> := [];
    var gui: Option<GuiReport> := None;
    if clusterType == Compute {
      nodes, gui := AppendListRoles(nodes, ComputeList, compute, quorumCount - 1, managerCount);
    } else if clusterType == Storage && azCount == 1 {
      nodes, gui := AppendListRoles(nodes, SingleAzStorageList, storage, quorumCount - 1, managerCount);
    } else if clusterType == Storage && azCount > 1 {
      nodes := AppendDescriptors(nodes, desc);
      var startQuorum := StorageStartQuorum(azCount, quorumCount);
      nodes, gui := AppendListRoles(nodes, MultiAzStorageList, storage, startQuorum, managerCount);
    } else if clusterType == Combined {
      nodes := AppendDescriptors(nodes, desc);
      var startQuorum := StorageStartQuorum(azCount, quorumCount);
      var unused;
      nodes, unused := AppendListRoles(nodes, CombinedStorageList, storage, startQuorum, managerCount);
      var left := QuorumsLeft(azCount, |storage|, |desc|, quorumCount);
      nodes := AppendCombinedCompute(nodes, compute, left);
    }
    details := NodeDetails(nodes, gui);
  }
}
