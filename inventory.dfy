/** The script's main flow: classify the cluster, size it, assign roles,
    build the tunables record and, for storage and combined clusters, the
    disk list and filesystem record. File reads and writes stay outside. */
module Inventory {
  import opened Cluster
  import opened Sizing
  import opened Topology
  import opened NodeRoles
  import opened NodeRoleProperties
  import opened Disks
  import opened ScaleConfig

  /** The fields of the provisioning output the core reads. */
  datatype ProvisioningOutput = ProvisioningOutput(
    computeIps: seq<string>,          // compute_cluster_instance_private_ips
    storageIps: seq<string>,          // storage_cluster_instance_private_ips
    descIps: seq<string>,             // storage_cluster_desc_instance_private_ips
    azCount: nat,                     // len(vpc_availability_zones)
    dataVolumeMapping: DiskMapping,   // storage_cluster_with_data_volume_mapping
    descVolumeMapping: DiskMapping,   // storage_cluster_desc_data_volume_mapping
    fsMount: string,                  // storage_cluster_filesystem_mountpoint
    blockSize: string)                // filesystem_block_size

  datatype Plan = Plan(
    classification: Classification,
    totalNodeCount: nat,
    quorumCount: nat,
    managerCount: nat,
    pagepoolGb: int,
    scaleConfig: ScaleConfigDetails<int>,
    nodeDetails: NodeDetails,
    storage: Option<seq<FilesystemDetails>>)

  function ClassifyOutput(tf: ProvisioningOutput): Classification
  {
    Classify(|tf.computeIps|, |tf.storageIps|, |tf.descIps|, tf.azCount)
  }

  function TotalOf(tf: ProvisioningOutput): nat
  {
    TotalNodeCount(tf.azCount, |tf.computeIps|, |tf.storageIps|, |tf.descIps|)
  }

  /** The disk inputs are only read for storage and combined clusters. */
  predicate DisksReadable(tf: ProvisioningOutput)
  {
    ClassifyOutput(tf).clusterType != Compute ==>
      DisksInputValid(tf.azCount, tf.dataVolumeMapping, tf.descVolumeMapping)
  }

  /** The main block, steps 2 to 7, without the files. */
  method PrepareInventory(tf: ProvisioningOutput, memorySize: int, maxPagepoolGb: int) returns (plan: Plan)
    requires DisksReadable(tf)
    ensures plan.classification == ClassifyOutput(tf)
    ensures plan.totalNodeCount == TotalOf(tf)
    ensures plan.quorumCount == QuorumCount(TotalOf(tf)) && plan.managerCount == ManagerCount
    ensures plan.pagepoolGb == CalculatePagepool(memorySize, maxPagepoolGb)
    ensures |plan.scaleConfig.scaleConfig| == |plan.classification.nodeClasses|
    ensures forall i :: 0 <= i < |plan.classification.nodeClasses| ==>
              plan.scaleConfig.scaleConfig[i]
              == NodeClassParams(plan.classification.nodeClasses[i], [("pagepool", plan.pagepoolGb)])
    ensures plan.nodeDetails
            == InitialNodeDetails(tf.azCount, plan.classification.clusterType, tf.computeIps, tf.storageIps,
                                  tf.descIps, plan.quorumCount, ManagerCount)
    ensures plan.storage
            == if plan.classification.clusterType == Compute then None
               else Some(ScaleStorageDetails(tf.azCount, tf.fsMount, tf.blockSize,
                                             DisksList(tf.azCount, tf.dataVolumeMapping, tf.descVolumeMapping)))
  {
    var classification := ClassifyOutput(tf);
    var pagepool := CalculatePagepool(memorySize, maxPagepoolGb);
    var config := InitializeScaleConfigDetails(classification.nodeClasses, "pagepool", pagepool);
    var total := TotalOf(tf);
    var quorumCount, managerCount := QuorumCount(total), ManagerCount;
    var details := InitializeNodeDetails(tf.azCount, classification.clusterType, tf.computeIps, tf.storageIps,
                                         tf.descIps, quorumCount, managerCount);
    var storage := None;
    if classification.clusterType == Storage || classification.clusterType == Combined {
      var disks := GetDisksList(tf.azCount, tf.dataVolumeMapping, tf.descVolumeMapping);
      storage := Some(ScaleStorageDetails(tf.azCount, tf.fsMount, tf.blockSize, disks));
    }
    plan := Plan(classification, total, quorumCount, managerCount, pagepool, config, details, storage);
  }

  // ---------------------------------------------------------------------
  // End-to-end properties

  /** Every host record's node class has a pagepool entry in the tunables
      record, provided a single-zone cluster has no descriptor node (a
      single-zone combined cluster lists only the compute and storage
      classes). */
  lemma NodeClassesCovered(tf: ProvisioningOutput)
    requires tf.azCount == 1 ==> tf.descIps == []
    ensures var c := ClassifyOutput(tf);
            var nodes := InitialNodeDetails(tf.azCount, c.clusterType, tf.computeIps, tf.storageIps, tf.descIps,
                                            QuorumCount(TotalOf(tf)), ManagerCount).nodes;
            forall j :: 0 <= j < |nodes| ==> nodes[j].nodeClass in c.nodeClasses
  {
    var c := ClassifyOutput(tf);
    var q := QuorumCount(TotalOf(tf));
    var nodes := InitialNodeDetails(tf.azCount, c.clusterType, tf.computeIps, tf.storageIps, tf.descIps,
                                    q, ManagerCount).nodes;
    var t := StorageStartQuorum(tf.azCount, q);
    match c.clusterType
    case Compute =>
    case Storage =>
      if tf.azCount > 1 {
        var s := ListNodes(MultiAzStorageList, tf.storageIps, t, ManagerCount);
        RecordClasses(tf.descIps, MultiAzStorageList, tf.storageIps, t, ManagerCount, []);
        assert DescriptorNodes(tf.descIps) + s + [] == DescriptorNodes(tf.descIps) + s;
      }
    case Combined =>
      var cc := CombinedComputeNodes(tf.computeIps, QuorumsLeft(tf.azCount, |tf.storageIps|, |tf.descIps|, q));
      RecordClasses(tf.descIps, CombinedStorageList, tf.storageIps, t, ManagerCount, cc);
  }

  /** A non-empty compute list whose quorum count is positive has one GUI
      node, its first address, and reports that address. */
  lemma ComputeClusterGui(azCount: nat, compute: seq<string>, storage: seq<string>, desc: seq<string>,
                          quorumCount: nat)
    requires Distinct(compute) && compute != [] && quorumCount >= 1
    ensures var details := InitialNodeDetails(azCount, Compute, compute, storage, desc, quorumCount, ManagerCount);
            && CountTrue(GuiFlags(details.nodes)) == 1
            && details.gui == Some(GuiReport(GuiLabel(ComputeList), compute[0]))
  {
    var nodes := ListNodes(ComputeList, compute, quorumCount - 1, ManagerCount);
    GuiCountAroundList([], ComputeList, compute, quorumCount - 1, ManagerCount, []);
    assert DescriptorNodes([]) + nodes + [] == nodes;
  }

  /** A non-empty storage list has one GUI node, its first address, and
      reports it, when the quorum threshold reaches position 0: a quorum
      count of 1 in one zone, 2 across zones (the descriptor node takes
      one). */
  lemma StorageClusterGui(azCount: nat, compute: seq<string>, storage: seq<string>, desc: seq<string>,
                          quorumCount: nat)
    requires Distinct(storage) && storage != [] && azCount >= 1
    requires quorumCount >= (if azCount == 1 then 1 else 2)
    ensures var details := InitialNodeDetails(azCount, Storage, compute, storage, desc, quorumCount, ManagerCount);
            && CountTrue(GuiFlags(details.nodes)) == 1
            && details.gui == Some(GuiReport(GuiLabel(SingleAzStorageList), storage[0]))
  {
    if azCount == 1 {
      GuiIsFirstNode(SingleAzStorageList, storage, quorumCount - 1, ManagerCount);
    } else {
      var t := StorageStartQuorum(azCount, quorumCount);
      GuiCountAroundList(desc, MultiAzStorageList, storage, t, ManagerCount, []);
      assert DescriptorNodes(desc) + ListNodes(MultiAzStorageList, storage, t, ManagerCount) + []
          == DescriptorNodes(desc) + ListNodes(MultiAzStorageList, storage, t, ManagerCount);
    }
  }

  /** A combined cluster's storage list has one GUI node, its first
      address, when the threshold reaches position 0; the descriptor and
      compute records have none, and no GUI address is reported. */
  lemma CombinedStorageGui(azCount: nat, compute: seq<string>, storage: seq<string>, desc: seq<string>,
                           quorumCount: nat)
    requires Distinct(storage) && storage != [] && StorageStartQuorum(azCount, quorumCount) >= 0
    ensures var details := InitialNodeDetails(azCount, Combined, compute, storage, desc, quorumCount, ManagerCount);
            && CountTrue(GuiFlags(details.nodes)) == 1
            && |desc| < |details.nodes| && details.nodes[|desc|].isGui && details.nodes[|desc|].address == storage[0]
            && details.gui == None
  {
    var t := StorageStartQuorum(azCount, quorumCount);
    var left := QuorumsLeft(azCount, |storage|, |desc|, quorumCount);
    var s := ListNodes(CombinedStorageList, storage, t, ManagerCount);
    var c := CombinedComputeNodes(compute, left);
    GuiCountAroundList(desc, CombinedStorageList, storage, t, ManagerCount, c);
    ListFlagsAtPositions(CombinedStorageList, storage, t, ManagerCount);
    assert (DescriptorNodes(desc) + s + c)[|desc|] == s[0];
  }

  /** A deployment with both compute and storage nodes is combined and gets
      exactly one GUI node, the first storage address; the combined branch
      reports no GUI address. */
  lemma CombinedClusterGui(tf: ProvisioningOutput)
    requires Distinct(tf.storageIps) && tf.computeIps != [] && tf.storageIps != []
    ensures var c := ClassifyOutput(tf);
            var details := InitialNodeDetails(tf.azCount, c.clusterType, tf.computeIps, tf.storageIps, tf.descIps,
                                              QuorumCount(TotalOf(tf)), ManagerCount);
            && c.clusterType == Combined
            && CountTrue(GuiFlags(details.nodes)) == 1
            && details.nodes[|tf.descIps|].isGui && details.nodes[|tf.descIps|].address == tf.storageIps[0]
            && details.gui == None
  {
    var q := QuorumCount(TotalOf(tf));
    assert TotalOf(tf) >= 2 && q >= 2;
    CombinedStorageGui(tf.azCount, tf.computeIps, tf.storageIps, tf.descIps, q);
  }

  /** A compute-only or storage-only cluster gets exactly one GUI node: the
      first compute (resp. storage) address, which is also the address
      reported for the GUI side file. */
  lemma OneGuiNode(tf: ProvisioningOutput)
    requires Distinct(tf.computeIps) && Distinct(tf.storageIps)
    requires ClassifyOutput(tf).clusterType != Combined
    ensures var c := ClassifyOutput(tf);
            var details := InitialNodeDetails(tf.azCount, c.clusterType, tf.computeIps, tf.storageIps, tf.descIps,
                                              QuorumCount(TotalOf(tf)), ManagerCount);
            && CountTrue(GuiFlags(details.nodes)) == 1
            && details.gui.Some?
            && details.gui.value.address == (if c.clusterType == Compute then tf.computeIps[0] else tf.storageIps[0])
  {
    var c := ClassifyOutput(tf);
    var total := TotalOf(tf);
    var q := QuorumCount(total);
    if c.clusterType == Compute {
      assert total >= 1;
      ComputeClusterGui(tf.azCount, tf.computeIps, tf.storageIps, tf.descIps, q);
    } else {
      assert c.clusterType == Storage;
      assert total >= (if tf.azCount == 1 then 1 else 2);
      StorageClusterGui(tf.azCount, tf.computeIps, tf.storageIps, tf.descIps, q);
    }
  }

  /** The compute-node drop, from the provisioning output: three storage
      nodes, one descriptor node and one compute node across two zones are
      classified combined with a quorum of 3; the storage side leaves a
      shortfall of -1, and the compute node gets no host record. */
  lemma ComputeNodeDropped()
    ensures var c := Classify(1, 3, 1, 2);
            var q := QuorumCount(TotalNodeCount(2, 1, 3, 1));
            var nodes := InitialNodeDetails(2, c.clusterType, ["c1"], ["s1", "s2", "s3"], ["d1"], q, ManagerCount).nodes;
            && c.clusterType == Combined && q == 3
            && QuorumsLeft(2, 3, 1, q) == -1
            && Addresses(nodes) == ["d1", "s1", "s2", "s3"]
            && "c1" !in Addresses(nodes)
  {
    assert Classify(1, 3, 1, 2).clusterType == Combined;
    assert QuorumCount(TotalNodeCount(2, 1, 3, 1)) == 3;
    OneRecordPerAddress(2, Combined, ["c1"], ["s1", "s2", "s3"], ["d1"], 3, ManagerCount);
    assert ["d1"] + ["s1", "s2", "s3"] == ["d1", "s1", "s2", "s3"];
  }

  /** The sizing of an ordinary two-zone deployment of four compute, five
      storage and one descriptor node: combined, a total of ten, a quorum
      of 5, and a storage side that leaves a shortfall of -1. */
  lemma OrdinaryDeploymentSizing()
    ensures Classify(4, 5, 1, 2).clusterType == Combined
    ensures TotalNodeCount(2, 4, 5, 1) == 10 && QuorumCount(10) == 5
    ensures QuorumsLeft(2, 5, 1, 5) == -1
  {
  }

  /** With that shortfall none of the four compute nodes gets a host
      record: whatever the addresses, only the descriptor and storage
      addresses remain. */
  lemma OrdinaryDeploymentDropsCompute(compute: seq<string>, storage: seq<string>, desc: seq<string>)
    requires |compute| == 4 && |storage| == 5 && |desc| == 1
    ensures var c := Classify(|compute|, |storage|, |desc|, 2);
            var q := QuorumCount(TotalNodeCount(2, |compute|, |storage|, |desc|));
            var nodes := InitialNodeDetails(2, c.clusterType, compute, storage, desc, q, ManagerCount).nodes;
            && c.clusterType == Combined && q == 5
            && |nodes| == 6 && Addresses(nodes) == desc + storage
  {
    OrdinaryDeploymentSizing();
    OneRecordPerAddress(2, Combined, compute, storage, desc, 5, ManagerCount);
  }

  /** A single-zone combined cluster still emits a host record of class
      computedescnodegrp for each descriptor address, but its tunables list
      only the compute and storage classes, so that record's class gets no
      pagepool entry. */
  lemma DescriptorClassWithoutPagepool()
    ensures var c := Classify(1, 1, 1, 1);
            var q := QuorumCount(TotalNodeCount(1, 1, 1, 1));
            var nodes := InitialNodeDetails(1, c.clusterType, ["c1"], ["s1"], ["d1"], q, ManagerCount).nodes;
            && c.clusterType == Combined
            && |nodes| >= 1 && nodes[0].nodeClass == ComputeDescNodeGrp
            && ComputeDescNodeGrp !in c.nodeClasses
  {
    var c := Classify(1, 1, 1, 1);
    assert c.clusterType == Combined;
    var q := QuorumCount(TotalNodeCount(1, 1, 1, 1));
    RecordClasses(["d1"], CombinedStorageList, ["s1"], StorageStartQuorum(1, q), ManagerCount,
                  CombinedComputeNodes(["c1"], QuorumsLeft(1, 1, 1, q)));
  }

  /** A single storage node spread over two zones without a descriptor
      node falls through to the combined branch with a quorum count of 1;
      the storage threshold `quorum_count - 2` is then negative, so the only
      node is neither quorum nor GUI and the cluster has no quorum node. */
  lemma LoneStorageNodeWithoutQuorum()
    ensures var c := Classify(0, 1, 0, 2);
            var q := QuorumCount(TotalNodeCount(2, 0, 1, 0));
            var nodes := InitialNodeDetails(2, c.clusterType, [], ["s1"], [], q, ManagerCount).nodes;
            && c.clusterType == Combined && q == 1
            && |nodes| == 1 && !nodes[0].isQuorum && !nodes[0].isGui
            && CountTrue(QuorumFlags(nodes)) == 0
  {
    var nodes := InitialNodeDetails(2, Combined, [], ["s1"], [], 1, ManagerCount).nodes;
    assert nodes == ListNodes(CombinedStorageList, ["s1"], -1, ManagerCount);
    CountTruePrefix(QuorumFlags(nodes), 0);
  }

  /** Every descriptor node is quorum whatever the quorum count: two
      storage and three descriptor nodes across two zones give a quorum
      count of 3 but five quorum nodes. */
  lemma TieBreakersExceedQuorum()
    ensures var c := Classify(0, 2, 3, 2);
            var q := QuorumCount(TotalNodeCount(2, 0, 2, 3));
            var nodes := InitialNodeDetails(2, c.clusterType, [], ["s1", "s2"], ["d1", "d2", "d3"], q, ManagerCount).nodes;
            && c.clusterType == Storage && q == 3
            && CountTrue(QuorumFlags(nodes)) == 5
  {
    MultiAzStorageQuorumNodes(2, [], ["s1", "s2"], ["d1", "d2", "d3"], 3, ManagerCount);
  }

  /** The replication flag in the inventory and the data replica count of
      the filesystem record agree: two data replicas exactly when
      synchronous replication is configured. */
  lemma ReplicasFollowReplicaConfig(tf: ProvisioningOutput, disks: seq<DiskEntry>)
    requires ClassifyOutput(tf).clusterType != Compute
    ensures ScaleStorageDetails(tf.azCount, tf.fsMount, tf.blockSize, disks)[0].defaultDataReplicas == 2
            <==> ClassifyOutput(tf).replicaConfig
  {
  }
}
