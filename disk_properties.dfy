/** What the disk list guarantees: each address's devices land in exactly
    one failure group, the group is decided by the address's position (one
    zone) or subnet (several zones), every device yields one entry in
    mapping order, and the descriptor disk comes last. */
module DiskProperties {
  import opened Cluster
  import opened Disks

  /** The failure group of the address at position `i`, stated directly:
      below the midpoint in one zone, or in the first address's subnet
      across zones, means group 1; anything else group 2. */
  function GroupAt(azCount: nat, keys: seq<string>, i: nat): (g: nat)
    requires i < |keys| && SubnetsReadable(azCount, keys)
    ensures g == 1 || g == 2
    ensures azCount != 1 && i == 0 ==> g == 1
  {
    if azCount == 1 then (if i < |keys| / 2 then 1 else 2)
    else if ThirdOctet(keys[i]) == ThirdOctet(keys[0]) then 1
    else 2
  }

  /** The data entries of `mapping[..n]`, each address's devices tagged
      with its positional group: one `dataAndMetadata` entry in the system
      pool per device, in mapping order then device order. */
  function DisksByPosition(azCount: nat, mapping: DiskMapping, n: nat): (entries: seq<DiskEntry>)
    requires n <= |mapping| && SubnetsReadable(azCount, Keys(mapping))
    ensures |entries| == DeviceCount(mapping[..n])
    ensures forall j :: 0 <= j < |entries| ==>
              (entries[j].failureGroup == 1 || entries[j].failureGroup == 2)
              && entries[j].usage == DataAndMetadata && entries[j].pool == SystemPool
  {
    if n == 0 then []
    else
      assert mapping[..n][..n - 1] == mapping[..n - 1];
      DisksByPosition(azCount, mapping, n - 1)
        + DeviceEntries(mapping[n - 1].0, mapping[n - 1].1, GroupAt(azCount, Keys(mapping), n - 1))
  }

  /** With distinct addresses, membership in the script's group lists is
      exactly the positional group. */
  lemma GroupMembership(azCount: nat, keys: seq<string>, i: nat)
    requires i < |keys| && SubnetsReadable(azCount, keys) && Distinct(keys)
    ensures var groups := FailureGroups(azCount, keys);
            && (keys[i] in groups.0 <==> GroupAt(azCount, keys, i) == 1)
            && (keys[i] in groups.1 <==> GroupAt(azCount, keys, i) == 2)
  {
    var groups := FailureGroups(azCount, keys);
    if azCount == 1 {
      var mid := |keys| / 2;
      if i < mid {
        assert keys[..mid][i] == keys[i];
      } else {
        assert keys[mid..][i - mid] == keys[i];
      }
    } else {
      var subnet := ThirdOctet(keys[0]);
      WithSubnetMembers(keys, subnet, true);
      WithSubnetMembers(keys, subnet, false);
    }
  }

  /** One address of the walk: testing it against both group lists yields
      its devices once, tagged with its positional group. */
  lemma AddressEntriesPositional(azCount: nat, mapping: DiskMapping, i: nat)
    requires i < |mapping| && SubnetsReadable(azCount, Keys(mapping)) && Distinct(Keys(mapping))
    ensures var groups := FailureGroups(azCount, Keys(mapping));
            AddressEntries(mapping[i].0, mapping[i].1, groups.0, groups.1)
            == DeviceEntries(mapping[i].0, mapping[i].1, GroupAt(azCount, Keys(mapping), i))
  {
    GroupMembership(azCount, Keys(mapping), i);
    var entries := DeviceEntries(mapping[i].0, mapping[i].1, GroupAt(azCount, Keys(mapping), i));
    assert entries + [] == entries && [] + entries == entries;
  }

  /** A walk over group lists that tag every address with its positional
      group yields the positional entries. */
  lemma {:induction false} WalkIsPositional(azCount: nat, mapping: DiskMapping, fg1: seq<string>, fg2: seq<string>, n: nat)
    requires n <= |mapping| && SubnetsReadable(azCount, Keys(mapping))
    requires forall i :: 0 <= i < |mapping| ==>
               AddressEntries(mapping[i].0, mapping[i].1, fg1, fg2)
               == DeviceEntries(mapping[i].0, mapping[i].1, GroupAt(azCount, Keys(mapping), i))
    ensures DataDisks(mapping[..n], fg1, fg2) == DisksByPosition(azCount, mapping, n)
  {
    if n > 0 {
      assert mapping[..n][..n - 1] == mapping[..n - 1];
      WalkIsPositional(azCount, mapping, fg1, fg2, n - 1);
    }
  }

  /** The script's list walk, which tests each address against both group
      lists, yields exactly the positional entries. */
  lemma DataDisksArePositional(azCount: nat, mapping: DiskMapping)
    requires SubnetsReadable(azCount, Keys(mapping)) && Distinct(Keys(mapping))
    ensures var groups := FailureGroups(azCount, Keys(mapping));
            DataDisks(mapping, groups.0, groups.1) == DisksByPosition(azCount, mapping, |mapping|)
  {
    var groups := FailureGroups(azCount, Keys(mapping));
    forall i | 0 <= i < |mapping|
      ensures AddressEntries(mapping[i].0, mapping[i].1, groups.0, groups.1)
              == DeviceEntries(mapping[i].0, mapping[i].1, GroupAt(azCount, Keys(mapping), i))
    {
      AddressEntriesPositional(azCount, mapping, i);
    }
    WalkIsPositional(azCount, mapping, groups.0, groups.1, |mapping|);
    assert mapping[..|mapping|] == mapping;
  }

  /** The whole disk list: every device of every storage address exactly
      once, in mapping order, with its positional failure group; then, if
      and only if there is a descriptor address, one `descOnly` entry in
      failure group 3 for the first device of the first descriptor
      address, last. Group 3 and `descOnly` go together. */
  lemma DisksListShape(azCount: nat, mapping: DiskMapping, desc: DiskMapping)
    requires DisksInputValid(azCount, mapping, desc)
    ensures var disks := DisksList(azCount, mapping, desc);
            var dataCount := DeviceCount(mapping);
            && |disks| == dataCount + (if desc == [] then 0 else 1)
            && disks[..dataCount] == DisksByPosition(azCount, mapping, |mapping|)
            && (desc != [] ==> disks[dataCount] == DiskEntry(desc[0].1[0], 3, desc[0].0, DescOnly, SystemPool))
            && (forall j :: 0 <= j < |disks| ==>
                  disks[j].pool == SystemPool && (disks[j].failureGroup == 3 <==> disks[j].usage == DescOnly))
  {
    DataDisksArePositional(azCount, mapping);
  }
}
