/** Disk failure groups (`get_disks_list`): split the storage nodes into
    two failure groups, by list midpoint in one zone and by third address
    octet across zones, emit one disk entry per device, and append the
    single descriptor-only disk of the tie-breaker node. */
module Disks {
  import opened Cluster

  datatype Usage = DataAndMetadata | DescOnly

  datatype DiskEntry = DiskEntry(
    device: string,
    failureGroup: nat,
    servers: string,
    usage: Usage,
    pool: string)

  /** A mapping from node address to its device paths, in the mapping's
      iteration order. */
  type DiskMapping = seq<(string, seq<string>)>

  const SystemPool: string := "system"

  function Keys(m: DiskMapping): seq<string>
  {
    seq(|m|, i requires 0 <= i < |m| => m[i].0)
  }

  /** Number of devices over all addresses of `m`. */
  function DeviceCount(m: DiskMapping): nat
  {
    if m == [] then 0 else DeviceCount(m[..|m| - 1]) + |m[|m| - 1].1|
  }

  // ---------------------------------------------------------------------
  // The third octet of a dotted quad

  predicate IsDigit(c: char) { '0' <= c <= '9' }

  /** One to three decimal digits, as `\d{1,3}` matches. */
  predicate IsOctetText(s: string)
  {
    1 <= |s| <= 3 && forall i :: 0 <= i < |s| ==> IsDigit(s[i])
  }

  /** The text between dots. */
  function SplitDots(s: string): (fields: seq<string>)
    ensures |fields| >= 1
  {
    if s == [] then [""]
    else
      var rest := SplitDots(s[1..]);
      if s[0] == '.' then [""] + rest
      else [[s[0]] + rest[0]] + rest[1..]
  }

  predicate IsDottedQuad(s: string)
  {
    var fields := SplitDots(s);
    |fields| == 4 && forall i :: 0 <= i < 4 ==> IsOctetText(fields[i])
  }

  /** The subnet the pattern `\d{1,3}\.\d{1,3}\.(\d{1,3})\.\d{1,3}`
      captures from a dotted quad. */
  function ThirdOctet(s: string): (octet: string)
    requires IsDottedQuad(s)
    ensures IsOctetText(octet)
  {
    SplitDots(s)[2]
  }

  lemma {:induction false} SplitWithoutDot(a: string)
    requires '.' !in a
    ensures SplitDots(a) == [a]
  {
    if a != [] {
      SplitWithoutDot(a[1..]);
      assert [a[0]] + a[1..] == a;
    }
  }

  lemma {:induction false} SplitAtFirstDot(a: string, b: string)
    requires '.' !in a
    ensures SplitDots(a + "." + b) == [a] + SplitDots(b)
  {
    if a == [] {
      assert (a + "." + b)[1..] == b;
    } else {
      assert (a + "." + b)[1..] == a[1..] + "." + b;
      SplitAtFirstDot(a[1..], b);
      assert [a[0]] + a[1..] == a;
    }
  }

  lemma OctetHasNoDot(s: string)
    requires IsOctetText(s)
    ensures '.' !in s
  {
  }

  /** Parsing a written-out quad gives back its third part. */
  lemma ThirdOctetOfQuad(a: string, b: string, c: string, d: string)
    requires IsOctetText(a) && IsOctetText(b) && IsOctetText(c) && IsOctetText(d)
    ensures IsDottedQuad(a + "." + b + "." + c + "." + d)
    ensures ThirdOctet(a + "." + b + "." + c + "." + d) == c
  {
    OctetHasNoDot(a); OctetHasNoDot(b); OctetHasNoDot(c); OctetHasNoDot(d);
    SplitWithoutDot(d);
    SplitAtFirstDot(c, d);
    assert b + "." + c + "." + d == b + "." + (c + "." + d);
    SplitAtFirstDot(b, c + "." + d);
    assert a + "." + b + "." + c + "." + d == a + "." + (b + "." + c + "." + d);
    SplitAtFirstDot(a, b + "." + c + "." + d);
    assert SplitDots(a + "." + b + "." + c + "." + d) == [a, b, c, d];
  }

  // ---------------------------------------------------------------------
  // Failure groups

  /** What the script needs of the storage addresses: across zones the
      mapping is not empty and every address is a dotted quad (otherwise
      the script fails indexing the pattern's matches). */
  predicate SubnetsReadable(azCount: nat, keys: seq<string>)
  {
    azCount != 1 ==> |keys| > 0 && forall k :: k in keys ==> IsDottedQuad(k)
  }

  /** The addresses whose third octet is (`same`) or is not (`!same`)
      `subnet`, in order. */
  function WithSubnet(keys: seq<string>, subnet: string, same: bool): (r: seq<string>)
    requires forall k :: k in keys ==> IsDottedQuad(k)
  {
    if keys == [] then []
    else
      var last := keys[|keys| - 1];
      assert forall k :: k in keys[..|keys| - 1] ==> k in keys;
      WithSubnet(keys[..|keys| - 1], subnet, same)
        + (if (ThirdOctet(last) == subnet) == same then [last] else [])
  }

  lemma {:induction false} WithSubnetMembers(keys: seq<string>, subnet: string, same: bool)
    requires forall k :: k in keys ==> IsDottedQuad(k)
    ensures forall k :: k in WithSubnet(keys, subnet, same) <==> k in keys && (ThirdOctet(k) == subnet) == same
  {
    if keys != [] {
      var init := keys[..|keys| - 1];
      assert keys == init + [keys[|keys| - 1]];
      assert forall k :: k in init ==> k in keys;
      WithSubnetMembers(init, subnet, same);
    }
  }

  lemma {:induction false} WithSubnetSizes(keys: seq<string>, subnet: string)
    requires forall k :: k in keys ==> IsDottedQuad(k)
    ensures |WithSubnet(keys, subnet, true)| + |WithSubnet(keys, subnet, false)| == |keys|
  {
    if keys != [] {
      assert forall k :: k in keys[..|keys| - 1] ==> k in keys;
      WithSubnetSizes(keys[..|keys| - 1], subnet);
    }
  }

  /** `failure_group1` and `failure_group2`. One zone: the first half of
      the addresses, rounded down, and the rest. Across zones: the
      addresses in the first address's subnet, and the others. Either way
      every address lands in a group, and in one group only. */
  function FailureGroups(azCount: nat, keys: seq<string>): (groups: (seq<string>, seq<string>))
    requires SubnetsReadable(azCount, keys)
    ensures |groups.0| + |groups.1| == |keys|
    ensures forall k :: k in keys <==> k in groups.0 || k in groups.1
    ensures azCount == 1 ==>
              groups.0 + groups.1 == keys && |groups.0| == |keys| / 2 && 0 <= |groups.1| - |groups.0| <= 1
    ensures azCount != 1 ==> keys[0] in groups.0 && forall k :: k in groups.0 ==> k !in groups.1
  {
    if azCount == 1 then
      var mid := |keys| / 2;
      assert keys[..mid] + keys[mid..] == keys;
      (keys[..mid], keys[mid..])
    else
      var subnet := ThirdOctet(keys[0]);
      WithSubnetSizes(keys, subnet);
      WithSubnetMembers(keys, subnet, true);
      WithSubnetMembers(keys, subnet, false);
      (WithSubnet(keys, subnet, true), WithSubnet(keys, subnet, false))
  }

  // ---------------------------------------------------------------------
  // Disk entries

  function DeviceEntries(server: string, devices: seq<string>, group: nat): (entries: seq<DiskEntry>)
    ensures |entries| == |devices|
  {
    seq(|devices|, j requires 0 <= j < |devices| => DiskEntry(devices[j], group, server, DataAndMetadata, SystemPool))
  }

  /** The entries the script writes for one address: its devices in
      group 1 if the address is in `fg1`, then in group 2 if it is in
      `fg2`. */
  function AddressEntries(address: string, devices: seq<string>, fg1: seq<string>, fg2: seq<string>): seq<DiskEntry>
  {
    (if address in fg1 then DeviceEntries(address, devices, 1) else [])
      + (if address in fg2 then DeviceEntries(address, devices, 2) else [])
  }

  function DataDisks(m: DiskMapping, fg1: seq<string>, fg2: seq<string>): seq<DiskEntry>
  {
    if m == [] then []
    else DataDisks(m[..|m| - 1], fg1, fg2) + AddressEntries(m[|m| - 1].0, m[|m| - 1].1, fg1, fg2)
  }

  /** The descriptor-only disk: the first device of the first descriptor
      address, in failure group 3, if there is a descriptor address. */
  function DescDisk(desc: DiskMapping): (entries: seq<DiskEntry>)
    requires desc != [] ==> desc[0].1 != []
    ensures |entries| <= 1 && (entries == [] <==> desc == [])
    ensures forall e :: e in entries ==>
              && e.failureGroup == 3 && e.usage == DescOnly && e.pool == SystemPool
              && e.servers == desc[0].0 && e.device in desc[0].1
  {
    if desc == [] then []
    else [DiskEntry(desc[0].1[0], 3, desc[0].0, DescOnly, SystemPool)]
  }

  /** What the script needs of its disk inputs: distinct storage addresses
      (they are the keys of a mapping), readable subnets across zones, and
      at least one device on the first descriptor address. */
  predicate DisksInputValid(azCount: nat, mapping: DiskMapping, desc: DiskMapping)
  {
    && Distinct(Keys(mapping))
    && SubnetsReadable(azCount, Keys(mapping))
    && (desc != [] ==> desc[0].1 != [])
  }

  /** `get_disks_list` as a value. */
  function DisksList(azCount: nat, mapping: DiskMapping, desc: DiskMapping): seq<DiskEntry>
    requires DisksInputValid(azCount, mapping, desc)
  {
    var groups := FailureGroups(azCount, Keys(mapping));
    DataDisks(mapping, groups.0, groups.1) + DescDisk(desc)
  }

  // ---------------------------------------------------------------------
  // The loops

  /** The group split of `get_disks_list`. */
  method SplitFailureGroups(azCount: nat, keys: seq<string>) returns (fg1: seq<string>, fg2: seq<string>)
    requires SubnetsReadable(azCount, keys)
    ensures (fg1, fg2) == FailureGroups(azCount, keys)
  {
    if azCount == 1 {
      var mid := |keys| / 2;
      fg1, fg2 := keys[..mid], keys[mid..];
    } else {
      var subnet := ThirdOctet(keys[0]);
      fg1, fg2 := [], [];
      var i := 0;
      while i < |keys|
        invariant 0 <= i <= |keys|
        invariant fg1 == WithSubnet(keys[..i], subnet, true)
        invariant fg2 == WithSubnet(keys[..i], subnet, false)
      {
        assert keys[..i + 1][..i] == keys[..i];
        if ThirdOctet(keys[i]) == subnet {
          fg1 := fg1 + [keys[i]];
        } else {
          fg2 := fg2 + [keys[i]];
        }
        i := i + 1;
      }
      assert keys[..i] == keys;
    }
  }

  /** The two device loops for one address of the mapping. */
  method AppendAddressEntries(acc: seq<DiskEntry>, ip: string, devices: seq<string>,
                              fg1: seq<string>, fg2: seq<string>)
    returns (disks: seq<DiskEntry>)
    ensures disks == acc + AddressEntries(ip, devices, fg1, fg2)
  {
    disks := acc;
    if ip in fg1 {
      var j := 0;
      while j < |devices|
        invariant 0 <= j <= |devices|
        invariant disks == acc + DeviceEntries(ip, devices[..j], 1)
      {
        assert DeviceEntries(ip, devices[..j + 1], 1)
            == DeviceEntries(ip, devices[..j], 1) + [DiskEntry(devices[j], 1, ip, DataAndMetadata, SystemPool)];
        disks := disks + [DiskEntry(devices[j], 1, ip, DataAndMetadata, SystemPool)];
        j := j + 1;
      }
      assert devices[..j] == devices;
    }
    ghost var middle := disks;
    if ip in fg2 {
      var j := 0;
      while j < |devices|
        invariant 0 <= j <= |devices|
        invariant disks == middle + DeviceEntries(ip, devices[..j], 2)
      {
        assert DeviceEntries(ip, devices[..j + 1], 2)
            == DeviceEntries(ip, devices[..j], 2) + [DiskEntry(devices[j], 2, ip, DataAndMetadata, SystemPool)];
        disks := disks + [DiskEntry(devices[j], 2, ip, DataAndMetadata, SystemPool)];
        j := j + 1;
      }
      assert devices[..j] == devices;
    }
  }

  /** The walk over the mapping, address by address. */
  method CollectDataDisks(mapping: DiskMapping, fg1: seq<string>, fg2: seq<string>) returns (disks: seq<DiskEntry>)
    ensures disks == DataDisks(mapping, fg1, fg2)
  {
    disks := [];
    var i := 0;
    while i < |mapping|
      invariant 0 <= i <= |mapping|
      invariant disks == DataDisks(mapping[..i], fg1, fg2)
    {
      assert mapping[..i + 1][..i] == mapping[..i];
      disks := AppendAddressEntries(disks, mapping[i].0, mapping[i].1, fg1, fg2);
      i := i + 1;
    }
    assert mapping[..i] == mapping;
  }

  /** `get_disks_list`. */
  method GetDisksList(azCount: nat, mapping: DiskMapping, desc: DiskMapping) returns (disks: seq<DiskEntry>)
    requires DisksInputValid(azCount, mapping, desc)
    ensures disks == DisksList(azCount, mapping, desc)
  {
    var fg1, fg2 := SplitFailureGroups(azCount, Keys(mapping));
    disks := CollectDataDisks(mapping, fg1, fg2);
    if |desc| > 0 {
      disks := disks + [DiskEntry(desc[0].1[0], 3, desc[0].0, DescOnly, SystemPool)];
    }
  }
}
