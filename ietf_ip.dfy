// The ietf-ip augment of RFC 8344: the `ipv4` and `ipv6` containers of an
// interface, as two in-memory models with their keyed vectors of addresses
// and neighbors, their serializers (a run of path writes below the
// container) and their deserializers (leaf lookups and a child scan).
module IetfIp {
  import opened Wrappers
  import opened Numeric
  import opened Text
  import opened YangTree
  import opened KeyedList
  import opened Entries

  const MODULE: string := "ietf-ip"

  datatype IpAddressOrigin = OriginOther | OriginStatic | OriginDhcp | OriginLinkLayer | OriginRandom
  datatype NeighborOrigin = NeighborOther | NeighborStatic | NeighborDynamic
  datatype AddressStatus =
    | Preferred | Deprecated | Invalid | Inaccessible | StatusUnknown | Tentative | Duplicate | Optimistic

  datatype Address4 = Address4(
    ip: string,
    prefixLength: Option<uint8>,
    netmask: Option<string>,
    origin: Option<IpAddressOrigin>)

  datatype Neighbor4 = Neighbor4(ip: string, linkLayerAddress: string, origin: Option<NeighborOrigin>)

  datatype Address6 = Address6(
    ip: string,
    prefixLength: uint8,
    origin: Option<IpAddressOrigin>,
    status: Option<AddressStatus>)

  datatype Neighbor6 = Neighbor6(
    ip: string,
    linkLayerAddress: Option<string>,
    origin: Option<NeighborOrigin>,
    isRouter: bool,
    state: Option<AddressStatus>)

  datatype Autoconf = Autoconf(
    createGlobalAddresses: bool,
    createTemporaryAddresses: bool,
    temporaryValidLifetime: uint32,
    temporaryPreferredLifetime: uint32)

  const DEFAULT_AUTOCONF: Autoconf := Autoconf(true, false, 604800, 86400)

  /** A default-constructed address or neighbor, before the deserializer
      fills it. */
  const NEW_ADDRESS4: Address4 := Address4("", None, None, None)
  const NEW_NEIGHBOR4: Neighbor4 := Neighbor4("", "", None)
  const NEW_ADDRESS6: Address6 := Address6("", 0, None, None)

  /** The contents of an `IetfIpv4` model. */
  datatype Ipv4Data = Ipv4Data(
    enabled: bool,
    forwarding: bool,
    mtu: Option<uint16>,
    addresses: seq<Address4>,
    neighbors: seq<Neighbor4>)

  /** The contents of an `IetfIpv6` model. */
  datatype Ipv6Data = Ipv6Data(
    enabled: bool,
    forwarding: bool,
    mtu: Option<uint32>,
    addresses: seq<Address6>,
    neighbors: seq<Neighbor6>,
    dupAddrDetectTransmits: uint32,
    autoconf: Autoconf)

  function Address4Ip(a: Address4): string { a.ip }
  function Neighbor4Ip(n: Neighbor4): string { n.ip }
  function Address6Ip(a: Address6): string { a.ip }
  function Neighbor6Ip(n: Neighbor6): string { n.ip }

  // ---------------------------------------------------------------------
  // Leaf readings

  /** A boolean leaf: true exactly for "true" and "1" when present, the
      default when absent. */
  function ReadFlag(v: Option<string>, default: bool): (r: bool)
    ensures v.None? ==> r == default
    ensures v.Some? ==> (r <==> IsTrueText(v.value))
  {
    match v
    case None => default
    case Some(t) => IsTrueText(t)
  }

  /** `static_cast<uint8_t>(std::stoi(v))` with a failed parse swallowed:
      the field stays absent. */
  function ReadU8(v: Option<string>): (r: Option<uint8>)
    ensures r.Some? <==> v.Some? && StoI(v.value).Some?
    ensures r.Some? ==> r.value == CastU8(StoI(v.value).value as int)
  {
    if v.Some? && StoI(v.value).Some? then Some(CastU8(StoI(v.value).value as int)) else None
  }

  /** `static_cast<uint16_t>(std::stoi(v))`, failures swallowed. */
  function ReadU16(v: Option<string>): (r: Option<uint16>)
    ensures r.Some? <==> v.Some? && StoI(v.value).Some?
    ensures r.Some? ==> r.value == CastU16(StoI(v.value).value as int)
  {
    if v.Some? && StoI(v.value).Some? then Some(CastU16(StoI(v.value).value as int)) else None
  }

  /** `static_cast<uint32_t>(std::stoul(v))`, failures swallowed. */
  function ReadU32(v: Option<string>): (r: Option<uint32>)
    ensures r.Some? <==> v.Some? && StoUL(v.value).Some?
    ensures r.Some? ==> r.value == CastU32(StoUL(v.value).value)
  {
    if v.Some? && StoUL(v.value).Some? then Some(CastU32(StoUL(v.value).value)) else None
  }

  /** Each reading gives back the value its decimal rendering came from. */
  lemma ReadRenderedU8(x: uint8)
    ensures ReadU8(Some(NatToString(x as nat))) == Some(x)
  {
    StoIOfNatToString(x as nat);
  }

  function RenderU16(x: Option<uint16>): Option<string>
  {
    if x.Some? then Some(NatToString(x.value as nat)) else None
  }

  function RenderU32(x: Option<uint32>): Option<string>
  {
    if x.Some? then Some(NatToString(x.value as nat)) else None
  }

  lemma ReadRenderedU16(x: Option<uint16>)
    ensures ReadU16(RenderU16(x)) == x
  {
    if x.Some? {
      StoIOfNatToString(x.value as nat);
    }
  }

  lemma ReadRenderedU32(x: Option<uint32>)
    ensures ReadU32(RenderU32(x)) == x
  {
    if x.Some? {
      StoULOfNatToString(x.value as nat);
    }
  }

  // ---------------------------------------------------------------------
  // The container leaves, shared by both families

  /** The leaves a container writes of its own: `enabled` only when false,
      `forwarding` only when true, `mtu` (already rendered in decimal) only
      when set. */
  function HeadFields(enabled: bool, forwarding: bool, mtu: Option<string>): seq<Key>
  {
    (if enabled then [] else [Key("enabled", "false")])
    + (if forwarding then [Key("forwarding", "true")] else [])
    + (if mtu.Some? then [Key("mtu", mtu.value)] else [])
  }

  predicate IsHeadName(name: string)
  {
    name == "enabled" || name == "forwarding" || name == "mtu"
  }

  /** The container leaves have distinct names, none of them a list's. */
  lemma HeadFieldNames(enabled: bool, forwarding: bool, mtu: Option<string>)
    ensures var h := HeadFields(enabled, forwarding, mtu);
            DistinctKeyNames(h) && forall k :: 0 <= k < |h| ==> IsHeadName(h[k].name)
  {
    var e := if enabled then [] else [Key("enabled", "false")];
    var f := if forwarding then [Key("forwarding", "true")] else [];
    var m := if mtu.Some? then [Key("mtu", mtu.value)] else [];
    DistinctKeyNamesAppend(f, m);
    DistinctKeyNamesAppend(e, f + m);
    assert HeadFields(enabled, forwarding, mtu) == e + (f + m);
  }

  /** No container leaf is named `address` or `neighbor`. */
  lemma HeadNotNamed(h: seq<Key>, m: string)
    requires forall k :: 0 <= k < |h| ==> IsHeadName(h[k].name)
    ensures NoneNamed(KeyLeaves(h, m), "address") && NoneNamed(KeyLeaves(h, m), "neighbor")
  {
    assert "enabled"[0] != "address"[0];
  }

  /** What a lookup of each container leaf finds among the written leaves. */
  lemma HeadFieldValues(enabled: bool, forwarding: bool, mtu: Option<string>)
    ensures var h := HeadFields(enabled, forwarding, mtu);
            && FieldValue(h, "enabled") == (if enabled then None else Some("false"))
            && FieldValue(h, "forwarding") == (if forwarding then Some("true") else None)
            && FieldValue(h, "mtu") == mtu
  {
    var e := if enabled then [] else [Key("enabled", "false")];
    var f := if forwarding then [Key("forwarding", "true")] else [];
    var m := if mtu.Some? then [Key("mtu", mtu.value)] else [];
    assert HeadFields(enabled, forwarding, mtu) == e + (f + m);
    FieldValueAppend(e, f + m, "enabled");
    FieldValueAppend(e, f + m, "forwarding");
    FieldValueAppend(e, f + m, "mtu");
    FieldValueAppend(f, m, "enabled");
    FieldValueAppend(f, m, "forwarding");
    FieldValueAppend(f, m, "mtu");
  }

  /** The container leaves read back, absent ones as the defaults that
      serialize leaves out. */
  lemma ReadHeadFlags(enabled: bool, forwarding: bool, mtu: Option<string>)
    ensures var h := HeadFields(enabled, forwarding, mtu);
            && ReadFlag(FieldValue(h, "enabled"), true) == enabled
            && ReadFlag(FieldValue(h, "forwarding"), false) == forwarding
  {
    HeadFieldValues(enabled, forwarding, mtu);
  }

  // ---------------------------------------------------------------------
  // IPv4: what serialize writes

  /** The `ipv4` container serialize fills (it is created below a
      placeholder interface, which is not part of what it returns). */
  function Ipv4Root(): Node
  {
    Node(Some(Schema("ipv4", MODULE)), None, [])
  }

  function Head4(d: Ipv4Data): seq<Key>
  {
    HeadFields(d.enabled, d.forwarding, RenderU16(d.mtu))
  }

  function AddressKeys4(a: Address4): seq<Key> { [Key("ip", a.ip)] }

  /** The address leaves besides `ip`: `prefix-length` and `netmask`, each
      only when set. */
  function AddressFields4(a: Address4): seq<Key>
  {
    (if a.prefixLength.Some? then [Key("prefix-length", NatToString(a.prefixLength.value as nat))] else [])
    + (if a.netmask.Some? then [Key("netmask", a.netmask.value)] else [])
  }

  function AddressLayout4(): Layout<Address4>
  {
    Layout("", "address", AddressKeys4, AddressFields4, NoDeeperWrites)
  }

  function NeighborKeys4(n: Neighbor4): seq<Key> { [Key("ip", n.ip)] }

  /** A neighbor always writes its `link-layer-address`. */
  function NeighborFields4(n: Neighbor4): seq<Key> { [Key("link-layer-address", n.linkLayerAddress)] }

  function NeighborLayout4(): Layout<Neighbor4>
  {
    Layout("", "neighbor", NeighborKeys4, NeighborFields4, NoDeeperWrites)
  }

  /** Every write serialize issues below the container, in order. */
  function Ipv4Log(d: Ipv4Data): seq<Write>
  {
    LeafWrites("", Head4(d)) + EntriesLog(d.addresses, AddressLayout4()) + EntriesLog(d.neighbors, NeighborLayout4())
  }

  // ---------------------------------------------------------------------
  // IPv4: what deserialize reads

  function ReadAddress4(n: Node): Address4
  {
    NEW_ADDRESS4.(
      ip := LeafValue(n, "ip").GetOr(NEW_ADDRESS4.ip),
      prefixLength := ReadU8(LeafValue(n, "prefix-length")),
      netmask := LeafValue(n, "netmask"))
  }

  function ReadNeighbor4(n: Node): Neighbor4
  {
    NEW_NEIGHBOR4.(
      ip := LeafValue(n, "ip").GetOr(NEW_NEIGHBOR4.ip),
      linkLayerAddress := LeafValue(n, "link-layer-address").GetOr(NEW_NEIGHBOR4.linkLayerAddress))
  }

  /** One step of the deserializer's child scan: a child named `address`
      or `neighbor` adds one element to that vector and no other. */
  lemma ScanStep4(cs: seq<Node>, i: nat)
    requires i < |cs|
    ensures Collect(cs[..i + 1], "address", ReadAddress4)
            == Collect(cs[..i], "address", ReadAddress4) + (if Named(cs[i], "address") then [ReadAddress4(cs[i])] else [])
    ensures Collect(cs[..i + 1], "neighbor", ReadNeighbor4)
            == Collect(cs[..i], "neighbor", ReadNeighbor4) + (if Named(cs[i], "neighbor") then [ReadNeighbor4(cs[i])] else [])
    ensures !(Named(cs[i], "address") && Named(cs[i], "neighbor"))
  {
    CollectSnoc(cs, i, "address", ReadAddress4);
    CollectSnoc(cs, i, "neighbor", ReadNeighbor4);
    assert |"address"| != |"neighbor"|;
  }

  /** What deserialize reads from a located `ipv4` container: the leaves
      with their defaults, and every `address` and `neighbor` entry as one
      element, in document order. A leaf that does not parse leaves its
      field unset and is no error. */
  function Ipv4Of(root: Node): (r: Ipv4Data)
    ensures |r.addresses| == CountNamed(root.children, "address")
    ensures |r.neighbors| == CountNamed(root.children, "neighbor")
    ensures LeafValue(root, "enabled").None? ==> r.enabled
    ensures LeafValue(root, "forwarding").None? ==> !r.forwarding
  {
    Ipv4Data(
      ReadFlag(LeafValue(root, "enabled"), true),
      ReadFlag(LeafValue(root, "forwarding"), false),
      ReadU16(LeafValue(root, "mtu")),
      Collect(root.children, "address", ReadAddress4),
      Collect(root.children, "neighbor", ReadNeighbor4))
  }

  /** `IetfIpv4::deserialize`: no tree, or no `ipv4` container either at
      the tree itself or at `/ietf-ip:ipv4`, is an error. */
  function ReadIpv4(tree: Option<Node>, tops: seq<Node>): (r: Result<Ipv4Data>)
    ensures r.Failure? <==> tree.None? || LocateRoot(tree.value, tops, "ipv4", MODULE).None?
    ensures r.Success? ==> r.value == Ipv4Of(LocateRoot(tree.value, tops, "ipv4", MODULE).value)
  {
    if tree.None? then Failure("no data tree")
    else match LocateRoot(tree.value, tops, "ipv4", MODULE)
      case None => Failure("ipv4 container not found")
      case Some(root) => Success(Ipv4Of(root))
  }

  // ---------------------------------------------------------------------
  // IPv4: the round trip

  /** What a write and a read keep of a model: everything but the
      operational origins, which are never written. */
  function WrittenAddress4(a: Address4): Address4 { a.(origin := None) }
  function WrittenNeighbor4(n: Neighbor4): Neighbor4 { n.(origin := None) }

  function Ipv4Written(d: Ipv4Data): Ipv4Data
  {
    d.(addresses := Map(d.addresses, WrittenAddress4), neighbors := Map(d.neighbors, WrittenNeighbor4))
  }

  predicate DistinctIps4(d: Ipv4Data)
  {
    && (forall i, j :: 0 <= i < j < |d.addresses| ==> d.addresses[i].ip != d.addresses[j].ip)
    && (forall i, j :: 0 <= i < j < |d.neighbors| ==> d.neighbors[i].ip != d.neighbors[j].ip)
  }

  /** The container a serialized model becomes: its leaves, then one entry
      per address, then one per neighbor. */
  function Ipv4Tree(d: Ipv4Data): Node
  {
    Ipv4Root().(children :=
      KeyLeaves(Head4(d), MODULE)
      + EntryNodes(d.addresses, MODULE, AddressLayout4())
      + EntryNodes(d.neighbors, MODULE, NeighborLayout4()))
  }

  lemma AddressFieldNames4(a: Address4)
    ensures DistinctKeyNames(AddressKeys4(a) + AddressFields4(a))
  {
    var l := AddressKeys4(a) + AddressFields4(a);
    if a.prefixLength.Some? && a.netmask.Some? {
      assert l[1].name == "prefix-length" && l[2].name == "netmask";
    }
  }

  lemma AddressesLaidOut4(xs: seq<Address4>)
    requires forall i, j :: 0 <= i < j < |xs| ==> xs[i].ip != xs[j].ip
    ensures WellLaidOut(xs, AddressLayout4(), ["ip"]) && DistinctKeys(xs, AddressLayout4())
  {
    forall k | 0 <= k < |xs|
      ensures DistinctKeyNames(AddressKeys4(xs[k]) + AddressFields4(xs[k]))
    {
      AddressFieldNames4(xs[k]);
    }
    forall i, j | 0 <= i < j < |xs|
      ensures AddressKeys4(xs[i]) != AddressKeys4(xs[j])
    {
      assert AddressKeys4(xs[i])[0].value == xs[i].ip;
    }
  }

  lemma NeighborsLaidOut4(xs: seq<Neighbor4>)
    requires forall i, j :: 0 <= i < j < |xs| ==> xs[i].ip != xs[j].ip
    ensures WellLaidOut(xs, NeighborLayout4(), ["ip"]) && DistinctKeys(xs, NeighborLayout4())
  {
    forall i, j | 0 <= i < j < |xs|
      ensures NeighborKeys4(xs[i]) != NeighborKeys4(xs[j])
    {
      assert NeighborKeys4(xs[i])[0].value == xs[i].ip;
    }
  }

  /** The container leaves and the addresses: the leaves first, then one
      entry per address. */
  lemma BuildAddresses4(d: Ipv4Data)
    requires forall i, j :: 0 <= i < j < |d.addresses| ==> d.addresses[i].ip != d.addresses[j].ip
    ensures Build(Ipv4Root(), LeafWrites("", Head4(d)) + EntriesLog(d.addresses, AddressLayout4()))
            == Ipv4Root().(children := KeyLeaves(Head4(d), MODULE) + EntryNodes(d.addresses, MODULE, AddressLayout4()))
  {
    HeadFieldNames(d.enabled, d.forwarding, RenderU16(d.mtu));
    HeadNotNamed(Head4(d), MODULE);
    AddressesLaidOut4(d.addresses);
    BuildHeadAndEntries(Ipv4Root(), "", Head4(d), d.addresses, AddressLayout4(), ["ip"]);
    assert [] + KeyLeaves(Head4(d), MODULE) == KeyLeaves(Head4(d), MODULE);
  }

  lemma NoNeighborAmongAddresses4(d: Ipv4Data)
    ensures NoneNamed(KeyLeaves(Head4(d), MODULE) + EntryNodes(d.addresses, MODULE, AddressLayout4()), "neighbor")
  {
    HeadFieldNames(d.enabled, d.forwarding, RenderU16(d.mtu));
    HeadNotNamed(Head4(d), MODULE);
    EntryNodesNamed(d.addresses, MODULE, AddressLayout4(), "neighbor");
    NoneNamedAppend(KeyLeaves(Head4(d), MODULE), EntryNodes(d.addresses, MODULE, AddressLayout4()), "neighbor");
  }

  /** Serializing builds the container `Ipv4Tree` describes, provided
      addresses and neighbors have distinct ips (each write designates an
      entry by its ip, so a repeated ip would write into the earlier
      entry). */
  lemma SerializeBuildsTree4(d: Ipv4Data)
    requires DistinctIps4(d)
    ensures Build(Ipv4Root(), Ipv4Log(d)) == Ipv4Tree(d)
  {
    var ln := NeighborLayout4();
    var front := LeafWrites("", Head4(d)) + EntriesLog(d.addresses, AddressLayout4());
    var n2 := Ipv4Root().(children := KeyLeaves(Head4(d), MODULE) + EntryNodes(d.addresses, MODULE, AddressLayout4()));
    BuildAppend(Ipv4Root(), front, EntriesLog(d.neighbors, ln));
    BuildAddresses4(d);
    NoNeighborAmongAddresses4(d);
    NeighborsLaidOut4(d.neighbors);
    BuildEntries(n2, d.neighbors, ln, ["ip"]);
  }

  lemma ReadAddressEntry4(a: Address4)
    ensures ReadAddress4(FilledEntry(a, MODULE, AddressLayout4())) == WrittenAddress4(a)
  {
    var pl := if a.prefixLength.Some? then [Key("prefix-length", NatToString(a.prefixLength.value as nat))] else [];
    var nm := if a.netmask.Some? then [Key("netmask", a.netmask.value)] else [];
    var leaves := AddressKeys4(a) + (pl + nm);
    var e := EntryNode("address", MODULE, leaves);
    assert FilledEntry(a, MODULE, AddressLayout4()) == e;
    assert e.children == KeyLeaves(leaves, MODULE) + [];
    assert LeafValue(e, "ip") == Some(a.ip) by {
      LeafValueOfFields(e.schema, e.value, leaves, MODULE, [], "ip");
    }
    assert LeafValue(e, "prefix-length") == FieldValue(pl, "prefix-length") by {
      LeafValueOfFields(e.schema, e.value, leaves, MODULE, [], "prefix-length");
      FieldValueAppend(AddressKeys4(a), pl + nm, "prefix-length");
      FieldValueAppend(pl, nm, "prefix-length");
    }
    assert LeafValue(e, "netmask") == a.netmask by {
      LeafValueOfFields(e.schema, e.value, leaves, MODULE, [], "netmask");
      FieldValueAppend(AddressKeys4(a), pl + nm, "netmask");
      FieldValueAppend(pl, nm, "netmask");
    }
    if a.prefixLength.Some? {
      ReadRenderedU8(a.prefixLength.value);
    }
  }

  lemma ReadNeighborEntry4(n: Neighbor4)
    ensures ReadNeighbor4(FilledEntry(n, MODULE, NeighborLayout4())) == WrittenNeighbor4(n)
  {
    var leaves := NeighborKeys4(n) + NeighborFields4(n);
    var e := EntryNode("neighbor", MODULE, leaves);
    assert FilledEntry(n, MODULE, NeighborLayout4()) == e;
    assert e.children == KeyLeaves(leaves, MODULE) + [];
    LeafValueOfFields(e.schema, e.value, leaves, MODULE, [], "ip");
    LeafValueOfFields(e.schema, e.value, leaves, MODULE, [], "link-layer-address");
  }

  /** A container leaf of the tree holds what was written for it. */
  lemma Ipv4TreeLeaf(d: Ipv4Data, name: string)
    requires IsHeadName(name)
    ensures LeafValue(Ipv4Tree(d), name) == FieldValue(Head4(d), name)
  {
    assert "enabled"[0] != "address"[0];
    var ads := EntryNodes(d.addresses, MODULE, AddressLayout4());
    var ns := EntryNodes(d.neighbors, MODULE, NeighborLayout4());
    assert NoneNamed(ads + ns, name) by {
      EntryNodesNamed(d.addresses, MODULE, AddressLayout4(), name);
      EntryNodesNamed(d.neighbors, MODULE, NeighborLayout4(), name);
      NoneNamedAppend(ads, ns, name);
    }
    assert Ipv4Tree(d).children == KeyLeaves(Head4(d), MODULE) + (ads + ns);
    LeafValueOfFields(Ipv4Root().schema, None, Head4(d), MODULE, ads + ns, name);
  }

  /** The container leaves of the tree read back as the model's. */
  lemma ReadHead4(d: Ipv4Data)
    ensures ReadFlag(LeafValue(Ipv4Tree(d), "enabled"), true) == d.enabled
    ensures ReadFlag(LeafValue(Ipv4Tree(d), "forwarding"), false) == d.forwarding
    ensures ReadU16(LeafValue(Ipv4Tree(d), "mtu")) == d.mtu
  {
    Ipv4TreeLeaf(d, "enabled");
    Ipv4TreeLeaf(d, "forwarding");
    Ipv4TreeLeaf(d, "mtu");
    HeadFieldValues(d.enabled, d.forwarding, RenderU16(d.mtu));
    ReadRenderedU16(d.mtu);
  }

  lemma ReadAddresses4(d: Ipv4Data)
    ensures Collect(Ipv4Tree(d).children, "address", ReadAddress4) == Map(d.addresses, WrittenAddress4)
  {
    var la := AddressLayout4();
    HeadFieldNames(d.enabled, d.forwarding, RenderU16(d.mtu));
    HeadNotNamed(Head4(d), MODULE);
    EntryNodesNamed(d.neighbors, MODULE, NeighborLayout4(), "address");
    forall k | 0 <= k < |d.addresses|
      ensures ReadAddress4(FilledEntry(d.addresses[k], MODULE, la)) == WrittenAddress4(d.addresses[k])
    {
      ReadAddressEntry4(d.addresses[k]);
    }
    CollectAmid(KeyLeaves(Head4(d), MODULE), d.addresses, MODULE, la, EntryNodes(d.neighbors, MODULE, NeighborLayout4()),
                ReadAddress4, WrittenAddress4);
  }

  lemma ReadNeighbors4(d: Ipv4Data)
    ensures Collect(Ipv4Tree(d).children, "neighbor", ReadNeighbor4) == Map(d.neighbors, WrittenNeighbor4)
  {
    var ln := NeighborLayout4();
    var front := KeyLeaves(Head4(d), MODULE) + EntryNodes(d.addresses, MODULE, AddressLayout4());
    NoNeighborAmongAddresses4(d);
    forall k | 0 <= k < |d.neighbors|
      ensures ReadNeighbor4(FilledEntry(d.neighbors[k], MODULE, ln)) == WrittenNeighbor4(d.neighbors[k])
    {
      ReadNeighborEntry4(d.neighbors[k]);
    }
    assert Ipv4Tree(d).children == front + EntryNodes(d.neighbors, MODULE, ln) + [];
    CollectAmid(front, d.neighbors, MODULE, ln, [], ReadNeighbor4, WrittenNeighbor4);
  }

  /** Reading the container `Ipv4Tree` describes gives back the model,
      origins aside. */
  lemma ReadTree4(d: Ipv4Data)
    ensures Ipv4Of(Ipv4Tree(d)) == Ipv4Written(d)
  {
    ReadHead4(d);
    ReadAddresses4(d);
    ReadNeighbors4(d);
  }

  /** Deserializing what serialize built recovers enabled, forwarding, mtu,
      every address (ip, prefix length, netmask) and every neighbor (ip,
      link-layer address) in order; only the origins are lost. */
  lemma Ipv4RoundTrip(d: Ipv4Data, tops: seq<Node>)
    requires DistinctIps4(d)
    ensures ReadIpv4(Some(Build(Ipv4Root(), Ipv4Log(d))), tops) == Success(Ipv4Written(d))
  {
    SerializeBuildsTree4(d);
    ReadTree4(d);
    ReadOwnRoot4(Ipv4Tree(d), tops);
  }

  lemma ReadLocated4(tree: Node, tops: seq<Node>)
    requires LocateRoot(tree, tops, "ipv4", MODULE).Some?
    ensures ReadIpv4(Some(tree), tops) == Success(Ipv4Of(LocateRoot(tree, tops, "ipv4", MODULE).value))
  {
  }

  /** A tree that is itself an `ipv4` container is read as such. */
  lemma ReadOwnRoot4(t: Node, tops: seq<Node>)
    requires t.schema == Some(Schema("ipv4", MODULE))
    ensures ReadIpv4(Some(t), tops) == Success(Ipv4Of(t))
  {
  }

  // ---------------------------------------------------------------------
  // IPv6

  /** The top-level container `/ietf-ip:ipv6` serialize creates. */
  function Ipv6Root(): Node
  {
    Node(Some(Schema("ipv6", MODULE)), None, [])
  }

  function Head6(d: Ipv6Data): seq<Key>
  {
    HeadFields(d.enabled, d.forwarding, RenderU32(d.mtu))
  }

  function AddressKeys6(a: Address6): seq<Key> { [Key("ip", a.ip)] }

  /** An IPv6 address always writes its `prefix-length`. */
  function AddressFields6(a: Address6): seq<Key> { [Key("prefix-length", NatToString(a.prefixLength as nat))] }

  function AddressLayout6(): Layout<Address6>
  {
    Layout("", "address", AddressKeys6, AddressFields6, NoDeeperWrites)
  }

  /** Every write serialize issues: the leaves and the addresses; the
      neighbors, duplicate-detection count and autoconf are never written. */
  function Ipv6Log(d: Ipv6Data): seq<Write>
  {
    LeafWrites("", Head6(d)) + EntriesLog(d.addresses, AddressLayout6())
  }

  function ReadAddress6(n: Node): Address6
  {
    NEW_ADDRESS6.(
      ip := LeafValue(n, "ip").GetOr(NEW_ADDRESS6.ip),
      prefixLength := ReadU8(LeafValue(n, "prefix-length")).GetOr(NEW_ADDRESS6.prefixLength))
  }

  /** What deserialize reads from a located `ipv6` container: as for IPv4,
      but `mtu` goes through `std::stoul`, neighbors are never read, and
      the remaining fields keep their defaults. */
  function Ipv6Of(root: Node): (r: Ipv6Data)
    ensures |r.addresses| == CountNamed(root.children, "address")
    ensures r.neighbors == [] && r.dupAddrDetectTransmits == 1 && r.autoconf == DEFAULT_AUTOCONF
  {
    Ipv6Data(
      ReadFlag(LeafValue(root, "enabled"), true),
      ReadFlag(LeafValue(root, "forwarding"), false),
      ReadU32(LeafValue(root, "mtu")),
      Collect(root.children, "address", ReadAddress6),
      [], 1, DEFAULT_AUTOCONF)
  }

  /** `IetfIpv6::deserialize`: no tree, or no `ipv6` container, is an
      error. */
  function ReadIpv6(tree: Option<Node>, tops: seq<Node>): (r: Result<Ipv6Data>)
    ensures r.Failure? <==> tree.None? || LocateRoot(tree.value, tops, "ipv6", MODULE).None?
    ensures r.Success? ==> r.value == Ipv6Of(LocateRoot(tree.value, tops, "ipv6", MODULE).value)
  {
    if tree.None? then Failure("no data tree")
    else match LocateRoot(tree.value, tops, "ipv6", MODULE)
      case None => Failure("ipv6 container not found")
      case Some(root) => Success(Ipv6Of(root))
  }

  function WrittenAddress6(a: Address6): Address6 { a.(origin := None, status := None) }

  /** What a write and a read keep: the leaves and the addresses without
      their operational state; the rest is back at its defaults. */
  function Ipv6Written(d: Ipv6Data): Ipv6Data
  {
    Ipv6Data(d.enabled, d.forwarding, d.mtu, Map(d.addresses, WrittenAddress6), [], 1, DEFAULT_AUTOCONF)
  }

  predicate DistinctIps6(d: Ipv6Data)
  {
    forall i, j :: 0 <= i < j < |d.addresses| ==> d.addresses[i].ip != d.addresses[j].ip
  }

  function Ipv6Tree(d: Ipv6Data): Node
  {
    Ipv6Root().(children := KeyLeaves(Head6(d), MODULE) + EntryNodes(d.addresses, MODULE, AddressLayout6()))
  }

  lemma AddressesLaidOut6(xs: seq<Address6>)
    requires forall i, j :: 0 <= i < j < |xs| ==> xs[i].ip != xs[j].ip
    ensures WellLaidOut(xs, AddressLayout6(), ["ip"]) && DistinctKeys(xs, AddressLayout6())
  {
    forall i, j | 0 <= i < j < |xs|
      ensures AddressKeys6(xs[i]) != AddressKeys6(xs[j])
    {
      assert AddressKeys6(xs[i])[0].value == xs[i].ip;
    }
  }

  lemma SerializeBuildsTree6(d: Ipv6Data)
    requires DistinctIps6(d)
    ensures Build(Ipv6Root(), Ipv6Log(d)) == Ipv6Tree(d)
  {
    HeadFieldNames(d.enabled, d.forwarding, RenderU32(d.mtu));
    HeadNotNamed(Head6(d), MODULE);
    AddressesLaidOut6(d.addresses);
    BuildHeadAndEntries(Ipv6Root(), "", Head6(d), d.addresses, AddressLayout6(), ["ip"]);
    assert [] + KeyLeaves(Head6(d), MODULE) == KeyLeaves(Head6(d), MODULE);
  }

  lemma ReadAddressEntry6(a: Address6)
    ensures ReadAddress6(FilledEntry(a, MODULE, AddressLayout6())) == WrittenAddress6(a)
  {
    var leaves := AddressKeys6(a) + AddressFields6(a);
    var e := EntryNode("address", MODULE, leaves);
    assert FilledEntry(a, MODULE, AddressLayout6()) == e;
    assert e.children == KeyLeaves(leaves, MODULE) + [];
    LeafValueOfFields(e.schema, e.value, leaves, MODULE, [], "ip");
    LeafValueOfFields(e.schema, e.value, leaves, MODULE, [], "prefix-length");
    ReadRenderedU8(a.prefixLength);
  }

  lemma Ipv6TreeLeaf(d: Ipv6Data, name: string)
    requires IsHeadName(name)
    ensures LeafValue(Ipv6Tree(d), name) == FieldValue(Head6(d), name)
  {
    assert "enabled"[0] != "address"[0];
    EntryNodesNamed(d.addresses, MODULE, AddressLayout6(), name);
    LeafValueOfFields(Ipv6Root().schema, None, Head6(d), MODULE, EntryNodes(d.addresses, MODULE, AddressLayout6()), name);
  }

  lemma ReadHead6(d: Ipv6Data)
    ensures ReadFlag(LeafValue(Ipv6Tree(d), "enabled"), true) == d.enabled
    ensures ReadFlag(LeafValue(Ipv6Tree(d), "forwarding"), false) == d.forwarding
    ensures ReadU32(LeafValue(Ipv6Tree(d), "mtu")) == d.mtu
  {
    Ipv6TreeLeaf(d, "enabled");
    Ipv6TreeLeaf(d, "forwarding");
    Ipv6TreeLeaf(d, "mtu");
    HeadFieldValues(d.enabled, d.forwarding, RenderU32(d.mtu));
    ReadRenderedU32(d.mtu);
  }

  lemma ReadAddresses6(d: Ipv6Data)
    ensures Collect(Ipv6Tree(d).children, "address", ReadAddress6) == Map(d.addresses, WrittenAddress6)
  {
    var la := AddressLayout6();
    HeadFieldNames(d.enabled, d.forwarding, RenderU32(d.mtu));
    HeadNotNamed(Head6(d), MODULE);
    forall k | 0 <= k < |d.addresses|
      ensures ReadAddress6(FilledEntry(d.addresses[k], MODULE, la)) == WrittenAddress6(d.addresses[k])
    {
      ReadAddressEntry6(d.addresses[k]);
    }
    assert Ipv6Tree(d).children == KeyLeaves(Head6(d), MODULE) + EntryNodes(d.addresses, MODULE, la) + [];
    CollectAmid(KeyLeaves(Head6(d), MODULE), d.addresses, MODULE, la, [], ReadAddress6, WrittenAddress6);
  }

  lemma ReadTree6(d: Ipv6Data)
    ensures Ipv6Of(Ipv6Tree(d)) == Ipv6Written(d)
  {
    ReadHead6(d);
    ReadAddresses6(d);
  }

  /** Deserializing what serialize built recovers enabled, forwarding, mtu
      and every address's ip and prefix length in order; neighbors,
      operational state, the duplicate-detection count and autoconf come
      back at their defaults. */
  lemma Ipv6RoundTrip(d: Ipv6Data, tops: seq<Node>)
    requires DistinctIps6(d)
    ensures ReadIpv6(Some(Build(Ipv6Root(), Ipv6Log(d))), tops) == Success(Ipv6Written(d))
  {
    SerializeBuildsTree6(d);
    ReadTree6(d);
    ReadOwnRoot6(Ipv6Tree(d), tops);
  }

  lemma ReadLocated6(tree: Node, tops: seq<Node>)
    requires LocateRoot(tree, tops, "ipv6", MODULE).Some?
    ensures ReadIpv6(Some(tree), tops) == Success(Ipv6Of(LocateRoot(tree, tops, "ipv6", MODULE).value))
  {
  }

  lemma ReadOwnRoot6(t: Node, tops: seq<Node>)
    requires t.schema == Some(Schema("ipv6", MODULE))
    ensures ReadIpv6(Some(t), tops) == Success(Ipv6Of(t))
  {
  }

  // ---------------------------------------------------------------------
  // Further promises of the codecs

  /** An `mtu` that does not parse is swallowed: deserialize still
      succeeds and leaves the field unset. */
  lemma UnparsableMtuSwallowed(tree: Node, tops: seq<Node>, v: string)
    requires Named(tree, "ipv4") && LeafValue(tree, "mtu") == Some(v)
    requires forall i :: 0 <= i < |v| ==> !IsDigit(v[i])
    ensures ReadIpv4(Some(tree), tops).Success? && ReadIpv4(Some(tree), tops).value.mtu.None?
  {
    NoDigitsRejected(v);
  }

  /** Every `address` entry becomes an address, also one without an `ip`
      leaf, whose ip is then empty. */
  lemma AddressWithoutIp(n: Node)
    requires FindChild(n, "ip").None?
    ensures ReadAddress4(n).ip == "" && ReadAddress6(n).ip == ""
  {
  }

  /** Adding an address with a new ip and removing by that ip gives back
      the original vector. */
  lemma AddThenRemoveAddress4(xs: seq<Address4>, a: Address4)
    requires forall j :: 0 <= j < |xs| ==> xs[j].ip != a.ip
    ensures RemoveFirstWithKey(xs + [a], Address4Ip, a.ip) == xs
  {
    RemoveAfterAppend(xs, a, Address4Ip);
  }

  // ---------------------------------------------------------------------
  // The in-memory models

  class IetfIpv4 {
    var enabled: bool
    var forwarding: bool
    var mtu: Option<uint16>
    var addresses: seq<Address4>
    var neighbors: seq<Neighbor4>

    function Data(): Ipv4Data
      reads this
    {
      Ipv4Data(enabled, forwarding, mtu, addresses, neighbors)
    }

    /** A fresh model: enabled, not forwarding, no mtu, no addresses and
        no neighbors. */
    constructor()
      ensures Data() == Ipv4Data(true, false, None, [], [])
    {
      enabled, forwarding, mtu := true, false, None;
      addresses, neighbors := [], [];
    }

    method AddAddress(a: Address4)
      modifies this
      ensures Data() == old(Data()).(addresses := old(addresses) + [a])
    {
      addresses := addresses + [a];
    }

    method AddNeighbor(n: Neighbor4)
      modifies this
      ensures Data() == old(Data()).(neighbors := old(neighbors) + [n])
    {
      neighbors := neighbors + [n];
    }

    /** Erases the first address with that ip and reports whether there
        was one. */
    method RemoveAddressByIp(ip: string) returns (removed: bool)
      modifies this
      ensures removed == FirstWithKey(old(addresses), Address4Ip, ip).Some?
      ensures Data() == old(Data()).(addresses := RemoveFirstWithKey(old(addresses), Address4Ip, ip))
    {
      var i := 0;
      while i < |addresses|
        invariant 0 <= i <= |addresses|
        invariant forall j :: 0 <= j < i ==> addresses[j].ip != ip
        invariant Data() == old(Data())
      {
        if addresses[i].ip == ip {
          FirstWithKeyIs(addresses, Address4Ip, ip, i);
          addresses := addresses[..i] + addresses[i + 1..];
          return true;
        }
        i := i + 1;
      }
      return false;
    }

    /** Erases the first neighbor with that ip and reports whether there
        was one. */
    method RemoveNeighborByIp(ip: string) returns (removed: bool)
      modifies this
      ensures removed == FirstWithKey(old(neighbors), Neighbor4Ip, ip).Some?
      ensures Data() == old(Data()).(neighbors := RemoveFirstWithKey(old(neighbors), Neighbor4Ip, ip))
    {
      var i := 0;
      while i < |neighbors|
        invariant 0 <= i <= |neighbors|
        invariant forall j :: 0 <= j < i ==> neighbors[j].ip != ip
        invariant Data() == old(Data())
      {
        if neighbors[i].ip == ip {
          FirstWithKeyIs(neighbors, Neighbor4Ip, ip, i);
          neighbors := neighbors[..i] + neighbors[i + 1..];
          return true;
        }
        i := i + 1;
      }
      return false;
    }

    /** `IetfIpv4::serialize`: the container leaves, then each address,
        then each neighbor, one path write at a time; with distinct ips the
        result deserializes to this model, origins aside. `rootOk` is
        whether libyang makes the three creation writes (the interfaces
        container, the placeholder `__tmp_if__` entry and the `ipv4`
        container in it); when one fails, serialize throws `YangDataError`.
        The return codes of the later writes are ignored by the code. */
    method Serialize(rootOk: bool) returns (r: Result<Node>)
      ensures r.Failure? <==> !rootOk
      ensures r.Success? ==> r.value == Build(Ipv4Root(), Ipv4Log(Data()))
      ensures r.Success? && DistinctIps4(Data()) ==> ReadIpv4(Some(r.value), []) == Success(Ipv4Written(Data()))
    {
      if !rootOk {
        return Failure("YangDataError: cannot create the ipv4 container");
      }
      var head := LeafWrites("", Head4(Data()));
      var root := NewPaths(Ipv4Root(), Ipv4Root(), [], head);
      assert [] + head == head;
      root := WriteEntries(Ipv4Root(), root, head, addresses, AddressLayout4());
      root := WriteEntries(Ipv4Root(), root, head + EntriesLog(addresses, AddressLayout4()), neighbors, NeighborLayout4());
      if DistinctIps4(Data()) {
        Ipv4RoundTrip(Data(), []);
      }
      r := Success(root);
    }

    /** `IetfIpv4::deserialize`, as `ReadIpv4` states it: the error cases,
        or a fresh model holding what `ReadIpv4` reads. */
    static method Deserialize(tree: Option<Node>, tops: seq<Node>) returns (r: Result<IetfIpv4>)
      ensures r.Failure? <==> ReadIpv4(tree, tops).Failure?
      ensures r.Success? ==> fresh(r.value) && r.value.Data() == ReadIpv4(tree, tops).value
    {
      if tree.None? {
        return Failure("no data tree");
      }
      var found := LocateRoot(tree.value, tops, "ipv4", MODULE);
      if found.None? {
        return Failure("ipv4 container not found");
      }
      var enabled, forwarding, mtu := ReadLeaves4(found.value);
      var addresses, neighbors := ScanChildren4(found.value.children);
      ReadLocated4(tree.value, tops);
      var model := new IetfIpv4();
      model.enabled, model.forwarding, model.mtu := enabled, forwarding, mtu;
      model.addresses, model.neighbors := addresses, neighbors;
      return Success(model);
    }

    /** The leaf lookups of deserialize: each field keeps its default
        unless its leaf is present (and, for `mtu`, parses). */
    static method ReadLeaves4(ipv4: Node) returns (enabled: bool, forwarding: bool, mtu: Option<uint16>)
      ensures enabled == ReadFlag(LeafValue(ipv4, "enabled"), true)
      ensures forwarding == ReadFlag(LeafValue(ipv4, "forwarding"), false)
      ensures mtu == ReadU16(LeafValue(ipv4, "mtu"))
    {
      enabled, forwarding, mtu := true, false, None;
      var v := LeafValue(ipv4, "enabled");
      if v.Some? {
        enabled := IsTrueText(v.value);
      }
      v := LeafValue(ipv4, "forwarding");
      if v.Some? {
        forwarding := IsTrueText(v.value);
      }
      v := LeafValue(ipv4, "mtu");
      if v.Some? {
        var n := StoI(v.value);
        if n.Some? {
          mtu := Some(CastU16(n.value as int));
        }
      }
    }

    /** The child scan of deserialize: every `address` and `neighbor`
        child, in document order. */
    static method ScanChildren4(cs: seq<Node>) returns (addresses: seq<Address4>, neighbors: seq<Neighbor4>)
      ensures addresses == Collect(cs, "address", ReadAddress4)
      ensures neighbors == Collect(cs, "neighbor", ReadNeighbor4)
    {
      addresses, neighbors := [], [];
      var i := 0;
      while i < |cs|
        invariant 0 <= i <= |cs|
        invariant addresses == Collect(cs[..i], "address", ReadAddress4)
        invariant neighbors == Collect(cs[..i], "neighbor", ReadNeighbor4)
      {
        var ch := cs[i];
        if Named(ch, "address") {
          addresses := addresses + [ReadAddress4(ch)];
        } else if Named(ch, "neighbor") {
          neighbors := neighbors + [ReadNeighbor4(ch)];
        }
        ScanStep4(cs, i);
        i := i + 1;
      }
      assert cs[..i] == cs;
    }
  }

  class IetfIpv6 {
    var enabled: bool
    var forwarding: bool
    var mtu: Option<uint32>
    var addresses: seq<Address6>
    var neighbors: seq<Neighbor6>
    var dupAddrDetectTransmits: uint32
    var autoconf: Autoconf

    function Data(): Ipv6Data
      reads this
    {
      Ipv6Data(enabled, forwarding, mtu, addresses, neighbors, dupAddrDetectTransmits, autoconf)
    }

    /** A fresh model: enabled, not forwarding, no mtu, no addresses or
        neighbors, one duplicate-detection transmission, default autoconf. */
    constructor()
      ensures Data() == Ipv6Data(true, false, None, [], [], 1, DEFAULT_AUTOCONF)
    {
      enabled, forwarding, mtu := true, false, None;
      addresses, neighbors := [], [];
      dupAddrDetectTransmits, autoconf := 1, DEFAULT_AUTOCONF;
    }

    method AddAddress(a: Address6)
      modifies this
      ensures Data() == old(Data()).(addresses := old(addresses) + [a])
    {
      addresses := addresses + [a];
    }

    method AddNeighbor(n: Neighbor6)
      modifies this
      ensures Data() == old(Data()).(neighbors := old(neighbors) + [n])
    {
      neighbors := neighbors + [n];
    }

    method RemoveAddressByIp(ip: string) returns (removed: bool)
      modifies this
      ensures removed == FirstWithKey(old(addresses), Address6Ip, ip).Some?
      ensures Data() == old(Data()).(addresses := RemoveFirstWithKey(old(addresses), Address6Ip, ip))
    {
      var i := 0;
      while i < |addresses|
        invariant 0 <= i <= |addresses|
        invariant forall j :: 0 <= j < i ==> addresses[j].ip != ip
        invariant Data() == old(Data())
      {
        if addresses[i].ip == ip {
          FirstWithKeyIs(addresses, Address6Ip, ip, i);
          addresses := addresses[..i] + addresses[i + 1..];
          return true;
        }
        i := i + 1;
      }
      return false;
    }

    method RemoveNeighborByIp(ip: string) returns (removed: bool)
      modifies this
      ensures removed == FirstWithKey(old(neighbors), Neighbor6Ip, ip).Some?
      ensures Data() == old(Data()).(neighbors := RemoveFirstWithKey(old(neighbors), Neighbor6Ip, ip))
    {
      var i := 0;
      while i < |neighbors|
        invariant 0 <= i <= |neighbors|
        invariant forall j :: 0 <= j < i ==> neighbors[j].ip != ip
        invariant Data() == old(Data())
      {
        if neighbors[i].ip == ip {
          FirstWithKeyIs(neighbors, Neighbor6Ip, ip, i);
          neighbors := neighbors[..i] + neighbors[i + 1..];
          return true;
        }
        i := i + 1;
      }
      return false;
    }

    /** `IetfIpv6::serialize`: the container leaves, then each address with
        its ip and prefix length; with distinct ips the result
        deserializes to what `Ipv6Written` keeps of this model. `rootOk`
        is whether libyang creates `/ietf-ip:ipv6` as a top-level node;
        when it does not, serialize throws `YangDataError`. The return
        codes of the later writes are ignored by the code. */
    method Serialize(rootOk: bool) returns (r: Result<Node>)
      ensures r.Failure? <==> !rootOk
      ensures r.Success? ==> r.value == Build(Ipv6Root(), Ipv6Log(Data()))
      ensures r.Success? && DistinctIps6(Data()) ==> ReadIpv6(Some(r.value), []) == Success(Ipv6Written(Data()))
    {
      if !rootOk {
        return Failure("YangDataError: cannot create /ietf-ip:ipv6");
      }
      var head := LeafWrites("", Head6(Data()));
      var root := NewPaths(Ipv6Root(), Ipv6Root(), [], head);
      assert [] + head == head;
      root := WriteEntries(Ipv6Root(), root, head, addresses, AddressLayout6());
      if DistinctIps6(Data()) {
        Ipv6RoundTrip(Data(), []);
      }
      r := Success(root);
    }

    /** `IetfIpv6::deserialize`, as `ReadIpv6` states it. */
    static method Deserialize(tree: Option<Node>, tops: seq<Node>) returns (r: Result<IetfIpv6>)
      ensures r.Failure? <==> ReadIpv6(tree, tops).Failure?
      ensures r.Success? ==> fresh(r.value) && r.value.Data() == ReadIpv6(tree, tops).value
    {
      if tree.None? {
        return Failure("no data tree");
      }
      var found := LocateRoot(tree.value, tops, "ipv6", MODULE);
      if found.None? {
        return Failure("ipv6 container not found");
      }
      var enabled, forwarding, mtu := ReadLeaves6(found.value);
      var addresses := ScanChildren6(found.value.children);
      ReadLocated6(tree.value, tops);
      var model := new IetfIpv6();
      model.enabled, model.forwarding, model.mtu, model.addresses := enabled, forwarding, mtu, addresses;
      return Success(model);
    }

    /** As for IPv4, with `mtu` read through `std::stoul`. */
    static method ReadLeaves6(ipv6: Node) returns (enabled: bool, forwarding: bool, mtu: Option<uint32>)
      ensures enabled == ReadFlag(LeafValue(ipv6, "enabled"), true)
      ensures forwarding == ReadFlag(LeafValue(ipv6, "forwarding"), false)
      ensures mtu == ReadU32(LeafValue(ipv6, "mtu"))
    {
      enabled, forwarding, mtu := true, false, None;
      var v := LeafValue(ipv6, "enabled");
      if v.Some? {
        enabled := IsTrueText(v.value);
      }
      v := LeafValue(ipv6, "forwarding");
      if v.Some? {
        forwarding := IsTrueText(v.value);
      }
      v := LeafValue(ipv6, "mtu");
      if v.Some? {
        var n := StoUL(v.value);
        if n.Some? {
          mtu := Some(CastU32(n.value));
        }
      }
    }

    /** The child scan of deserialize: every `address` child, in document
        order; neighbors are not read. */
    static method ScanChildren6(cs: seq<Node>) returns (addresses: seq<Address6>)
      ensures addresses == Collect(cs, "address", ReadAddress6)
    {
      addresses := [];
      var i := 0;
      while i < |cs|
        invariant 0 <= i <= |cs|
        invariant addresses == Collect(cs[..i], "address", ReadAddress6)
      {
        var ch := cs[i];
        if Named(ch, "address") {
          addresses := addresses + [ReadAddress6(ch)];
        }
        CollectSnoc(cs, i, "address", ReadAddress6);
        i := i + 1;
      }
      assert cs[..i] == cs;
    }
  }
}
