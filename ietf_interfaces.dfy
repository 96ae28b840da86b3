// The ietf-interfaces module of RFC 8343 together with the ipv4/ipv6
// containers of the RFC 8344 augment, as the interfaces codec sees them: the
// in-memory model (a vector of interfaces), its serializer (a run of path
// writes below the `interfaces` container) and its deserializer (leaf
// lookups and child scans, any error aborting the whole read).
module IetfInterfaces {
  import opened Wrappers
  import opened Numeric
  import opened Text
  import opened YangTree
  import opened KeyedList
  import opened Entries
  import Iana = IanaIfType

  const MODULE: string := "ietf-interfaces"

  /** The prefix the serializer qualifies the ietf-ip steps with; a node a
      qualified step creates belongs to the module the prefix stands for. */
  const IP: string := "ip"

  /** The prefix the serializer writes in front of an interface type. */
  const IANAIFT: string := "ianaift"

  datatype LinkUpDownTrap = TrapEnabled | TrapDisabled

  datatype Statistics = Statistics(
    discontinuityTime: Option<string>,
    inOctets: Option<uint64>,
    inUnicastPkts: Option<uint64>,
    inBroadcastPkts: Option<uint64>,
    inMulticastPkts: Option<uint64>,
    inDiscards: Option<uint32>,
    inErrors: Option<uint32>,
    inUnknownProtos: Option<uint32>,
    outOctets: Option<uint64>,
    outUnicastPkts: Option<uint64>,
    outBroadcastPkts: Option<uint64>,
    outMulticastPkts: Option<uint64>,
    outDiscards: Option<uint32>,
    outErrors: Option<uint32>)

  /** An `ipv4` or `ipv6` container as the codec uses it: the address
      strings, each "ip" or "ip/prefix-length", and the container mtu. */
  datatype IpConfig = IpConfig(addresses: seq<string>, mtu: Option<uint32>)

  datatype Interface = Interface(
    name: string,
    description: Option<string>,
    ifType: Option<Iana.IanaIfType>,
    enabled: bool,
    mtu: Option<uint32>,
    linkUpDownTrapEnable: Option<LinkUpDownTrap>,
    adminStatus: Option<string>,
    operStatus: Option<string>,
    lastChange: Option<string>,
    ifIndex: Option<int32>,
    physAddress: Option<string>,
    higherLayerIf: seq<string>,
    lowerLayerIf: seq<string>,
    speed: Option<uint64>,
    statistics: Option<Statistics>,
    ipv4: Option<IpConfig>,
    ipv6: Option<IpConfig>)

  function InterfaceName(i: Interface): string { i.name }

  /** A default-constructed interface and statistics block. */
  const NEW_INTERFACE: Interface :=
    Interface("", None, None, true, None, None, None, None, None, None, None, [], [], None, None, None, None)
  const NEW_STATISTICS: Statistics :=
    Statistics(None, None, None, None, None, None, None, None, None, None, None, None, None, None)

  /** A fresh interface is enabled, has every optional member absent and
      both leaf-lists empty. */
  lemma NewInterfaceDefaults()
    ensures var i := NEW_INTERFACE;
            && i.enabled && i.name == ""
            && i.description.None? && i.ifType.None? && i.mtu.None? && i.linkUpDownTrapEnable.None?
            && i.adminStatus.None? && i.operStatus.None? && i.lastChange.None? && i.ifIndex.None?
            && i.physAddress.None? && i.speed.None? && i.statistics.None? && i.ipv4.None? && i.ipv6.None?
            && i.higherLayerIf == [] && i.lowerLayerIf == []
  {
  }

  // ---------------------------------------------------------------------
  // What serialize writes

  /** The `interfaces` container serialize creates at
      `/ietf-interfaces:interfaces`. */
  function InterfacesRoot(): Node
  {
    Node(Some(Schema("interfaces", MODULE)), None, [])
  }

  function InterfaceKeys(i: Interface): seq<Key> { [Key("name", i.name)] }

  /** The interface leaves besides `name`: `description` when set, `enabled`
      as "false" only when false, `type` as "ianaift:" and the identity name
      when set. */
  function InterfaceFields(i: Interface): seq<Key>
  {
    FieldKeys(i.description, i.enabled, TypeText(i.ifType))
  }

  /** The text the `type` leaf is written with. */
  function TypeText(t: Option<Iana.IanaIfType>): Option<string>
  {
    if t.Some? then Some(IANAIFT + ":" + Iana.ToString(t.value)) else None
  }

  function FieldKeys(description: Option<string>, enabled: bool, ty: Option<string>): seq<Key>
  {
    (if description.Some? then [Key("description", description.value)] else [])
    + (if enabled then [] else [Key("enabled", "false")])
    + (if ty.Some? then [Key("type", ty.value)] else [])
  }

  /** An address entry is keyed by the part of the string before its first
      '/' (the whole string when there is none). */
  function AddressKeys(a: string): seq<Key> { [Key("ip", SplitCidr(a).ip)] }

  /** The part after the '/' is written as `prefix-length` when it is not
      empty. */
  function AddressFields(a: string): seq<Key>
  {
    var c := SplitCidr(a);
    if c.prefix == "" then [] else [Key("prefix-length", c.prefix)]
  }

  function AddressLayout(): Layout<string>
  {
    Layout(IP, "address", AddressKeys, AddressFields, NoDeeperWrites)
  }

  /** The container mtu, in decimal, only when set. */
  function MtuWrites(mtu: Option<uint32>): seq<Write>
  {
    if mtu.Some? then [LeafWrite("", "mtu", NatToString(mtu.value as nat))] else []
  }

  /** The writes of one family container below an interface entry: each
      address, then the mtu; none at all when the model has no container. */
  function FamilyWrites(family: string, c: Option<IpConfig>): seq<Write>
  {
    if c.None? then []
    else Under(Child(IP, family), EntriesLog(c.value.addresses, AddressLayout()) + MtuWrites(c.value.mtu))
  }

  function InterfaceMore(i: Interface): seq<Write>
  {
    FamilyWrites("ipv4", i.ipv4) + FamilyWrites("ipv6", i.ipv6)
  }

  function InterfaceLayout(): Layout<Interface>
  {
    Layout("", "interface", InterfaceKeys, InterfaceFields, InterfaceMore)
  }

  /** Every write serialize issues below the root, in order. */
  function InterfacesLog(ifs: seq<Interface>): seq<Write>
  {
    EntriesLog(ifs, InterfaceLayout())
  }

  /** What serialize writes for an interface: its `name`; `description`
      exactly when set; `enabled` exactly when false, as "false"; `type`
      exactly when set, as "ianaift:" and the identity name. */
  lemma InterfaceFieldsWritten(i: Interface)
    ensures var f := InterfaceKeys(i) + InterfaceFields(i);
            && FieldValue(f, "name") == Some(i.name)
            && FieldValue(f, "description") == i.description
            && FieldValue(f, "enabled") == (if i.enabled then None else Some("false"))
            && FieldValue(f, "type") == (if i.ifType.Some? then Some("ianaift:" + Iana.ToString(i.ifType.value)) else None)
  {
    var d := if i.description.Some? then [Key("description", i.description.value)] else [];
    var e := if i.enabled then [] else [Key("enabled", "false")];
    var t := if i.ifType.Some? then [Key("type", IANAIFT + ":" + Iana.ToString(i.ifType.value))] else [];
    assert InterfaceKeys(i) + InterfaceFields(i) == InterfaceKeys(i) + (d + (e + t));
    assert "name"[0] != "type"[0];
    assert IANAIFT + ":" == "ianaift:";
    FieldValueAppend(InterfaceKeys(i), d + (e + t), "description");
    FieldValueAppend(InterfaceKeys(i), d + (e + t), "enabled");
    FieldValueAppend(InterfaceKeys(i), d + (e + t), "type");
    FieldValueAppend(d, e + t, "description");
    FieldValueAppend(d, e + t, "enabled");
    FieldValueAppend(d, e + t, "type");
    FieldValueAppend(e, t, "enabled");
    FieldValueAppend(e, t, "type");
  }

  /** What serialize writes for an address: the `ip` key is the text
      before the first '/', or the whole address without one; the text after
      it is written as `prefix-length` exactly when it is not empty. */
  lemma AddressWritten(a: string)
    ensures Find(a, '/').None? ==> AddressKeys(a) == [Key("ip", a)] && AddressFields(a) == []
    ensures Find(a, '/').Some? ==> var i := Find(a, '/').value;
              && AddressKeys(a) == [Key("ip", a[..i])]
              && AddressFields(a) == (if i + 1 == |a| then [] else [Key("prefix-length", a[i + 1..])])
  {
  }

  // ---------------------------------------------------------------------
  // What deserialize reads

  /** `enabled`: false exactly for "false" and "0"; true when absent. */
  function ReadEnabled(v: Option<string>): (r: bool)
    ensures v.None? ==> r
    ensures v.Some? ==> (r <==> !IsFalseText(v.value))
  {
    match v
    case None => true
    case Some(t) => !IsFalseText(t)
  }

  /** `type`: the value without a leading run of one or more non-':'
      characters and the ':' after it, looked up in the identity table;
      a name that is not in the table gives `Unknown`. */
  function ReadType(v: Option<string>): (r: Option<Iana.IanaIfType>)
    ensures r.Some? <==> v.Some?
    ensures v.Some? && Find(v.value, ':').Some? && Find(v.value, ':').value > 0 ==>
              r.value == Iana.FromString(v.value[Find(v.value, ':').value + 1..])
    ensures v.Some? && (Find(v.value, ':').None? || Find(v.value, ':').value == 0) ==>
              r.value == Iana.FromString(v.value)
  {
    match v
    case None => None
    case Some(t) =>
      var s := StripIdentityPrefix(t);
      assert Find(t, ':').Some? && Find(t, ':').value > 0 ==> s == t[Find(t, ':').value + 1..];
      Some(Iana.FromString(s))
  }

  /** `statistics` is set only when it has a `discontinuity-time` value,
      which is kept with a trailing "+00:00" rewritten to "Z"; no counter
      is read. */
  function ReadStatistics(n: Node): (r: Option<Statistics>)
    ensures r.Some? <==> FindChild(n, "statistics").Some?
                         && LeafValue(FindChild(n, "statistics").value, "discontinuity-time").Some?
    ensures r.Some? ==> var dt := LeafValue(FindChild(n, "statistics").value, "discontinuity-time").value;
              r.value == NEW_STATISTICS.(discontinuityTime := Some(NormalizeUtc(dt)))
  {
    match FindChild(n, "statistics")
    case None => None
    case Some(s) =>
      match LeafValue(s, "discontinuity-time")
      case None => None
      case Some(dt) => Some(NEW_STATISTICS.(discontinuityTime := Some(NormalizeUtc(dt))))
  }

  /** One `address` entry: "ip/plen" when it has a `prefix-length` value,
      plain "ip" otherwise, and nothing when it has no `ip` value. */
  function ReadAddress(n: Node): (r: Option<string>)
    ensures r.None? <==> LeafValue(n, "ip").None?
    ensures r.Some? && LeafValue(n, "prefix-length").None? ==> r.value == LeafValue(n, "ip").value
    ensures r.Some? && LeafValue(n, "prefix-length").Some? ==>
              r.value == LeafValue(n, "ip").value + "/" + LeafValue(n, "prefix-length").value
  {
    match LeafValue(n, "ip")
    case None => None
    case Some(ip) => Some(JoinCidr(ip, LeafValue(n, "prefix-length")))
  }

  /** A container mtu, `static_cast<uint32_t>(std::stoul(v))`: a value
      that does not parse is an error. */
  function ReadMtu(v: Option<string>): (r: Result<Option<uint32>>)
    ensures v.None? ==> r == Success(None)
    ensures v.Some? ==> (r.Failure? <==> StoUL(v.value).None?)
    ensures v.Some? && r.Success? ==> r.value == Some(CastU32(StoUL(v.value).value))
  {
    match v
    case None => Success(None)
    case Some(t) =>
      match StoUL(t)
      case None => Failure("mtu is not a number")
      case Some(m) => Success(Some(CastU32(m)))
  }

  /** The addresses of a family container that have an `ip`, in document
      order. */
  function ContainerAddresses(c: Node): seq<string>
  {
    Somes(Collect(c.children, "address", ReadAddress))
  }

  /** An `ipv4` or `ipv6` container: nothing when absent; an mtu that does
      not parse is an error (also when no address follows); a container
      none of whose entries has an `ip` is dropped. */
  function ReadFamily(c: Option<Node>): (r: Result<Option<IpConfig>>)
    ensures c.None? ==> r == Success(None)
    ensures c.Some? ==> (r.Failure? <==> ReadMtu(LeafValue(c.value, "mtu")).Failure?)
    ensures c.Some? && r.Success? ==>
              (r.value.None? <==> ContainerAddresses(c.value) == [])
              && (r.value.Some? ==> r.value.value == IpConfig(ContainerAddresses(c.value), ReadMtu(LeafValue(c.value, "mtu")).value))
  {
    match c
    case None => Success(None)
    case Some(n) =>
      match ReadMtu(LeafValue(n, "mtu"))
      case Failure(e) => Failure(e)
      case Success(mtu) =>
        var addresses := ContainerAddresses(n);
        if addresses == [] then Success(None) else Success(Some(IpConfig(addresses, mtu)))
  }

  /** `if-index`, `std::stoi(v)`: a value that does not parse is an error. */
  function ReadIfIndex(v: Option<string>): (r: Result<Option<int32>>)
    ensures v.None? ==> r == Success(None)
    ensures v.Some? ==> (r.Failure? <==> StoI(v.value).None?)
    ensures v.Some? && r.Success? ==> r.value == StoI(v.value)
  {
    match v
    case None => Success(None)
    case Some(t) =>
      match StoI(t)
      case None => Failure("if-index is not a number")
      case Some(x) => Success(Some(x))
  }

  /** One `interface` entry. A missing or empty `name`, an mtu of either
      family or an `if-index` that does not parse is an error; every other
      leaf keeps the default when absent, and `mtu`, `speed` and
      `link-up-down-trap-enable` are never read. */
  function ReadInterface(n: Node): (r: Result<Interface>)
    ensures r.Failure? <==>
              || LeafValue(n, "name").GetOr("") == ""
              || ReadFamily(FindChild(n, "ipv4")).Failure?
              || ReadFamily(FindChild(n, "ipv6")).Failure?
              || ReadIfIndex(LeafValue(n, "if-index")).Failure?
    ensures r.Success? ==>
              && r.value.name == LeafValue(n, "name").value
              && r.value.description == LeafValue(n, "description")
              && r.value.ipv4 == ReadFamily(FindChild(n, "ipv4")).value
              && r.value.ipv6 == ReadFamily(FindChild(n, "ipv6")).value
              && r.value.ifType == ReadType(LeafValue(n, "type"))
              && r.value.enabled == ReadEnabled(LeafValue(n, "enabled"))
              && r.value.statistics == ReadStatistics(n)
              && r.value.ifIndex == ReadIfIndex(LeafValue(n, "if-index")).value
              && r.value.adminStatus == LeafValue(n, "admin-status")
              && r.value.operStatus == LeafValue(n, "oper-status")
              && r.value.lastChange == LeafValue(n, "last-change")
              && r.value.physAddress == LeafValue(n, "phys-address")
              && r.value.higherLayerIf == LeafListValues(n, "higher-layer-if")
              && r.value.lowerLayerIf == LeafListValues(n, "lower-layer-if")
              && r.value.mtu.None? && r.value.speed.None? && r.value.linkUpDownTrapEnable.None?
  {
    var name := LeafValue(n, "name").GetOr("");
    if name == "" then Failure("interface without a name")
    else
      var ipv4 := ReadFamily(FindChild(n, "ipv4"));
      var ipv6 := ReadFamily(FindChild(n, "ipv6"));
      var ifIndex := ReadIfIndex(LeafValue(n, "if-index"));
      if ipv4.Failure? then Failure(ipv4.error)
      else if ipv6.Failure? then Failure(ipv6.error)
      else if ifIndex.Failure? then Failure(ifIndex.error)
      else Success(NEW_INTERFACE.(
        name := name,
        description := LeafValue(n, "description"),
        ifType := ReadType(LeafValue(n, "type")),
        enabled := ReadEnabled(LeafValue(n, "enabled")),
        adminStatus := LeafValue(n, "admin-status"),
        operStatus := LeafValue(n, "oper-status"),
        statistics := ReadStatistics(n),
        ipv4 := ipv4.value,
        ipv6 := ipv6.value,
        lastChange := LeafValue(n, "last-change"),
        ifIndex := ifIndex.value,
        physAddress := LeafValue(n, "phys-address"),
        higherLayerIf := LeafListValues(n, "higher-layer-if"),
        lowerLayerIf := LeafListValues(n, "lower-layer-if")))
  }

  /** `IetfInterfaces::deserialize`: no tree, no `interfaces` container
      (neither the tree itself nor `/ietf-interfaces:interfaces`), or an
      interface entry that cannot be read is an error. */
  function ReadInterfaces(tree: Option<Node>, tops: seq<Node>): (r: Result<seq<Interface>>)
    ensures r.Failure? <==> || tree.None?
                            || LocateRoot(tree.value, tops, "interfaces", MODULE).None?
                            || CollectAll(LocateRoot(tree.value, tops, "interfaces", MODULE).value.children, "interface", ReadInterface).Failure?
    ensures r.Success? ==> r == CollectAll(LocateRoot(tree.value, tops, "interfaces", MODULE).value.children, "interface", ReadInterface)
  {
    if tree.None? then Failure("no data tree")
    else match LocateRoot(tree.value, tops, "interfaces", MODULE)
      case None => Failure("interfaces container not found")
      case Some(root) => CollectAll(root.children, "interface", ReadInterface)
  }

  /** The test's expectation for an address entry with both leaves. */
  lemma ReadAddressExample()
    ensures ReadAddress(Node(Some(Schema("address", IP)), None,
                             [Leaf("ip", IP, "192.0.2.1"), Leaf("prefix-length", IP, "24")]))
            == Some("192.0.2.1/24")
  {
    var n := Node(Some(Schema("address", IP)), None, [Leaf("ip", IP, "192.0.2.1"), Leaf("prefix-length", IP, "24")]);
    FirstNamedIs(n.children, "ip", 0);
    FirstNamedIs(n.children, "prefix-length", 1);
    assert "192.0.2.1" + "/" + "24" == "192.0.2.1/24";
  }

  /** The test's expectation for a prefixed type value. */
  lemma ReadTypeExample()
    ensures ReadType(Some("ianaift:ethernetCsmacd")) == Some(Iana.ethernetCsmacd)
  {
    QualifiedEthernetSplit();
    Iana.FromStringCaseSensitive();
  }

  lemma QualifiedEthernetSplit()
    ensures StripIdentityPrefix("ianaift:ethernetCsmacd") == "ethernetCsmacd"
  {
    IanaPrefixPlain();
    StripIdentityPrefixOfQualified(IANAIFT, "ethernetCsmacd");
    assert "ianaift:ethernetCsmacd" == IANAIFT + ":" + "ethernetCsmacd";
  }

  lemma IanaPrefixPlain()
    ensures Find(IANAIFT, ':').None?
  {
    assert forall j :: 0 <= j < |IANAIFT| ==> IANAIFT[j] != ':';
  }

  /** A type is read back as the identity it was written as. */
  lemma ReadWrittenType(t: Iana.IanaIfType)
    ensures ReadType(Some(IANAIFT + ":" + Iana.ToString(t))) == Some(t)
  {
    IanaPrefixPlain();
    StripIdentityPrefixOfQualified(IANAIFT, Iana.ToString(t));
    Iana.FromToString(t);
  }

  // ---------------------------------------------------------------------
  // The round trip

  /** What a write and a read keep of an interface: name, description,
      type and enabled, and each family container that has an address,
      with its addresses normalized and its mtu; no operational leaf is
      written, and a container without addresses is not read back. */
  function WrittenFamily(c: Option<IpConfig>): Option<IpConfig>
  {
    if c.None? || c.value.addresses == [] then None
    else Some(IpConfig(Map(c.value.addresses, NormalizeCidr), c.value.mtu))
  }

  function WrittenInterface(i: Interface): Interface
  {
    NEW_INTERFACE.(name := i.name, description := i.description, ifType := i.ifType, enabled := i.enabled,
                   ipv4 := WrittenFamily(i.ipv4), ipv6 := WrittenFamily(i.ipv6))
  }

  /** Within a container no two addresses have the same `ip` part (each
      address write designates its entry by that part). */
  predicate DistinctAddressIps(c: Option<IpConfig>)
  {
    c.Some? ==> forall i, j :: 0 <= i < j < |c.value.addresses| ==>
                  SplitCidr(c.value.addresses[i]).ip != SplitCidr(c.value.addresses[j]).ip
  }

  /** Interfaces whose writes designate distinct entries: distinct names,
      and distinct address ips within each container. */
  predicate DistinctEntries(ifs: seq<Interface>)
  {
    && (forall i, j :: 0 <= i < j < |ifs| ==> ifs[i].name != ifs[j].name)
    && (forall k :: 0 <= k < |ifs| ==> DistinctAddressIps(ifs[k].ipv4) && DistinctAddressIps(ifs[k].ipv6))
  }

  function MtuLeaves(mtu: Option<uint32>): seq<Node>
  {
    if mtu.Some? then [Leaf("mtu", IP, NatToString(mtu.value as nat))] else []
  }

  /** The container the writes of a family create: one entry per address,
      then the mtu leaf. */
  function FamilyNode(family: string, c: IpConfig): Node
  {
    Node(Some(Schema(family, IP)), None, EntryNodes(c.addresses, IP, AddressLayout()) + MtuLeaves(c.mtu))
  }

  /** The container exists exactly when something was written into it. */
  function FamilyNodes(family: string, c: Option<IpConfig>): seq<Node>
  {
    if c.None? || (c.value.addresses == [] && c.value.mtu.None?) then [] else [FamilyNode(family, c.value)]
  }

  function InterfaceLeaves(i: Interface): seq<Key> { InterfaceKeys(i) + InterfaceFields(i) }

  /** The entry an interface becomes: its leaves, then its `ipv4` and
      `ipv6` containers when they exist. */
  function InterfaceTree(i: Interface): Node
  {
    Node(Some(Schema("interface", MODULE)), None,
         KeyLeaves(InterfaceLeaves(i), MODULE) + FamilyNodes("ipv4", i.ipv4) + FamilyNodes("ipv6", i.ipv6))
  }

  predicate IsInterfaceLeafName(name: string)
  {
    name == "name" || name == "description" || name == "enabled" || name == "type"
  }

  lemma InterfaceLeafNames(i: Interface)
    ensures DistinctKeyNames(InterfaceLeaves(i))
    ensures forall k :: 0 <= k < |InterfaceLeaves(i)| ==> IsInterfaceLeafName(InterfaceLeaves(i)[k].name)
  {
    LeafKeyNames(i.name, i.description, i.enabled, TypeText(i.ifType));
  }

  lemma LeafKeyNames(name: string, description: Option<string>, enabled: bool, ty: Option<string>)
    ensures var ks := [Key("name", name)] + FieldKeys(description, enabled, ty);
            && DistinctKeyNames(ks)
            && forall k :: 0 <= k < |ks| ==> IsInterfaceLeafName(ks[k].name)
  {
    var d := if description.Some? then [Key("description", description.value)] else [];
    var e := if enabled then [] else [Key("enabled", "false")];
    var t := if ty.Some? then [Key("type", ty.value)] else [];
    var ks := [Key("name", name)] + (d + (e + t));
    assert [Key("name", name)] + FieldKeys(description, enabled, ty) == ks;
    assert DistinctKeyNames(ks) by {
      var et := e + t;
      assert DistinctKeyNames(et) by {
        assert "enabled" != "type" by { assert "enabled"[0] != "type"[0]; }
        DistinctKeyNamesAppend(e, t);
      }
      assert DistinctKeyNames(d + et) by {
        assert forall k :: 0 <= k < |et| ==> et[k].name == "enabled" || et[k].name == "type";
        assert "description" != "enabled" && "description" != "type" by {
          assert "description"[0] != "enabled"[0] && "description"[0] != "type"[0];
        }
        DistinctKeyNamesAppend(d, et);
      }
      assert forall k :: 0 <= k < |d + et| ==> (d + et)[k].name in {"description", "enabled", "type"};
      assert "name" !in {"description", "enabled", "type"} by {
        assert "name"[0] != "description"[0] && "name"[0] != "enabled"[0] && "name"[0] != "type"[0];
      }
      DistinctKeyNamesAppend([Key("name", name)], d + et);
    }
  }

  lemma LeavesNoneNamed(i: Interface, name: string)
    requires !IsInterfaceLeafName(name)
    ensures NoneNamed(KeyLeaves(InterfaceLeaves(i), MODULE), name)
  {
    InterfaceLeafNames(i);
  }

  lemma FamilyNodesNamed(family: string, c: Option<IpConfig>, name: string)
    requires name != family
    ensures NoneNamed(FamilyNodes(family, c), name)
  {
  }

  lemma AddressesLaidOut(xs: seq<string>)
    requires DistinctAddressIps(Some(IpConfig(xs, None)))
    ensures WellLaidOut(xs, AddressLayout(), ["ip"]) && DistinctKeys(xs, AddressLayout())
  {
    forall i, j | 0 <= i < j < |xs|
      ensures AddressKeys(xs[i]) != AddressKeys(xs[j])
    {
      assert AddressKeys(xs[i])[0].value == SplitCidr(xs[i]).ip;
    }
  }

  /** The writes inside a family container build its entries and then its
      mtu leaf. */
  lemma BuildFamilyContainer(family: string, c: IpConfig)
    requires DistinctAddressIps(Some(c))
    ensures Build(Node(Some(Schema(family, IP)), None, []), EntriesLog(c.addresses, AddressLayout()) + MtuWrites(c.mtu))
            == FamilyNode(family, c)
  {
    var c0 := Node(Some(Schema(family, IP)), None, []);
    var es := EntryNodes(c.addresses, IP, AddressLayout());
    var c1 := c0.(children := es);
    assert Build(c0, EntriesLog(c.addresses, AddressLayout())) == c1 by {
      AddressesLaidOut(c.addresses);
      BuildEntries(c0, c.addresses, AddressLayout(), ["ip"]);
      assert [] + es == es;
    }
    BuildAppend(c0, EntriesLog(c.addresses, AddressLayout()), MtuWrites(c.mtu));
    if c.mtu.Some? {
      EntryNodesNamed(c.addresses, IP, AddressLayout(), "mtu");
      LeafWriteAppends(c1, "", "mtu", NatToString(c.mtu.value as nat));
    } else {
      assert es + [] == es;
    }
  }

  /** The writes of a family below a node without such a container append
      the container, when the model has one with an address or an mtu. */
  lemma BuildFamily(n: Node, family: string, c: Option<IpConfig>)
    requires NoneNamed(n.children, family) && DistinctAddressIps(c)
    ensures Build(n, FamilyWrites(family, c)) == n.(children := n.children + FamilyNodes(family, c))
  {
    if c.None? || (c.value.addresses == [] && c.value.mtu.None?) {
      if c.Some? {
        assert EntriesLog(c.value.addresses, AddressLayout()) + MtuWrites(c.value.mtu) == [];
      }
      assert n.children + [] == n.children;
    } else {
      var st := Child(IP, family);
      var inner := EntriesLog(c.value.addresses, AddressLayout()) + MtuWrites(c.value.mtu);
      assert inner != [] by {
        EntriesLogEmpty(c.value.addresses, AddressLayout());
      }
      assert BelowRoot(inner) by {
        EntriesLogBelowRoot(c.value.addresses, AddressLayout());
        BelowRootConcat(EntriesLog(c.value.addresses, AddressLayout()), MtuWrites(c.value.mtu));
      }
      assert FirstMatch(n.children, st).None?;
      BuildUnderNew(n, st, inner);
      BuildFamilyContainer(family, c.value);
    }
  }

  /** The writes for an interface build `InterfaceTree`. */
  lemma BuildInterfaceEntry(i: Interface)
    requires DistinctAddressIps(i.ipv4) && DistinctAddressIps(i.ipv6)
    ensures FilledEntry(i, MODULE, InterfaceLayout()) == InterfaceTree(i)
  {
    var e := EntryNode("interface", MODULE, InterfaceLeaves(i));
    var e1 := e.(children := e.children + FamilyNodes("ipv4", i.ipv4));
    assert "ipv4"[0] != "name"[0] && "ipv4"[0] != "type"[0] && "ipv4"[3] != "ipv6"[3];
    BuildAppend(e, FamilyWrites("ipv4", i.ipv4), FamilyWrites("ipv6", i.ipv6));
    assert Build(e, FamilyWrites("ipv4", i.ipv4)) == e1 by {
      LeavesNoneNamed(i, "ipv4");
      BuildFamily(e, "ipv4", i.ipv4);
    }
    assert NoneNamed(e1.children, "ipv6") by {
      LeavesNoneNamed(i, "ipv6");
      NoneNamedAppend(e.children, FamilyNodes("ipv4", i.ipv4), "ipv6");
    }
    BuildFamily(e1, "ipv6", i.ipv6);
  }

  lemma InterfacesLaidOut(ifs: seq<Interface>)
    requires DistinctEntries(ifs)
    ensures WellLaidOut(ifs, InterfaceLayout(), ["name"]) && DistinctKeys(ifs, InterfaceLayout())
  {
    forall k | 0 <= k < |ifs|
      ensures DistinctKeyNames(InterfaceLeaves(ifs[k])) && BelowRoot(InterfaceMore(ifs[k]))
    {
      InterfaceLeafNames(ifs[k]);
      BelowRootConcat(FamilyWrites("ipv4", ifs[k].ipv4), FamilyWrites("ipv6", ifs[k].ipv6));
    }
    forall i, j | 0 <= i < j < |ifs|
      ensures InterfaceKeys(ifs[i]) != InterfaceKeys(ifs[j])
    {
      assert InterfaceKeys(ifs[i])[0].value == ifs[i].name;
    }
  }

  /** Serializing interfaces with distinct names and distinct address
      ips builds one entry per interface, in order. */
  lemma SerializeBuildsTree(ifs: seq<Interface>)
    requires DistinctEntries(ifs)
    ensures Build(InterfacesRoot(), InterfacesLog(ifs)) == InterfacesRoot().(children := EntryNodes(ifs, MODULE, InterfaceLayout()))
  {
    InterfacesLaidOut(ifs);
    BuildEntries(InterfacesRoot(), ifs, InterfaceLayout(), ["name"]);
    assert [] + EntryNodes(ifs, MODULE, InterfaceLayout()) == EntryNodes(ifs, MODULE, InterfaceLayout());
  }

  // ---------------------------------------------------------------------
  // Reading the tree back

  function PresentCidr(a: string): Option<string> { Some(NormalizeCidr(a)) }

  /** An address entry is read back as its normalized address. */
  lemma ReadAddressEntry(a: string)
    ensures ReadAddress(FilledEntry(a, IP, AddressLayout())) == PresentCidr(a)
  {
    var leaves := AddressKeys(a) + AddressFields(a);
    var e := EntryNode("address", IP, leaves);
    assert e.children == KeyLeaves(leaves, IP) + [];
    LeafValueOfFields(e.schema, None, leaves, IP, [], "ip");
    LeafValueOfFields(e.schema, None, leaves, IP, [], "prefix-length");
    JoinSplitCidr(a);
  }

  lemma ReadFamilyMtu(family: string, c: IpConfig)
    ensures ReadMtu(LeafValue(FamilyNode(family, c), "mtu")) == Success(c.mtu)
  {
    var n := FamilyNode(family, c);
    var es := EntryNodes(c.addresses, IP, AddressLayout());
    EntryNodesNamed(c.addresses, IP, AddressLayout(), "mtu");
    if c.mtu.Some? {
      var m := c.mtu.value as nat;
      LeafValueAfter(n.schema, None, es, Leaf("mtu", IP, NatToString(m)), "mtu");
      StoULOfNatToString(m);
    } else {
      assert n.children == es;
      LeafValueNone(n, "mtu");
    }
  }

  lemma ReadAddressEntries(xs: seq<string>)
    ensures forall k :: 0 <= k < |xs| ==> ReadAddress(FilledEntry(xs[k], IP, AddressLayout())) == PresentCidr(xs[k])
  {
    forall k | 0 <= k < |xs|
      ensures ReadAddress(FilledEntry(xs[k], IP, AddressLayout())) == PresentCidr(xs[k])
    {
      ReadAddressEntry(xs[k]);
    }
  }

  lemma CollectAddressesBefore(xs: seq<string>, ms: seq<Node>)
    requires NoneNamed(ms, "address")
    ensures Collect(EntryNodes(xs, IP, AddressLayout()) + ms, "address", ReadAddress) == Map(xs, PresentCidr)
  {
    var es := EntryNodes(xs, IP, AddressLayout());
    assert Collect(es, "address", ReadAddress) == Map(xs, PresentCidr) by {
      ReadAddressEntries(xs);
      CollectEntries(xs, IP, AddressLayout(), ReadAddress, PresentCidr);
    }
    CollectAppend(es, ms, "address", ReadAddress);
    CollectNone(ms, "address", ReadAddress);
  }

  lemma CollectFamilyAddresses(family: string, c: IpConfig)
    ensures Collect(FamilyNode(family, c).children, "address", ReadAddress) == Map(c.addresses, PresentCidr)
  {
    assert NoneNamed(MtuLeaves(c.mtu), "address");
    CollectAddressesBefore(c.addresses, MtuLeaves(c.mtu));
  }

  lemma ReadFamilyAddresses(family: string, c: IpConfig)
    ensures ContainerAddresses(FamilyNode(family, c)) == Map(c.addresses, NormalizeCidr)
  {
    CollectFamilyAddresses(family, c);
    SomesOfPresent(Map(c.addresses, PresentCidr), Map(c.addresses, NormalizeCidr));
  }

  /** A family container that was written is read back with its addresses
      normalized and its mtu, and dropped when it has no address. */
  lemma ReadFamilyNode(family: string, c: IpConfig)
    ensures ReadFamily(Some(FamilyNode(family, c))) == Success(WrittenFamily(Some(c)))
  {
    ReadFamilyMtu(family, c);
    ReadFamilyAddresses(family, c);
  }

  lemma InterfaceTreeLeaf(i: Interface, name: string)
    requires name != "ipv4" && name != "ipv6"
    ensures LeafValue(InterfaceTree(i), name) == FieldValue(InterfaceLeaves(i), name)
  {
    var rest := FamilyNodes("ipv4", i.ipv4) + FamilyNodes("ipv6", i.ipv6);
    NoneNamedAppend(FamilyNodes("ipv4", i.ipv4), FamilyNodes("ipv6", i.ipv6), name);
    assert InterfaceTree(i).children == KeyLeaves(InterfaceLeaves(i), MODULE) + rest;
    LeafValueOfFields(InterfaceTree(i).schema, None, InterfaceLeaves(i), MODULE, rest, name);
  }

  lemma InterfaceTreeIpv4(i: Interface)
    ensures FindChild(InterfaceTree(i), "ipv4")
            == if FamilyNodes("ipv4", i.ipv4) == [] then None else Some(FamilyNode("ipv4", i.ipv4.value))
  {
    var t := InterfaceTree(i);
    var kl := KeyLeaves(InterfaceLeaves(i), MODULE);
    assert "ipv4"[0] != "name"[0] && "ipv4"[0] != "type"[0] && "ipv4"[3] != "ipv6"[3];
    LeavesNoneNamed(i, "ipv4");
    if FamilyNodes("ipv4", i.ipv4) == [] {
      NoneNamedAppend(kl, FamilyNodes("ipv6", i.ipv6), "ipv4");
      assert t.children == kl + FamilyNodes("ipv6", i.ipv6);
      LeafValueNone(t, "ipv4");
    } else {
      FirstNamedIs(t.children, "ipv4", |kl|);
    }
  }

  lemma InterfaceTreeIpv6(i: Interface)
    ensures FindChild(InterfaceTree(i), "ipv6")
            == if FamilyNodes("ipv6", i.ipv6) == [] then None else Some(FamilyNode("ipv6", i.ipv6.value))
  {
    var t := InterfaceTree(i);
    var before := KeyLeaves(InterfaceLeaves(i), MODULE) + FamilyNodes("ipv4", i.ipv4);
    assert "ipv6"[0] != "name"[0] && "ipv6"[0] != "type"[0] && "ipv4"[3] != "ipv6"[3];
    LeavesNoneNamed(i, "ipv6");
    NoneNamedAppend(KeyLeaves(InterfaceLeaves(i), MODULE), FamilyNodes("ipv4", i.ipv4), "ipv6");
    if FamilyNodes("ipv6", i.ipv6) == [] {
      assert t.children == before + [];
      LeafValueNone(t, "ipv6");
    } else {
      FirstNamedIs(t.children, "ipv6", |before|);
    }
  }

  lemma ReadInterfaceFamilies(i: Interface)
    ensures ReadFamily(FindChild(InterfaceTree(i), "ipv4")) == Success(WrittenFamily(i.ipv4))
    ensures ReadFamily(FindChild(InterfaceTree(i), "ipv6")) == Success(WrittenFamily(i.ipv6))
  {
    InterfaceTreeIpv4(i);
    InterfaceTreeIpv6(i);
    if FamilyNodes("ipv4", i.ipv4) != [] {
      ReadFamilyNode("ipv4", i.ipv4.value);
    }
    if FamilyNodes("ipv6", i.ipv6) != [] {
      ReadFamilyNode("ipv6", i.ipv6.value);
    }
  }

  /** The children of a written interface entry are its leaves and its
      two family containers, so no other name occurs among them. */
  lemma TreeNoneNamed(i: Interface, name: string)
    requires !IsInterfaceLeafName(name) && name != "ipv4" && name != "ipv6"
    ensures NoneNamed(InterfaceTree(i).children, name)
  {
    var kl := KeyLeaves(InterfaceLeaves(i), MODULE);
    LeavesNoneNamed(i, name);
    NoneNamedAppend(kl, FamilyNodes("ipv4", i.ipv4), name);
    NoneNamedAppend(kl + FamilyNodes("ipv4", i.ipv4), FamilyNodes("ipv6", i.ipv6), name);
  }

  /** No operational leaf is in a written interface entry. */
  lemma InterfaceTreeNoState(i: Interface)
    ensures var t := InterfaceTree(i);
            && LeafValue(t, "admin-status").None? && LeafValue(t, "oper-status").None?
            && LeafValue(t, "last-change").None? && LeafValue(t, "if-index").None?
            && LeafValue(t, "phys-address").None?
  {
    var t := InterfaceTree(i);
    assert "oper-status"[0] != "description"[0] && "last-change"[0] != "description"[0];
    assert LeafValue(t, "admin-status").None? by { TreeNoneNamed(i, "admin-status"); LeafValueNone(t, "admin-status"); }
    assert LeafValue(t, "oper-status").None? by { TreeNoneNamed(i, "oper-status"); LeafValueNone(t, "oper-status"); }
    assert LeafValue(t, "last-change").None? by { TreeNoneNamed(i, "last-change"); LeafValueNone(t, "last-change"); }
    assert LeafValue(t, "if-index").None? by { TreeNoneNamed(i, "if-index"); LeafValueNone(t, "if-index"); }
    assert LeafValue(t, "phys-address").None? by { TreeNoneNamed(i, "phys-address"); LeafValueNone(t, "phys-address"); }
  }

  /** No statistics and no leaf-list entry is in a written interface
      entry. */
  lemma InterfaceTreeNoLists(i: Interface)
    ensures var t := InterfaceTree(i);
            && FindChild(t, "statistics").None?
            && LeafListValues(t, "higher-layer-if") == []
            && LeafListValues(t, "lower-layer-if") == []
  {
    var t := InterfaceTree(i);
    assert FindChild(t, "statistics").None? by { TreeNoneNamed(i, "statistics"); LeafValueNone(t, "statistics"); }
    assert Collect(t.children, "higher-layer-if", NodeValue) == [] by {
      TreeNoneNamed(i, "higher-layer-if");
      CollectNone(t.children, "higher-layer-if", NodeValue);
    }
    assert Collect(t.children, "lower-layer-if", NodeValue) == [] by {
      TreeNoneNamed(i, "lower-layer-if");
      CollectNone(t.children, "lower-layer-if", NodeValue);
    }
  }

  /** The leaves a written interface entry carries. */
  lemma InterfaceTreeNames(i: Interface)
    ensures LeafValue(InterfaceTree(i), "name") == Some(i.name)
    ensures LeafValue(InterfaceTree(i), "description") == i.description
  {
    InterfaceFieldsWritten(i);
    assert "ipv4"[0] != "name"[0];
    InterfaceTreeLeaf(i, "name");
    InterfaceTreeLeaf(i, "description");
  }

  lemma InterfaceTreeEnabled(i: Interface)
    ensures ReadEnabled(LeafValue(InterfaceTree(i), "enabled")) == i.enabled
  {
    InterfaceFieldsWritten(i);
    InterfaceTreeLeaf(i, "enabled");
  }

  lemma InterfaceTreeType(i: Interface)
    ensures ReadType(LeafValue(InterfaceTree(i), "type")) == i.ifType
  {
    var v := LeafValue(InterfaceTree(i), "type");
    assert v == FieldValue(InterfaceLeaves(i), "type") by {
      assert "ipv4"[0] != "type"[0];
      InterfaceTreeLeaf(i, "type");
    }
    assert v == (if i.ifType.Some? then Some("ianaift:" + Iana.ToString(i.ifType.value)) else None) by {
      InterfaceFieldsWritten(i);
    }
    if i.ifType.Some? {
      assert IANAIFT + ":" == "ianaift:";
      ReadWrittenType(i.ifType.value);
    }
  }

  /** A written interface entry with a name is read back as
      `WrittenInterface`. */
  lemma ReadInterfaceTree(i: Interface)
    requires i.name != ""
    ensures ReadInterface(InterfaceTree(i)) == Success(WrittenInterface(i))
  {
    InterfaceTreeNames(i);
    InterfaceTreeEnabled(i);
    InterfaceTreeType(i);
    InterfaceTreeNoState(i);
    InterfaceTreeNoLists(i);
    ReadInterfaceFamilies(i);
  }

  /** A written interface entry without a name is refused on reading. */
  lemma ReadUnnamedInterfaceTree(i: Interface)
    requires i.name == ""
    ensures ReadInterface(InterfaceTree(i)).Failure?
  {
    InterfaceTreeNames(i);
  }

  lemma ReadEntry(x: Interface)
    requires x.name != "" && DistinctAddressIps(x.ipv4) && DistinctAddressIps(x.ipv6)
    ensures Named(FilledEntry(x, MODULE, InterfaceLayout()), "interface")
    ensures ReadInterface(FilledEntry(x, MODULE, InterfaceLayout())) == Success(WrittenInterface(x))
  {
    BuildInterfaceEntry(x);
    ReadInterfaceTree(x);
  }

  lemma ReadEntries(xs: seq<Interface>)
    requires forall k :: 0 <= k < |xs| ==> xs[k].name != "" && DistinctAddressIps(xs[k].ipv4) && DistinctAddressIps(xs[k].ipv6)
    ensures CollectAll(EntryNodes(xs, MODULE, InterfaceLayout()), "interface", ReadInterface) == Success(Map(xs, WrittenInterface))
  {
    forall k | 0 <= k < |xs|
      ensures ReadInterface(FilledEntry(xs[k], MODULE, InterfaceLayout())) == Success(WrittenInterface(xs[k]))
    {
      ReadEntry(xs[k]);
    }
    CollectAllEntries(xs, MODULE, InterfaceLayout(), ReadInterface, WrittenInterface);
  }

  /** Deserializing what serialize built from interfaces with distinct,
      non-empty names and distinct address ips gives them back in order,
      each as `WrittenInterface`: name, description, type and enabled,
      and the containers that have an address, with their addresses
      normalized and their mtu. */
  lemma RoundTrip(ifs: seq<Interface>, tops: seq<Node>)
    requires DistinctEntries(ifs)
    requires forall k :: 0 <= k < |ifs| ==> ifs[k].name != ""
    ensures ReadInterfaces(Some(Build(InterfacesRoot(), InterfacesLog(ifs))), tops) == Success(Map(ifs, WrittenInterface))
  {
    SerializeBuildsTree(ifs);
    ReadEntries(ifs);
    ReadRoot(EntryNodes(ifs, MODULE, InterfaceLayout()), tops);
  }

  lemma ReadRoot(cs: seq<Node>, tops: seq<Node>)
    ensures ReadInterfaces(Some(InterfacesRoot().(children := cs)), tops) == CollectAll(cs, "interface", ReadInterface)
  {
  }

  /** An interface with an empty name is serialized, but what is built
      cannot be deserialized. */
  lemma UnnamedInterfaceRejected(ifs: seq<Interface>, tops: seq<Node>, k: nat)
    requires DistinctEntries(ifs)
    requires k < |ifs| && ifs[k].name == ""
    ensures ReadInterfaces(Some(Build(InterfacesRoot(), InterfacesLog(ifs))), tops).Failure?
  {
    var es := EntryNodes(ifs, MODULE, InterfaceLayout());
    var tree := Build(InterfacesRoot(), InterfacesLog(ifs));
    assert tree == InterfacesRoot().(children := es) by {
      SerializeBuildsTree(ifs);
    }
    assert Named(es[k], "interface") && ReadInterface(es[k]).Failure? by {
      BuildInterfaceEntry(ifs[k]);
      ReadUnnamedInterfaceTree(ifs[k]);
    }
    EntryFailureFails(es, tops, k);
  }

  /** One entry that cannot be read makes the whole read fail. */
  lemma EntryFailureFails(cs: seq<Node>, tops: seq<Node>, k: nat)
    requires k < |cs| && Named(cs[k], "interface") && ReadInterface(cs[k]).Failure?
    ensures ReadInterfaces(Some(InterfacesRoot().(children := cs)), tops).Failure?
  {
    ReadRoot(cs, tops);
  }

  // ---------------------------------------------------------------------
  // The model object

  class IetfInterfaces {
    var ifs: seq<Interface>

    constructor()
      ensures ifs == []
    {
      ifs := [];
    }

    method AddInterface(i: Interface)
      modifies this
      ensures ifs == old(ifs) + [i]
    {
      ifs := ifs + [i];
    }

    /** Erases the first interface with that name and reports whether
        there was one. */
    method RemoveInterfaceByName(name: string) returns (removed: bool)
      modifies this
      ensures removed == FirstWithKey(old(ifs), InterfaceName, name).Some?
      ensures ifs == RemoveFirstWithKey(old(ifs), InterfaceName, name)
    {
      var i := 0;
      while i < |ifs|
        invariant 0 <= i <= |ifs|
        invariant forall j :: 0 <= j < i ==> ifs[j].name != name
        invariant ifs == old(ifs)
      {
        if ifs[i].name == name {
          FirstWithKeyIs(ifs, InterfaceName, name, i);
          ifs := ifs[..i] + ifs[i + 1..];
          return true;
        }
        i := i + 1;
      }
      return false;
    }

    /** `IetfInterfaces::serialize`: for each interface, its leaves and
        then its addresses and mtu, family by family, one path write at a
        time; with distinct, non-empty names and distinct address ips the
        result deserializes to `WrittenInterface` of each interface.
        `rootOk` is whether libyang creates `/ietf-interfaces:interfaces`;
        when it does not, serialize throws `YangDataError`. The return
        codes of the later writes are ignored by the code. */
    method Serialize(rootOk: bool) returns (r: Result<Node>)
      ensures r.Failure? <==> !rootOk
      ensures r.Success? ==> r.value == Build(InterfacesRoot(), InterfacesLog(ifs))
      ensures r.Success? && DistinctEntries(ifs) && (forall k :: 0 <= k < |ifs| ==> ifs[k].name != "") ==>
                ReadInterfaces(Some(r.value), []) == Success(Map(ifs, WrittenInterface))
    {
      if !rootOk {
        return Failure("YangDataError: cannot create /ietf-interfaces:interfaces");
      }
      var root := WriteEntries(InterfacesRoot(), InterfacesRoot(), [], ifs, InterfaceLayout());
      assert [] + InterfacesLog(ifs) == InterfacesLog(ifs);
      if DistinctEntries(ifs) && (forall k :: 0 <= k < |ifs| ==> ifs[k].name != "") {
        RoundTrip(ifs, []);
      }
      r := Success(root);
    }

    /** `IetfInterfaces::deserialize`, as `ReadInterfaces` states it: the
        error cases, or a fresh model holding one interface per
        `interface` entry, in document order. */
    static method Deserialize(tree: Option<Node>, tops: seq<Node>) returns (r: Result<IetfInterfaces>)
      ensures r.Failure? <==> ReadInterfaces(tree, tops).Failure?
      ensures r.Success? ==> fresh(r.value) && r.value.ifs == ReadInterfaces(tree, tops).value
    {
      if tree.None? {
        return Failure("no data tree");
      }
      var found := LocateRoot(tree.value, tops, "interfaces", MODULE);
      if found.None? {
        return Failure("interfaces container not found");
      }
      var model := new IetfInterfaces();
      var ok := AddInterfaces(model, found.value.children);
      if ok.Failure? {
        return Failure(ok.error);
      }
      return Success(model);
    }

    /** The loop over the children of the `interfaces` container: each
        `interface` entry is read and added to `model`; the first one that
        cannot be read stops the loop with its error. */
    static method AddInterfaces(model: IetfInterfaces, cs: seq<Node>) returns (r: Result<()>)
      requires model.ifs == []
      modifies model
      ensures r.Failure? <==> CollectAll(cs, "interface", ReadInterface).Failure?
      ensures r.Success? ==> model.ifs == CollectAll(cs, "interface", ReadInterface).value
    {
      var i := 0;
      while i < |cs|
        invariant 0 <= i <= |cs|
        invariant CollectAll(cs[..i], "interface", ReadInterface) == Success(model.ifs)
      {
        var err := AddChild(model, cs, i);
        if err.Some? {
          return Failure(err.value);
        }
        i := i + 1;
      }
      assert cs[..i] == cs;
      return Success(());
    }

    /** One pass of that loop: a child that is not an `interface` entry
        is skipped. */
    static method AddChild(model: IetfInterfaces, cs: seq<Node>, i: nat) returns (err: Option<string>)
      requires i < |cs| && CollectAll(cs[..i], "interface", ReadInterface) == Success(model.ifs)
      modifies model
      ensures err.None? ==> CollectAll(cs[..i + 1], "interface", ReadInterface) == Success(model.ifs)
      ensures err.Some? ==> CollectAll(cs, "interface", ReadInterface).Failure?
    {
      var ch := cs[i];
      CollectAllSnoc(cs, i, "interface", ReadInterface);
      if Named(ch, "interface") {
        var x := ReadInterfaceEntry(ch);
        if x.Failure? {
          CollectAllPrefixFails(cs, i + 1, "interface", ReadInterface);
          return Some(x.error);
        }
        model.AddInterface(x.value);
      }
      return None;
    }

    /** One `interface` entry, lookup by lookup, in the order deserialize
        performs them. */
    static method ReadInterfaceEntry(ch: Node) returns (r: Result<Interface>)
      ensures r == ReadInterface(ch)
    {
      var v := LeafValue(ch, "name");
      var name := if v.Some? then v.value else "";
      if name == "" {
        return Failure("interface without a name");
      }
      var description := LeafValue(ch, "description");
      var ifType := ReadType(LeafValue(ch, "type"));
      var enabled := ReadEnabled(LeafValue(ch, "enabled"));
      var adminStatus := LeafValue(ch, "admin-status");
      var operStatus := LeafValue(ch, "oper-status");
      var statistics := ReadStatistics(ch);
      var ipv4 := ReadFamilyContainer(FindChild(ch, "ipv4"));
      if ipv4.Failure? {
        return Failure(ipv4.error);
      }
      var ipv6 := ReadFamilyContainer(FindChild(ch, "ipv6"));
      if ipv6.Failure? {
        return Failure(ipv6.error);
      }
      var lastChange := LeafValue(ch, "last-change");
      var ifIndex := ReadIfIndex(LeafValue(ch, "if-index"));
      if ifIndex.Failure? {
        return Failure(ifIndex.error);
      }
      var physAddress := LeafValue(ch, "phys-address");
      var higher, lower := ScanLayerIfs(ch.children);
      r := Success(NEW_INTERFACE.(
        name := name, description := description, ifType := ifType, enabled := enabled,
        adminStatus := adminStatus, operStatus := operStatus, statistics := statistics,
        ipv4 := ipv4.value, ipv6 := ipv6.value, lastChange := lastChange, ifIndex := ifIndex.value,
        physAddress := physAddress, higherLayerIf := higher, lowerLayerIf := lower));
    }

    /** An `ipv4` or `ipv6` container: its mtu, then a scan of its
        `address` entries. */
    static method ReadFamilyContainer(c: Option<Node>) returns (r: Result<Option<IpConfig>>)
      ensures r == ReadFamily(c)
    {
      if c.None? {
        return Success(None);
      }
      var mtu: Option<uint32> := None;
      var v := LeafValue(c.value, "mtu");
      if v.Some? {
        var m := StoUL(v.value);
        if m.None? {
          return Failure("mtu is not a number");
        }
        mtu := Some(CastU32(m.value));
      }
      var addresses := ScanAddresses(c.value.children);
      if addresses == [] {
        return Success(None);
      }
      return Success(Some(IpConfig(addresses, mtu)));
    }

    static method ScanAddresses(cs: seq<Node>) returns (addresses: seq<string>)
      ensures addresses == Somes(Collect(cs, "address", ReadAddress))
    {
      addresses := [];
      var i := 0;
      while i < |cs|
        invariant 0 <= i <= |cs|
        invariant addresses == Somes(Collect(cs[..i], "address", ReadAddress))
      {
        var ch := cs[i];
        CollectSnoc(cs, i, "address", ReadAddress);
        if Named(ch, "address") {
          var a := ReadAddress(ch);
          SomesSnoc(Collect(cs[..i], "address", ReadAddress), a);
          if a.Some? {
            addresses := addresses + [a.value];
          }
        } else {
          assert Collect(cs[..i], "address", ReadAddress) + [] == Collect(cs[..i], "address", ReadAddress);
        }
        i := i + 1;
      }
      assert cs[..i] == cs;
    }

    /** The `higher-layer-if` and `lower-layer-if` entries, in one pass. */
    static method ScanLayerIfs(cs: seq<Node>) returns (higher: seq<string>, lower: seq<string>)
      ensures higher == Somes(Collect(cs, "higher-layer-if", NodeValue))
      ensures lower == Somes(Collect(cs, "lower-layer-if", NodeValue))
    {
      higher, lower := [], [];
      var i := 0;
      while i < |cs|
        invariant 0 <= i <= |cs|
        invariant higher == Somes(Collect(cs[..i], "higher-layer-if", NodeValue))
        invariant lower == Somes(Collect(cs[..i], "lower-layer-if", NodeValue))
      {
        var ch := cs[i];
        higher := LeafListStep(cs, i, "higher-layer-if", higher);
        lower := LeafListStep(cs, i, "lower-layer-if", lower);
        i := i + 1;
      }
      assert cs[..i] == cs;
    }
  }
}
