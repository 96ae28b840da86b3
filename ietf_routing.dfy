// The `ietf-routing` codec (RFC 8349): the routing model, the path writes
// serialize performs, what deserialize reads back, and the round trip.
module IetfRouting {
  import opened Wrappers
  import opened Numeric
  import opened Text
  import opened YangTree
  import opened Entries

  const MODULE := "ietf-routing"

  // ---------------------------------------------------------------------
  // The model

  datatype SpecialNextHop = Blackhole | Unreachable | Prohibit | Receive

  datatype NextHopListEntry = NextHopListEntry(index: string, outgoingInterface: Option<string>)

  /** The next-hop choice: a simple, a special or a list next hop. */
  datatype NextHop = NextHop(
    outgoingInterface: Option<string>,
    specialNextHop: Option<SpecialNextHop>,
    nextHopList: seq<NextHopListEntry>)

  datatype RouteMetadata = RouteMetadata(sourceProtocol: string, active: bool, lastUpdated: Option<string>)

  datatype Route = Route(preference: Option<uint32>, nextHop: Option<NextHop>, metadata: Option<RouteMetadata>)

  datatype Rib = Rib(
    name: string,
    addressFamily: string,
    defaultRib: bool,
    routes: seq<Route>,
    description: Option<string>)

  datatype ControlPlaneProtocol = ControlPlaneProtocol(
    protocolType: string,
    name: string,
    description: Option<string>,
    staticRoutes: seq<Route>)

  datatype Routing = Routing(
    routerId: Option<string>,
    interfaces: seq<string>,
    protocols: seq<ControlPlaneProtocol>,
    ribs: seq<Rib>)

  const NEW_ROUTE := Route(None, None, None)
  const NEW_RIB := Rib("", "", true, [], None)
  const NEW_PROTOCOL := ControlPlaneProtocol("", "", None, [])
  const NEW_ROUTING := Routing(None, [], [], [])

  // ---------------------------------------------------------------------
  // What serialize writes

  function RoutingRoot(): Node
  {
    Node(Some(Schema("routing", MODULE)), None, [])
  }

  function RouterIdWrites(id: Option<string>): seq<Write>
  {
    if id.Some? then [LeafWrite("", "router-id", id.value)] else []
  }

  /** One `interfaces/interface` value: a new leaf-list entry each time. */
  function InterfaceWrite(name: string): Write
  {
    Write([NewEntry("", "interface")], Some(name))
  }

  function InterfaceWrites(names: seq<string>): seq<Write>
  {
    Under(Child("", "interfaces"), Map(names, InterfaceWrite))
  }

  function RoutePreference(r: Route): Option<uint32> { r.preference }

  /** The preferences of the routes that have one, in order: only those
      routes are written. */
  function Preferences(routes: seq<Route>): seq<uint32>
  {
    Somes(Map(routes, RoutePreference))
  }

  /** `route/route-preference` with the decimal text of the preference:
      a new keyless `route` entry each time. */
  function PreferenceWrite(p: uint32): Write
  {
    Write([NewEntry("", "route"), Child("", "route-preference")], Some(NatToString(p as nat)))
  }

  function RouteWrites(container: string, routes: seq<Route>): seq<Write>
  {
    Under(Child("", container), Map(Preferences(routes), PreferenceWrite))
  }

  function ProtocolKeys(p: ControlPlaneProtocol): seq<Key>
  {
    [Key("type", p.protocolType), Key("name", p.name)]
  }

  function ProtocolFields(p: ControlPlaneProtocol): seq<Key>
  {
    if p.description.Some? then [Key("description", p.description.value)] else []
  }

  function ProtocolMore(p: ControlPlaneProtocol): seq<Write>
  {
    RouteWrites("static-routes", p.staticRoutes)
  }

  /** `control-plane-protocol[type='..'][name='..']`: type, name,
      description when set, then the static routes. */
  function ProtocolLayout(): Layout<ControlPlaneProtocol>
  {
    Layout("", "control-plane-protocol", ProtocolKeys, ProtocolFields, ProtocolMore)
  }

  function RibKeys(r: Rib): seq<Key> { [Key("name", r.name)] }

  function RibFields(r: Rib): seq<Key>
  {
    [Key("address-family", r.addressFamily)]
    + (if r.description.Some? then [Key("description", r.description.value)] else [])
  }

  function RibMore(r: Rib): seq<Write>
  {
    RouteWrites("routes", r.routes)
  }

  /** `rib[name='..']`: name, address-family, description when set, then
      the routes. */
  function RibLayout(): Layout<Rib>
  {
    Layout("", "rib", RibKeys, RibFields, RibMore)
  }

  function ProtocolsWrites(ps: seq<ControlPlaneProtocol>): seq<Write>
  {
    Under(Child("", "control-plane-protocols"), EntriesLog(ps, ProtocolLayout()))
  }

  function RibsWrites(rs: seq<Rib>): seq<Write>
  {
    Under(Child("", "ribs"), EntriesLog(rs, RibLayout()))
  }

  /** Every write serialize performs below the `routing` root, in order. */
  function RoutingLog(r: Routing): seq<Write>
  {
    RouterIdWrites(r.routerId) + InterfaceWrites(r.interfaces) + ProtocolsWrites(r.protocols) + RibsWrites(r.ribs)
  }

  /** What serialize writes for a protocol entry: both keys always, the
      description exactly when set. */
  lemma ProtocolWritten(p: ControlPlaneProtocol)
    ensures var f := ProtocolKeys(p) + ProtocolFields(p);
            && FieldValue(f, "type") == Some(p.protocolType)
            && FieldValue(f, "name") == Some(p.name)
            && FieldValue(f, "description") == p.description
  {
    assert "type"[0] != "name"[0];
    FieldValueAppend(ProtocolKeys(p), ProtocolFields(p), "description");
  }

  /** What serialize writes for a rib entry: name and address-family
      always, the description exactly when set. */
  lemma RibWritten(r: Rib)
    ensures var f := RibKeys(r) + RibFields(r);
            && FieldValue(f, "name") == Some(r.name)
            && FieldValue(f, "address-family") == Some(r.addressFamily)
            && FieldValue(f, "description") == r.description
  {
    var d := if r.description.Some? then [Key("description", r.description.value)] else [];
    assert RibKeys(r) + RibFields(r) == RibKeys(r) + ([Key("address-family", r.addressFamily)] + d);
    FieldValueAppend(RibKeys(r), [Key("address-family", r.addressFamily)] + d, "address-family");
    FieldValueAppend(RibKeys(r), [Key("address-family", r.addressFamily)] + d, "description");
    FieldValueAppend([Key("address-family", r.addressFamily)], d, "description");
  }

  /** A route without a preference writes nothing; each route with one
      writes exactly one value. */
  lemma {:induction false} PreferencesCount(routes: seq<Route>)
    ensures |Preferences(routes)| <= |routes|
    ensures (forall k :: 0 <= k < |routes| ==> routes[k].preference.None?) ==> Preferences(routes) == []
    ensures (forall k :: 0 <= k < |routes| ==> routes[k].preference.Some?) ==>
              Preferences(routes) == Map(routes, PresentPreference)
    decreases |routes|
  {
    if routes != [] {
      var init := routes[..|routes| - 1];
      var last := routes[|routes| - 1];
      var os := Map(init, RoutePreference);
      assert Map(routes, RoutePreference) == os + [last.preference];
      PreferencesCount(init);
      SomesSnoc(os, last.preference);
      assert Preferences(routes) == Preferences(init) + (if last.preference.Some? then [last.preference.value] else []);
      if forall k :: 0 <= k < |routes| ==> routes[k].preference.None? {
        assert forall k :: 0 <= k < |init| ==> init[k].preference.None? by {
          forall k | 0 <= k < |init| ensures init[k].preference.None? {
            assert init[k] == routes[k];
          }
        }
      }
      if forall k :: 0 <= k < |routes| ==> routes[k].preference.Some? {
        assert forall k :: 0 <= k < |init| ==> init[k].preference.Some? by {
          forall k | 0 <= k < |init| ensures init[k].preference.Some? {
            assert init[k] == routes[k];
          }
        }
        assert Map(routes, PresentPreference) == Map(init, PresentPreference) + [PresentPreference(last)];
      }
    }
  }

  function PresentPreference(r: Route): uint32
  {
    if r.preference.Some? then r.preference.value else 0
  }

  // ---------------------------------------------------------------------
  // What deserialize reads

  /** One `route` entry: its preference, `static_cast<uint32_t>(std::stoul(v))`
      when present; a value that does not parse is an error, and a route
      without a preference still counts. */
  function ReadRoute(n: Node): (r: Result<Route>)
    ensures LeafValue(n, "route-preference").None? ==> r == Success(NEW_ROUTE)
    ensures LeafValue(n, "route-preference").Some? ==>
              var v := LeafValue(n, "route-preference").value;
              && (r.Failure? <==> StoUL(v).None?)
              && (r.Success? ==> r.value == NEW_ROUTE.(preference := Some(CastU32(StoUL(v).value))))
  {
    match LeafValue(n, "route-preference")
    case None => Success(NEW_ROUTE)
    case Some(v) =>
      match StoUL(v)
      case None => Failure("route-preference is not a number")
      case Some(m) => Success(NEW_ROUTE.(preference := Some(CastU32(m))))
  }

  /** The `route` entries of a routes container, none when it is absent. */
  function RoutesOf(c: Option<Node>): (r: Result<seq<Route>>)
    ensures c.None? ==> r == Success([])
    ensures c.Some? ==> r == CollectAll(c.value.children, "route", ReadRoute)
  {
    match c
    case None => Success([])
    case Some(n) => CollectAll(n.children, "route", ReadRoute)
  }

  /** One `control-plane-protocol` entry: its type without everything up
      to and including the first ':', its name, its description and its
      static routes; only a route preference that does not parse is an
      error. */
  function ReadProtocol(n: Node): (r: Result<ControlPlaneProtocol>)
    ensures r.Failure? <==> RoutesOf(FindChild(n, "static-routes")).Failure?
    ensures r.Success? ==>
              && r.value.protocolType == (if LeafValue(n, "type").Some? then StripThroughColon(LeafValue(n, "type").value) else "")
              && r.value.name == LeafValue(n, "name").GetOr("")
              && r.value.description == LeafValue(n, "description")
              && r.value.staticRoutes == RoutesOf(FindChild(n, "static-routes")).value
  {
    var t := LeafValue(n, "type");
    match RoutesOf(FindChild(n, "static-routes"))
    case Failure(e) => Failure(e)
    case Success(routes) =>
      Success(ControlPlaneProtocol(
        if t.Some? then StripThroughColon(t.value) else "",
        LeafValue(n, "name").GetOr(""),
        LeafValue(n, "description"),
        routes))
  }

  /** One `rib` entry: name, address-family, description and routes; the
      default-rib flag keeps its default. */
  function ReadRib(n: Node): (r: Result<Rib>)
    ensures r.Failure? <==> RoutesOf(FindChild(n, "routes")).Failure?
    ensures r.Success? ==>
              && r.value.name == LeafValue(n, "name").GetOr("")
              && r.value.addressFamily == LeafValue(n, "address-family").GetOr("")
              && r.value.defaultRib
              && r.value.description == LeafValue(n, "description")
              && r.value.routes == RoutesOf(FindChild(n, "routes")).value
  {
    match RoutesOf(FindChild(n, "routes"))
    case Failure(e) => Failure(e)
    case Success(routes) =>
      Success(NEW_RIB.(
        name := LeafValue(n, "name").GetOr(""),
        addressFamily := LeafValue(n, "address-family").GetOr(""),
        description := LeafValue(n, "description"),
        routes := routes))
  }

  /** `router-id`: the direct child's value; otherwise the value of
      `/ietf-routing:routing/router-id` among the top-level nodes;
      otherwise absent. */
  function ReadRouterId(rt: Node, tops: seq<Node>): (r: Option<string>)
    ensures LeafValue(rt, "router-id").Some? ==> r == LeafValue(rt, "router-id")
    ensures LeafValue(rt, "router-id").None? && FindTop(tops, "routing", MODULE).None? ==> r.None?
    ensures LeafValue(rt, "router-id").None? && FindTop(tops, "routing", MODULE).Some? ==>
              r == LeafValue(FindTop(tops, "routing", MODULE).value, "router-id")
  {
    match LeafValue(rt, "router-id")
    case Some(v) => Some(v)
    case None =>
      match FindTop(tops, "routing", MODULE)
      case None => None
      case Some(top) => LeafValue(top, "router-id")
  }

  function ListUnder(c: Option<Node>, name: string): seq<string>
  {
    if c.None? then [] else LeafListValues(c.value, name)
  }

  function CollectUnder<T>(c: Option<Node>, name: string, read: Node -> Result<T>): (r: Result<seq<T>>)
    ensures c.None? ==> r == Success([])
    ensures c.Some? ==> r == CollectAll(c.value.children, name, read)
  {
    if c.None? then Success([]) else CollectAll(c.value.children, name, read)
  }

  /** The `routing` container found: its router-id, interface names,
      protocols and ribs, in document order; a protocol or rib whose
      routes cannot be read is an error, protocols first. */
  function ReadRoutingNode(rt: Node, tops: seq<Node>): (r: Result<Routing>)
    ensures r.Failure? <==>
              || CollectUnder(FindChild(rt, "control-plane-protocols"), "control-plane-protocol", ReadProtocol).Failure?
              || CollectUnder(FindChild(rt, "ribs"), "rib", ReadRib).Failure?
    ensures r.Success? ==>
              && r.value.routerId == ReadRouterId(rt, tops)
              && r.value.interfaces == ListUnder(FindChild(rt, "interfaces"), "interface")
              && r.value.protocols == CollectUnder(FindChild(rt, "control-plane-protocols"), "control-plane-protocol", ReadProtocol).value
              && r.value.ribs == CollectUnder(FindChild(rt, "ribs"), "rib", ReadRib).value
  {
    match CollectUnder(FindChild(rt, "control-plane-protocols"), "control-plane-protocol", ReadProtocol)
    case Failure(e) => Failure(e)
    case Success(protocols) =>
      match CollectUnder(FindChild(rt, "ribs"), "rib", ReadRib)
      case Failure(e) => Failure(e)
      case Success(ribs) =>
        Success(Routing(ReadRouterId(rt, tops), ListUnder(FindChild(rt, "interfaces"), "interface"), protocols, ribs))
  }

  /** `IetfRouting::deserialize`: no tree, or no `routing` container
      (neither the tree itself nor `/ietf-routing:routing`), is an error. */
  function ReadRouting(tree: Option<Node>, tops: seq<Node>): (r: Result<Routing>)
    ensures tree.None? ==> r.Failure?
    ensures tree.Some? && LocateRoot(tree.value, tops, "routing", MODULE).None? ==> r.Failure?
    ensures tree.Some? && LocateRoot(tree.value, tops, "routing", MODULE).Some? ==>
              r == ReadRoutingNode(LocateRoot(tree.value, tops, "routing", MODULE).value, tops)
  {
    if tree.None? then Failure("no data tree")
    else match LocateRoot(tree.value, tops, "routing", MODULE)
      case None => Failure("routing container not found")
      case Some(rt) => ReadRoutingNode(rt, tops)
  }

  // ---------------------------------------------------------------------
  // The tree serialize builds

  /** A container of this module holding `cs`; absent when nothing was
      written into it. */
  function ContainerNodes(name: string, cs: seq<Node>): seq<Node>
  {
    if cs == [] then [] else [Node(Some(Schema(name, MODULE)), None, cs)]
  }

  function InterfaceLeaf(name: string): Node
  {
    Node(Some(Schema("interface", MODULE)), Some(name), [])
  }

  function RouteNode(p: uint32): Node
  {
    Node(Some(Schema("route", MODULE)), None, [Leaf("route-preference", MODULE, NatToString(p as nat))])
  }

  function RoutesNodes(container: string, routes: seq<Route>): seq<Node>
  {
    ContainerNodes(container, Map(Preferences(routes), RouteNode))
  }

  function ProtocolTree(p: ControlPlaneProtocol): Node
  {
    Node(Some(Schema("control-plane-protocol", MODULE)), None,
         KeyLeaves(ProtocolKeys(p) + ProtocolFields(p), MODULE) + RoutesNodes("static-routes", p.staticRoutes))
  }

  function RibTree(r: Rib): Node
  {
    Node(Some(Schema("rib", MODULE)), None, KeyLeaves(RibKeys(r) + RibFields(r), MODULE) + RoutesNodes("routes", r.routes))
  }

  function RouterIdLeaves(id: Option<string>): seq<Node>
  {
    if id.Some? then [Leaf("router-id", MODULE, id.value)] else []
  }

  /** The `routing` container serialize builds: the router-id leaf, then
      the `interfaces`, `control-plane-protocols` and `ribs` containers
      that received a write. */
  function RoutingTree(r: Routing): Node
  {
    RoutingRoot().(children :=
      RouterIdLeaves(r.routerId)
      + ContainerNodes("interfaces", Map(r.interfaces, InterfaceLeaf))
      + ContainerNodes("control-plane-protocols", EntryNodes(r.protocols, MODULE, ProtocolLayout()))
      + ContainerNodes("ribs", EntryNodes(r.ribs, MODULE, RibLayout())))
  }

  /** Protocols whose writes designate distinct entries: no two share
      both type and name. */
  predicate DistinctProtocols(ps: seq<ControlPlaneProtocol>)
  {
    forall i, j :: 0 <= i < j < |ps| ==> ps[i].protocolType != ps[j].protocolType || ps[i].name != ps[j].name
  }

  predicate DistinctRibs(rs: seq<Rib>)
  {
    forall i, j :: 0 <= i < j < |rs| ==> rs[i].name != rs[j].name
  }

  lemma BuildInterfaceWrite(c: Node, name: string)
    requires ModuleOf(c) == MODULE
    ensures Build(c, [InterfaceWrite(name)]) == c.(children := c.children + [InterfaceLeaf(name)])
  {
    var w := InterfaceWrite(name);
    assert FirstMatch(c.children, w.path[0]).None?;
    assert Build(c, [w]) == Apply(c, w.path, w.value);
  }

  lemma BuildPreferenceWrite(c: Node, p: uint32)
    requires ModuleOf(c) == MODULE
    ensures Build(c, [PreferenceWrite(p)]) == c.(children := c.children + [RouteNode(p)])
  {
    var w := PreferenceWrite(p);
    assert FirstMatch(c.children, w.path[0]).None?;
    var e := NewNode(w.path[0], MODULE, None);
    assert Apply(e, w.path[1..], w.value) == RouteNode(p) by {
      assert FirstMatch(e.children, w.path[1]).None?;
      assert w.path[1..][1..] == [];
    }
    assert Build(c, [w]) == Apply(c, w.path, w.value);
  }

  /** Each interface name becomes a new leaf-list entry, in order. */
  lemma {:induction false} BuildInterfaceLeaves(c: Node, names: seq<string>)
    requires ModuleOf(c) == MODULE
    ensures Build(c, Map(names, InterfaceWrite)) == c.(children := c.children + Map(names, InterfaceLeaf))
    decreases |names|
  {
    if names == [] {
      assert c.children + [] == c.children;
    } else {
      var init, x := names[..|names| - 1], names[|names| - 1];
      var c1 := c.(children := c.children + Map(init, InterfaceLeaf));
      assert Map(names, InterfaceWrite) == Map(init, InterfaceWrite) + [InterfaceWrite(x)];
      BuildAppend(c, Map(init, InterfaceWrite), [InterfaceWrite(x)]);
      BuildInterfaceLeaves(c, init);
      BuildInterfaceWrite(c1, x);
      assert Map(names, InterfaceLeaf) == Map(init, InterfaceLeaf) + [InterfaceLeaf(x)];
    }
  }

  /** Each preference becomes a new `route` entry, in order. */
  lemma {:induction false} BuildRouteNodes(c: Node, ps: seq<uint32>)
    requires ModuleOf(c) == MODULE
    ensures Build(c, Map(ps, PreferenceWrite)) == c.(children := c.children + Map(ps, RouteNode))
    decreases |ps|
  {
    if ps == [] {
      assert c.children + [] == c.children;
    } else {
      var init, x := ps[..|ps| - 1], ps[|ps| - 1];
      var c1 := c.(children := c.children + Map(init, RouteNode));
      assert Map(ps, PreferenceWrite) == Map(init, PreferenceWrite) + [PreferenceWrite(x)];
      BuildAppend(c, Map(init, PreferenceWrite), [PreferenceWrite(x)]);
      BuildRouteNodes(c, init);
      BuildPreferenceWrite(c1, x);
      assert Map(ps, RouteNode) == Map(init, RouteNode) + [RouteNode(x)];
    }
  }

  /** Writes below a container not yet present create it once, holding
      what they build, and create nothing when there are none. */
  lemma BuildContainer(n: Node, name: string, ws: seq<Write>, cs: seq<Node>)
    requires ModuleOf(n) == MODULE && NoneNamed(n.children, name)
    requires BelowRoot(ws) && (ws == [] <==> cs == [])
    requires Build(EmptyContainer(name), ws) == EmptyContainer(name).(children := cs)
    ensures Build(n, Under(Child("", name), ws)) == n.(children := n.children + ContainerNodes(name, cs))
  {
    if ws == [] {
      assert n.children + [] == n.children;
    } else {
      assert FirstMatch(n.children, Child("", name)).None?;
      BuildUnderNew(n, Child("", name), ws);
    }
  }

  lemma BuildRoutes(n: Node, container: string, routes: seq<Route>)
    requires ModuleOf(n) == MODULE && NoneNamed(n.children, container)
    ensures Build(n, RouteWrites(container, routes)) == n.(children := n.children + RoutesNodes(container, routes))
  {
    var ps := Preferences(routes);
    BuildRouteNodes(EmptyContainer(container), ps);
    assert [] + Map(ps, RouteNode) == Map(ps, RouteNode);
    BuildContainer(n, container, Map(ps, PreferenceWrite), Map(ps, RouteNode));
  }

  lemma BuildProtocolEntry(p: ControlPlaneProtocol)
    ensures FilledEntry(p, MODULE, ProtocolLayout()) == ProtocolTree(p)
  {
    var e := EntryNode("control-plane-protocol", MODULE, ProtocolKeys(p) + ProtocolFields(p));
    assert NoneNamed(e.children, "static-routes");
    BuildRoutes(e, "static-routes", p.staticRoutes);
  }

  lemma BuildRibEntry(r: Rib)
    ensures FilledEntry(r, MODULE, RibLayout()) == RibTree(r)
  {
    var e := EntryNode("rib", MODULE, RibKeys(r) + RibFields(r));
    assert NoneNamed(e.children, "routes");
    BuildRoutes(e, "routes", r.routes);
  }

  lemma ProtocolsLaidOut(ps: seq<ControlPlaneProtocol>)
    requires DistinctProtocols(ps)
    ensures WellLaidOut(ps, ProtocolLayout(), ["type", "name"]) && DistinctKeys(ps, ProtocolLayout())
  {
    forall k | 0 <= k < |ps|
      ensures DistinctKeyNames(ProtocolKeys(ps[k]) + ProtocolFields(ps[k]))
    {
      assert "type"[0] != "name"[0];
    }
    forall i, j | 0 <= i < j < |ps|
      ensures ProtocolKeys(ps[i]) != ProtocolKeys(ps[j])
    {
      assert ProtocolKeys(ps[i])[0].value == ps[i].protocolType;
      assert ProtocolKeys(ps[i])[1].value == ps[i].name;
    }
  }

  lemma RibsLaidOut(rs: seq<Rib>)
    requires DistinctRibs(rs)
    ensures WellLaidOut(rs, RibLayout(), ["name"]) && DistinctKeys(rs, RibLayout())
  {
    forall i, j | 0 <= i < j < |rs|
      ensures RibKeys(rs[i]) != RibKeys(rs[j])
    {
      assert RibKeys(rs[i])[0].value == rs[i].name;
    }
  }

  function EmptyContainer(name: string): Node
  {
    Node(Some(Schema(name, MODULE)), None, [])
  }

  lemma FillProtocols(ps: seq<ControlPlaneProtocol>)
    requires DistinctProtocols(ps)
    ensures Build(EmptyContainer("control-plane-protocols"), EntriesLog(ps, ProtocolLayout()))
            == EmptyContainer("control-plane-protocols").(children := EntryNodes(ps, MODULE, ProtocolLayout()))
  {
    ProtocolsLaidOut(ps);
    BuildEntries(EmptyContainer("control-plane-protocols"), ps, ProtocolLayout(), ["type", "name"]);
    assert [] + EntryNodes(ps, MODULE, ProtocolLayout()) == EntryNodes(ps, MODULE, ProtocolLayout());
  }

  lemma FillRibs(rs: seq<Rib>)
    requires DistinctRibs(rs)
    ensures Build(EmptyContainer("ribs"), EntriesLog(rs, RibLayout()))
            == EmptyContainer("ribs").(children := EntryNodes(rs, MODULE, RibLayout()))
  {
    RibsLaidOut(rs);
    BuildEntries(EmptyContainer("ribs"), rs, RibLayout(), ["name"]);
    assert [] + EntryNodes(rs, MODULE, RibLayout()) == EntryNodes(rs, MODULE, RibLayout());
  }

  lemma ProtocolsLogShape(ps: seq<ControlPlaneProtocol>)
    ensures BelowRoot(EntriesLog(ps, ProtocolLayout()))
    ensures EntriesLog(ps, ProtocolLayout()) == [] <==> EntryNodes(ps, MODULE, ProtocolLayout()) == []
  {
    EntriesLogBelowRoot(ps, ProtocolLayout());
    EntriesLogEmpty(ps, ProtocolLayout());
  }

  lemma RibsLogShape(rs: seq<Rib>)
    ensures BelowRoot(EntriesLog(rs, RibLayout()))
    ensures EntriesLog(rs, RibLayout()) == [] <==> EntryNodes(rs, MODULE, RibLayout()) == []
  {
    EntriesLogBelowRoot(rs, RibLayout());
    EntriesLogEmpty(rs, RibLayout());
  }

  lemma BuildProtocols(n: Node, ps: seq<ControlPlaneProtocol>)
    requires ModuleOf(n) == MODULE && NoneNamed(n.children, "control-plane-protocols")
    requires DistinctProtocols(ps)
    ensures Build(n, ProtocolsWrites(ps))
            == n.(children := n.children + ContainerNodes("control-plane-protocols", EntryNodes(ps, MODULE, ProtocolLayout())))
  {
    FillProtocols(ps);
    ProtocolsLogShape(ps);
    BuildContainer(n, "control-plane-protocols", EntriesLog(ps, ProtocolLayout()), EntryNodes(ps, MODULE, ProtocolLayout()));
  }

  lemma BuildRibs(n: Node, rs: seq<Rib>)
    requires ModuleOf(n) == MODULE && NoneNamed(n.children, "ribs")
    requires DistinctRibs(rs)
    ensures Build(n, RibsWrites(rs)) == n.(children := n.children + ContainerNodes("ribs", EntryNodes(rs, MODULE, RibLayout())))
  {
    FillRibs(rs);
    RibsLogShape(rs);
    BuildContainer(n, "ribs", EntriesLog(rs, RibLayout()), EntryNodes(rs, MODULE, RibLayout()));
  }

  lemma BuildInterfaces(n: Node, names: seq<string>)
    requires ModuleOf(n) == MODULE && NoneNamed(n.children, "interfaces")
    ensures Build(n, InterfaceWrites(names)) == n.(children := n.children + ContainerNodes("interfaces", Map(names, InterfaceLeaf)))
  {
    BuildInterfaceLeaves(EmptyContainer("interfaces"), names);
    assert [] + Map(names, InterfaceLeaf) == Map(names, InterfaceLeaf);
    BuildContainer(n, "interfaces", Map(names, InterfaceWrite), Map(names, InterfaceLeaf));
  }

  lemma ContainerNodesNamed(name: string, cs: seq<Node>, other: string)
    requires name != other
    ensures NoneNamed(ContainerNodes(name, cs), other)
  {
  }

  lemma RouterIdLeavesNamed(id: Option<string>, other: string)
    requires other != "router-id"
    ensures NoneNamed(RouterIdLeaves(id), other)
  {
  }

  /** The front of the routing tree: router-id and interfaces. */
  lemma BuildRoutingFront(r: Routing)
    ensures Build(RoutingRoot(), RouterIdWrites(r.routerId) + InterfaceWrites(r.interfaces))
            == RoutingRoot().(children := RouterIdLeaves(r.routerId) + ContainerNodes("interfaces", Map(r.interfaces, InterfaceLeaf)))
  {
    var n0 := RoutingRoot();
    var a := RouterIdLeaves(r.routerId);
    assert Build(n0, RouterIdWrites(r.routerId)) == n0.(children := a) by {
      if r.routerId.Some? {
        LeafWriteAppends(n0, "", "router-id", r.routerId.value);
      }
    }
    BuildAppend(n0, RouterIdWrites(r.routerId), InterfaceWrites(r.interfaces));
    assert "interfaces"[0] != "router-id"[0];
    RouterIdLeavesNamed(r.routerId, "interfaces");
    BuildInterfaces(n0.(children := a), r.interfaces);
  }

  /** Serializing a model whose protocols and ribs designate distinct
      entries builds `RoutingTree`. */
  lemma SerializeBuildsTree(r: Routing)
    requires DistinctProtocols(r.protocols) && DistinctRibs(r.ribs)
    ensures Build(RoutingRoot(), RoutingLog(r)) == RoutingTree(r)
  {
    var n0 := RoutingRoot();
    var a := RouterIdLeaves(r.routerId);
    var b := ContainerNodes("interfaces", Map(r.interfaces, InterfaceLeaf));
    var c := ContainerNodes("control-plane-protocols", EntryNodes(r.protocols, MODULE, ProtocolLayout()));
    var ws2 := RouterIdWrites(r.routerId) + InterfaceWrites(r.interfaces);
    var ws3 := ws2 + ProtocolsWrites(r.protocols);
    BuildRoutingFront(r);
    assert NoneNamed(a + b, "control-plane-protocols") by {
      assert "control-plane-protocols"[0] != "router-id"[0];
      RouterIdLeavesNamed(r.routerId, "control-plane-protocols");
      ContainerNodesNamed("interfaces", Map(r.interfaces, InterfaceLeaf), "control-plane-protocols");
      NoneNamedAppend(a, b, "control-plane-protocols");
    }
    assert NoneNamed(a + b + c, "ribs") by {
      RouterIdLeavesNamed(r.routerId, "ribs");
      ContainerNodesNamed("interfaces", Map(r.interfaces, InterfaceLeaf), "ribs");
      ContainerNodesNamed("control-plane-protocols", EntryNodes(r.protocols, MODULE, ProtocolLayout()), "ribs");
      NoneNamedAppend(a, b, "ribs");
      NoneNamedAppend(a + b, c, "ribs");
    }
    BuildAppend(n0, ws2, ProtocolsWrites(r.protocols));
    BuildProtocols(n0.(children := a + b), r.protocols);
    BuildAppend(n0, ws3, RibsWrites(r.ribs));
    BuildRibs(n0.(children := a + b + c), r.ribs);
  }

  // ---------------------------------------------------------------------
  // Reading the tree back

  /** What a written route reads back as: the preference and nothing else. */
  function PreferenceRoute(p: uint32): Route
  {
    NEW_ROUTE.(preference := Some(p))
  }

  /** The routes deserialize recovers: those with a preference, in order,
      with only their preference. */
  function WrittenRoutes(routes: seq<Route>): seq<Route>
  {
    Map(Preferences(routes), PreferenceRoute)
  }

  function WrittenProtocol(p: ControlPlaneProtocol): ControlPlaneProtocol
  {
    ControlPlaneProtocol(StripThroughColon(p.protocolType), p.name, p.description, WrittenRoutes(p.staticRoutes))
  }

  function WrittenRib(r: Rib): Rib
  {
    Rib(r.name, r.addressFamily, true, WrittenRoutes(r.routes), r.description)
  }

  /** What deserialize makes of the serialized document. */
  function WrittenRouting(r: Routing): Routing
  {
    Routing(r.routerId, r.interfaces, Map(r.protocols, WrittenProtocol), Map(r.ribs, WrittenRib))
  }

  lemma ReadRouteNode(p: uint32)
    ensures ReadRoute(RouteNode(p)) == Success(PreferenceRoute(p))
  {
    var n := RouteNode(p);
    assert n.children == [] + [n.children[0]];
    LeafValueAfter(n.schema, None, [], n.children[0], "route-preference");
    StoULOfNatToString(p as nat);
  }

  lemma {:induction false} CollectRouteNodes(ps: seq<uint32>)
    ensures CollectAll(Map(ps, RouteNode), "route", ReadRoute) == Success(Map(ps, PreferenceRoute))
    decreases |ps|
  {
    if ps != [] {
      var init, x := ps[..|ps| - 1], ps[|ps| - 1];
      assert Map(ps, RouteNode) == Map(init, RouteNode) + [RouteNode(x)];
      assert Map(ps, PreferenceRoute) == Map(init, PreferenceRoute) + [PreferenceRoute(x)];
      CollectRouteNodes(init);
      ReadRouteNode(x);
      CollectAllAppend(Map(init, RouteNode), RouteNode(x), "route", ReadRoute, Map(init, PreferenceRoute), PreferenceRoute(x));
    }
  }

  /** A container among children of other names is found, when it was
      created. */
  lemma FindContainer(s: Option<Schema>, v: Option<string>, before: seq<Node>, name: string, cs: seq<Node>, after: seq<Node>)
    requires NoneNamed(before, name) && NoneNamed(after, name)
    ensures FindChild(Node(s, v, before + ContainerNodes(name, cs) + after), name)
            == if cs == [] then None else Some(Node(Some(Schema(name, MODULE)), None, cs))
  {
    var all := before + ContainerNodes(name, cs) + after;
    if cs == [] {
      assert all == before + after;
      NoneNamedAppend(before, after, name);
    } else {
      FirstNamedIs(all, name, |before|);
    }
  }

  /** The routes container of a written entry reads back as the written
      routes. */
  lemma ReadRoutesContainer(s: Option<Schema>, before: seq<Node>, container: string, routes: seq<Route>)
    requires NoneNamed(before, container)
    ensures RoutesOf(FindChild(Node(s, None, before + RoutesNodes(container, routes)), container))
            == Success(WrittenRoutes(routes))
  {
    var ps := Preferences(routes);
    FindContainer(s, None, before, container, Map(ps, RouteNode), []);
    assert before + RoutesNodes(container, routes) + [] == before + RoutesNodes(container, routes);
    CollectRouteNodes(ps);
  }

  /** A leaf of a written protocol entry, other than the routes container,
      is the field so named. */
  lemma ProtocolTreeLeaf(p: ControlPlaneProtocol, name: string)
    requires name != "static-routes"
    ensures LeafValue(ProtocolTree(p), name) == FieldValue(ProtocolKeys(p) + ProtocolFields(p), name)
  {
    var rest := RoutesNodes("static-routes", p.staticRoutes);
    ContainerNodesNamed("static-routes", Map(Preferences(p.staticRoutes), RouteNode), name);
    LeafValueOfFields(ProtocolTree(p).schema, None, ProtocolKeys(p) + ProtocolFields(p), MODULE, rest, name);
  }

  lemma ReadProtocolTree(p: ControlPlaneProtocol)
    ensures ReadProtocol(ProtocolTree(p)) == Success(WrittenProtocol(p))
  {
    var f := ProtocolKeys(p) + ProtocolFields(p);
    ProtocolWritten(p);
    assert "type"[0] != "static-routes"[0];
    assert "name"[0] != "static-routes"[0];
    assert "description"[0] != "static-routes"[0];
    ProtocolTreeLeaf(p, "type");
    ProtocolTreeLeaf(p, "name");
    ProtocolTreeLeaf(p, "description");
    assert NoneNamed(KeyLeaves(f, MODULE), "static-routes") by {
      forall k | 0 <= k < |f| ensures f[k].name != "static-routes" {
        if k >= |ProtocolKeys(p)| {
          assert f[k] == Key("description", p.description.value);
        }
      }
    }
    ReadRoutesContainer(ProtocolTree(p).schema, KeyLeaves(f, MODULE), "static-routes", p.staticRoutes);
  }

  lemma RibTreeLeaf(r: Rib, name: string)
    requires name != "routes"
    ensures LeafValue(RibTree(r), name) == FieldValue(RibKeys(r) + RibFields(r), name)
  {
    var rest := RoutesNodes("routes", r.routes);
    ContainerNodesNamed("routes", Map(Preferences(r.routes), RouteNode), name);
    LeafValueOfFields(RibTree(r).schema, None, RibKeys(r) + RibFields(r), MODULE, rest, name);
  }

  lemma ReadRibTree(r: Rib)
    ensures ReadRib(RibTree(r)) == Success(WrittenRib(r))
  {
    var f := RibKeys(r) + RibFields(r);
    RibWritten(r);
    assert "name"[0] != "routes"[0];
    assert "address-family"[0] != "routes"[0];
    assert "description"[0] != "routes"[0];
    RibTreeLeaf(r, "name");
    RibTreeLeaf(r, "address-family");
    RibTreeLeaf(r, "description");
    assert NoneNamed(KeyLeaves(f, MODULE), "routes") by {
      forall k | 0 <= k < |f| ensures f[k].name != "routes" {
        if k >= 2 {
          assert f[k] == Key("description", r.description.value);
        }
      }
    }
    ReadRoutesContainer(RibTree(r).schema, KeyLeaves(f, MODULE), "routes", r.routes);
  }

  lemma ReadProtocolEntries(ps: seq<ControlPlaneProtocol>)
    ensures CollectAll(EntryNodes(ps, MODULE, ProtocolLayout()), "control-plane-protocol", ReadProtocol)
            == Success(Map(ps, WrittenProtocol))
  {
    forall k | 0 <= k < |ps|
      ensures ReadProtocol(FilledEntry(ps[k], MODULE, ProtocolLayout())) == Success(WrittenProtocol(ps[k]))
    {
      BuildProtocolEntry(ps[k]);
      ReadProtocolTree(ps[k]);
    }
    CollectAllEntries(ps, MODULE, ProtocolLayout(), ReadProtocol, WrittenProtocol);
  }

  lemma ReadRibEntries(rs: seq<Rib>)
    ensures CollectAll(EntryNodes(rs, MODULE, RibLayout()), "rib", ReadRib) == Success(Map(rs, WrittenRib))
  {
    forall k | 0 <= k < |rs|
      ensures ReadRib(FilledEntry(rs[k], MODULE, RibLayout())) == Success(WrittenRib(rs[k]))
    {
      BuildRibEntry(rs[k]);
      ReadRibTree(rs[k]);
    }
    CollectAllEntries(rs, MODULE, RibLayout(), ReadRib, WrittenRib);
  }

  /** The leaf-list entries serialize appends read back as the names. */
  lemma {:induction false} CollectInterfaceLeaves(names: seq<string>)
    ensures LeafListValues(EmptyContainer("interfaces").(children := Map(names, InterfaceLeaf)), "interface") == names
    decreases |names|
  {
    var os := Collect(Map(names, InterfaceLeaf), "interface", NodeValue);
    if names != [] {
      var init, x := names[..|names| - 1], names[|names| - 1];
      assert Map(names, InterfaceLeaf) == Map(init, InterfaceLeaf) + [InterfaceLeaf(x)];
      CollectAppend(Map(init, InterfaceLeaf), [InterfaceLeaf(x)], "interface", NodeValue);
      assert Collect([InterfaceLeaf(x)], "interface", NodeValue) == [Some(x)];
      CollectInterfaceLeaves(init);
      SomesSnoc(Collect(Map(init, InterfaceLeaf), "interface", NodeValue), Some(x));
    }
  }

  // The four parts of the routing tree, as found by name.

  function RoutingFront(r: Routing): seq<Node>
  {
    RouterIdLeaves(r.routerId)
  }

  function InterfacesPart(r: Routing): seq<Node>
  {
    ContainerNodes("interfaces", Map(r.interfaces, InterfaceLeaf))
  }

  function ProtocolsPart(r: Routing): seq<Node>
  {
    ContainerNodes("control-plane-protocols", EntryNodes(r.protocols, MODULE, ProtocolLayout()))
  }

  function RibsPart(r: Routing): seq<Node>
  {
    ContainerNodes("ribs", EntryNodes(r.ribs, MODULE, RibLayout()))
  }

  lemma RoutingTreeParts(r: Routing)
    ensures RoutingTree(r).children == RoutingFront(r) + InterfacesPart(r) + ProtocolsPart(r) + RibsPart(r)
  {
  }

  lemma FindRouterId(s: Option<Schema>, id: Option<string>, b: seq<Node>, c: seq<Node>, d: seq<Node>)
    requires NoneNamed(b, "router-id") && NoneNamed(c, "router-id") && NoneNamed(d, "router-id")
    ensures LeafValue(Node(s, None, RouterIdLeaves(id) + b + c + d), "router-id") == id
  {
    var cs := RouterIdLeaves(id) + b + c + d;
    if id.Some? {
      FirstNamedIs(cs, "router-id", 0);
    } else {
      assert cs == b + c + d;
      NoneNamedAppend(b, c, "router-id");
      NoneNamedAppend(b + c, d, "router-id");
    }
  }

  lemma RoutingTreeRouterId(r: Routing)
    ensures LeafValue(RoutingTree(r), "router-id") == r.routerId
  {
    assert "router-id"[0] != "interfaces"[0] && "router-id"[0] != "control-plane-protocols"[0];
    assert "router-id"[1] != "ribs"[1];
    ContainerNodesNamed("interfaces", Map(r.interfaces, InterfaceLeaf), "router-id");
    ContainerNodesNamed("control-plane-protocols", EntryNodes(r.protocols, MODULE, ProtocolLayout()), "router-id");
    ContainerNodesNamed("ribs", EntryNodes(r.ribs, MODULE, RibLayout()), "router-id");
    FindRouterId(RoutingTree(r).schema, r.routerId, InterfacesPart(r), ProtocolsPart(r), RibsPart(r));
  }

  lemma RoutingTreeInterfaces(r: Routing)
    ensures ListUnder(FindChild(RoutingTree(r), "interfaces"), "interface") == r.interfaces
  {
    var t := RoutingTree(r);
    var after := ProtocolsPart(r) + RibsPart(r);
    assert NoneNamed(RoutingFront(r), "interfaces") && NoneNamed(after, "interfaces") by {
      assert "interfaces"[0] != "router-id"[0] && "interfaces"[0] != "control-plane-protocols"[0];
      assert "interfaces"[0] != "ribs"[0];
      RouterIdLeavesNamed(r.routerId, "interfaces");
      ContainerNodesNamed("control-plane-protocols", EntryNodes(r.protocols, MODULE, ProtocolLayout()), "interfaces");
      ContainerNodesNamed("ribs", EntryNodes(r.ribs, MODULE, RibLayout()), "interfaces");
      NoneNamedAppend(ProtocolsPart(r), RibsPart(r), "interfaces");
    }
    assert t.children == RoutingFront(r) + InterfacesPart(r) + after;
    FindContainer(t.schema, None, RoutingFront(r), "interfaces", Map(r.interfaces, InterfaceLeaf), after);
    CollectInterfaceLeaves(r.interfaces);
  }

  lemma RoutingTreeProtocols(r: Routing)
    ensures CollectUnder(FindChild(RoutingTree(r), "control-plane-protocols"), "control-plane-protocol", ReadProtocol)
            == Success(Map(r.protocols, WrittenProtocol))
  {
    var t := RoutingTree(r);
    var before := RoutingFront(r) + InterfacesPart(r);
    assert NoneNamed(before, "control-plane-protocols") && NoneNamed(RibsPart(r), "control-plane-protocols") by {
      assert "control-plane-protocols"[0] != "router-id"[0] && "control-plane-protocols"[0] != "interfaces"[0];
      assert "control-plane-protocols"[0] != "ribs"[0];
      RouterIdLeavesNamed(r.routerId, "control-plane-protocols");
      ContainerNodesNamed("interfaces", Map(r.interfaces, InterfaceLeaf), "control-plane-protocols");
      ContainerNodesNamed("ribs", EntryNodes(r.ribs, MODULE, RibLayout()), "control-plane-protocols");
      NoneNamedAppend(RoutingFront(r), InterfacesPart(r), "control-plane-protocols");
    }
    FindContainer(t.schema, None, before, "control-plane-protocols", EntryNodes(r.protocols, MODULE, ProtocolLayout()), RibsPart(r));
    ReadProtocolEntries(r.protocols);
  }

  lemma RibsNotBefore(r: Routing)
    ensures NoneNamed(RoutingFront(r) + InterfacesPart(r) + ProtocolsPart(r), "ribs")
  {
    assert "ribs"[1] != "router-id"[1] && "ribs"[0] != "interfaces"[0];
    assert "ribs"[0] != "control-plane-protocols"[0];
    RouterIdLeavesNamed(r.routerId, "ribs");
    ContainerNodesNamed("interfaces", Map(r.interfaces, InterfaceLeaf), "ribs");
    ContainerNodesNamed("control-plane-protocols", EntryNodes(r.protocols, MODULE, ProtocolLayout()), "ribs");
    NoneNamedAppend(RoutingFront(r), InterfacesPart(r), "ribs");
    NoneNamedAppend(RoutingFront(r) + InterfacesPart(r), ProtocolsPart(r), "ribs");
  }

  lemma RoutingTreeRibs(r: Routing)
    ensures CollectUnder(FindChild(RoutingTree(r), "ribs"), "rib", ReadRib) == Success(Map(r.ribs, WrittenRib))
  {
    var t := RoutingTree(r);
    var before := RoutingFront(r) + InterfacesPart(r) + ProtocolsPart(r);
    RibsNotBefore(r);
    assert t.children == before + RibsPart(r) + [];
    FindContainer(t.schema, None, before, "ribs", EntryNodes(r.ribs, MODULE, RibLayout()), []);
    ReadRibEntries(r.ribs);
  }

  /** Deserializing the routing container serialize built, as the only
      top-level node of its document. */
  lemma ReadRoutingTree(r: Routing)
    ensures ReadRouting(Some(RoutingTree(r)), [RoutingTree(r)]) == Success(WrittenRouting(r))
  {
    var t := RoutingTree(r);
    RoutingTreeRouterId(r);
    RoutingTreeInterfaces(r);
    RoutingTreeProtocols(r);
    RoutingTreeRibs(r);
    assert FindTop([t], "routing", MODULE) == Some(t);
  }

  /** The round trip: deserializing what serialize builds gives back the
      router-id and interfaces unchanged, every protocol with its type
      stripped through the first ':' and every rib, each with only the
      routes that have a preference, reduced to that preference. */
  lemma RoundTrip(r: Routing)
    requires DistinctProtocols(r.protocols) && DistinctRibs(r.ribs)
    ensures var root := Build(RoutingRoot(), RoutingLog(r));
            ReadRouting(Some(root), [root]) == Success(WrittenRouting(r))
  {
    SerializeBuildsTree(r);
    ReadRoutingTree(r);
  }

  // ---------------------------------------------------------------------
  // The test document

  function RNode(name: string, children: seq<Node>): Node
  {
    Node(Some(Schema(name, MODULE)), None, children)
  }

  function RLeaf(name: string, value: string): Node
  {
    Leaf(name, MODULE, value)
  }

  function TestProtocol0(): Node
  {
    RNode("control-plane-protocol", [RLeaf("type", "static"), RLeaf("name", "static0"),
                                     RLeaf("description", "static routes for testing")])
  }

  function TestProtocol1(): Node
  {
    RNode("control-plane-protocol", [RLeaf("type", "static"), RLeaf("name", "static1")])
  }

  function TestRib(): Node
  {
    RNode("rib", [RLeaf("name", "main"), RLeaf("address-family", "ipv4"), RNode("routes", [TestRouteNode()])])
  }

  /** The routing part of the test document: two static protocols, one
      with a description, and the rib `main` with one route of preference
      20 that also has a source protocol and a next hop. */
  function TestRouting(): Node
  {
    RNode("routing", [
      RNode("control-plane-protocols", [TestProtocol0(), TestProtocol1()]),
      RNode("ribs", [TestRib()])])
  }

  function TestRouteNode(): Node
  {
    RNode("route", [RLeaf("route-preference", "20"), RLeaf("source-protocol", "static"),
                    RNode("next-hop", [RLeaf("outgoing-interface", "eth0")])])
  }

  lemma StoULTwenty()
    ensures StoUL("20") == Some(20)
  {
    StoULOfNatToString(20);
    assert NatToString(2) == "2";
    assert NatToString(20) == "20";
  }

  lemma TestRoutePreference()
    ensures LeafValue(TestRouteNode(), "route-preference") == Some("20")
  {
    FirstNamedIs(TestRouteNode().children, "route-preference", 0);
  }

  /** The test route reads as preference 20, its other children ignored. */
  lemma TestRoute()
    ensures ReadRoute(TestRouteNode()) == Success(PreferenceRoute(20))
  {
    TestRoutePreference();
    StoULTwenty();
  }

  lemma TestProtocolLeaves()
    ensures LeafValue(TestProtocol0(), "type") == Some("static")
    ensures LeafValue(TestProtocol0(), "name") == Some("static0")
    ensures LeafValue(TestProtocol0(), "description") == Some("static routes for testing")
    ensures LeafValue(TestProtocol1(), "type") == Some("static")
    ensures LeafValue(TestProtocol1(), "name") == Some("static1")
    ensures LeafValue(TestProtocol1(), "description").None?
  {
    assert "type"[0] != "name"[0] && "type"[0] != "description"[0] && "name"[0] != "description"[0];
    FirstNamedIs(TestProtocol0().children, "name", 1);
    FirstNamedIs(TestProtocol0().children, "description", 2);
    FirstNamedIs(TestProtocol1().children, "name", 1);
  }

  lemma StaticHasNoColon()
    ensures StripThroughColon("static") == "static"
  {
    var s := "static";
    assert forall j :: 0 <= j < |s| ==> s[j] != ':';
  }

  lemma TestProtocolsNoRoutes()
    ensures FindChild(TestProtocol0(), "static-routes").None?
    ensures FindChild(TestProtocol1(), "static-routes").None?
  {
    assert "static-routes"[0] != "type"[0] && "static-routes"[0] != "name"[0];
    assert "static-routes"[0] != "description"[0];
  }

  lemma TestProtocol0Read()
    ensures ReadProtocol(TestProtocol0()) == Success(ControlPlaneProtocol("static", "static0", Some("static routes for testing"), []))
  {
    TestProtocolLeaves();
    TestProtocolsNoRoutes();
    StaticHasNoColon();
  }

  lemma TestProtocol1Read()
    ensures ReadProtocol(TestProtocol1()) == Success(ControlPlaneProtocol("static", "static1", None, []))
  {
    TestProtocolLeaves();
    TestProtocolsNoRoutes();
    StaticHasNoColon();
  }

  lemma TestRibLeaves()
    ensures LeafValue(TestRib(), "name") == Some("main")
    ensures LeafValue(TestRib(), "address-family") == Some("ipv4")
    ensures LeafValue(TestRib(), "description").None?
    ensures FindChild(TestRib(), "routes") == Some(RNode("routes", [TestRouteNode()]))
  {
    assert "name"[0] != "address-family"[0] && "name"[0] != "routes"[0] && "address-family"[0] != "routes"[0];
    assert "description"[0] != "name"[0] && "description"[0] != "routes"[0];
    FirstNamedIs(TestRib().children, "address-family", 1);
    FirstNamedIs(TestRib().children, "routes", 2);
  }

  lemma TestRoutes()
    ensures RoutesOf(Some(RNode("routes", [TestRouteNode()]))) == Success([PreferenceRoute(20)])
  {
    TestRoute();
    assert CollectAll([], "route", ReadRoute) == Success([]);
    CollectAllAppend([], TestRouteNode(), "route", ReadRoute, [], PreferenceRoute(20));
    assert [] + [TestRouteNode()] == [TestRouteNode()];
    assert [] + [PreferenceRoute(20)] == [PreferenceRoute(20)];
  }

  lemma TestRibRead()
    ensures ReadRib(TestRib()) == Success(Rib("main", "ipv4", true, [PreferenceRoute(20)], None))
  {
    TestRibLeaves();
    TestRoutes();
  }

  lemma TestRoutingChildren()
    ensures LeafValue(TestRouting(), "router-id").None?
    ensures FindChild(TestRouting(), "interfaces").None?
    ensures FindChild(TestRouting(), "control-plane-protocols") == Some(TestRouting().children[0])
    ensures FindChild(TestRouting(), "ribs") == Some(TestRouting().children[1])
  {
    assert "control-plane-protocols"[0] != "ribs"[0];
    assert "router-id"[1] != "ribs"[1];
    FirstNamedIs(TestRouting().children, "ribs", 1);
  }

  lemma CollectAllTwo<T>(a: Node, b: Node, name: string, read: Node -> Result<T>, x: T, y: T)
    requires Named(a, name) && Named(b, name)
    requires read(a) == Success(x) && read(b) == Success(y)
    ensures CollectAll([a, b], name, read) == Success([x, y])
  {
    assert CollectAll([], name, read) == Success([]);
    CollectAllAppend([], a, name, read, [], x);
    assert [] + [a] == [a] && [] + [x] == [x];
    CollectAllAppend([a], b, name, read, [x], y);
    assert [a] + [b] == [a, b] && [x] + [y] == [x, y];
  }

  lemma TestReadProtocols()
    ensures CollectAll([TestProtocol0(), TestProtocol1()], "control-plane-protocol", ReadProtocol)
            == Success([ControlPlaneProtocol("static", "static0", Some("static routes for testing"), []),
                        ControlPlaneProtocol("static", "static1", None, [])])
  {
    TestProtocol0Read();
    TestProtocol1Read();
    CollectAllTwo(TestProtocol0(), TestProtocol1(), "control-plane-protocol", ReadProtocol,
                  ControlPlaneProtocol("static", "static0", Some("static routes for testing"), []),
                  ControlPlaneProtocol("static", "static1", None, []));
  }

  lemma TestReadRibs()
    ensures CollectAll([TestRib()], "rib", ReadRib) == Success([Rib("main", "ipv4", true, [PreferenceRoute(20)], None)])
  {
    var r := Rib("main", "ipv4", true, [PreferenceRoute(20)], None);
    TestRibRead();
    assert CollectAll([], "rib", ReadRib) == Success([]);
    CollectAllAppend([], TestRib(), "rib", ReadRib, [], r);
    assert [] + [TestRib()] == [TestRib()] && [] + [r] == [r];
  }

  /** A routing container without router-id or interfaces, found as the
      first top-level `routing` node, reads as its protocols and ribs. */
  lemma ReadBareRouting(t: Node, tops: seq<Node>, ps: seq<ControlPlaneProtocol>, rs: seq<Rib>)
    requires Named(t, "routing") && FindTop(tops, "routing", MODULE) == Some(t)
    requires LeafValue(t, "router-id").None? && FindChild(t, "interfaces").None?
    requires CollectUnder(FindChild(t, "control-plane-protocols"), "control-plane-protocol", ReadProtocol) == Success(ps)
    requires CollectUnder(FindChild(t, "ribs"), "rib", ReadRib) == Success(rs)
    ensures ReadRouting(Some(t), tops) == Success(Routing(None, [], ps, rs))
  {
  }

  /** Reading the test document: no router-id, no interfaces, the two
      protocols in document order, and the one rib with its one route of
      preference 20. */
  lemma TestDocument(ifs: Node)
    requires !NamedIn(ifs, "routing", MODULE)
    ensures var r := ReadRouting(Some(TestRouting()), [TestRouting(), ifs]);
            && r.Success?
            && r.value.routerId.None?
            && r.value.interfaces == []
            && r.value.protocols == [ControlPlaneProtocol("static", "static0", Some("static routes for testing"), []),
                                     ControlPlaneProtocol("static", "static1", None, [])]
            && r.value.ribs == [Rib("main", "ipv4", true, [PreferenceRoute(20)], None)]
  {
    var t := TestRouting();
    TestRoutingChildren();
    TestReadProtocols();
    TestReadRibs();
    assert FindTop([t, ifs], "routing", MODULE) == Some(t);
    ReadBareRouting(t, [t, ifs],
                    [ControlPlaneProtocol("static", "static0", Some("static routes for testing"), []),
                     ControlPlaneProtocol("static", "static1", None, [])],
                    [Rib("main", "ipv4", true, [PreferenceRoute(20)], None)]);
  }

  /** One pass of the `interfaces` leaf-list loop appends the entry's
      value when the child is an entry with a value. */
  lemma InterfaceNameStep(cs: seq<Node>, i: nat)
    requires i < |cs|
    ensures Somes(Collect(cs[..i + 1], "interface", NodeValue))
            == Somes(Collect(cs[..i], "interface", NodeValue))
               + (if Named(cs[i], "interface") && cs[i].value.Some? then [cs[i].value.value] else [])
  {
    CollectSnoc(cs, i, "interface", NodeValue);
    if Named(cs[i], "interface") {
      SomesSnoc(Collect(cs[..i], "interface", NodeValue), cs[i].value);
    } else {
      assert Collect(cs[..i], "interface", NodeValue) + [] == Collect(cs[..i], "interface", NodeValue);
    }
  }

  // ---------------------------------------------------------------------
  // The codec object

  /** `IetfRouting`: the routing model it owns, reached through
      `getRouting` and `mutableRouting`. */
  class IetfRouting {
    var routing: Routing

    constructor()
      ensures routing == NEW_ROUTING
    {
      routing := NEW_ROUTING;
    }

    method SetRouting(r: Routing)
      modifies this
      ensures routing == r
    {
      routing := r;
    }

    method AddInterfaceName(name: string)
      modifies this
      ensures routing == old(routing).(interfaces := old(routing).interfaces + [name])
    {
      routing := routing.(interfaces := routing.interfaces + [name]);
    }

    method AddProtocol(p: ControlPlaneProtocol)
      modifies this
      ensures routing == old(routing).(protocols := old(routing).protocols + [p])
    {
      routing := routing.(protocols := routing.protocols + [p]);
    }

    method AddRib(r: Rib)
      modifies this
      ensures routing == old(routing).(ribs := old(routing).ribs + [r])
    {
      routing := routing.(ribs := routing.ribs + [r]);
    }

    /** `IetfRouting::serialize`: the router-id, the interface names, then
        each protocol and each rib with its routes, one path write at a
        time; when protocols and ribs designate distinct entries the
        result deserializes to `WrittenRouting`. `rootOk` is whether
        libyang creates `/ietf-routing:routing`; when it does not,
        serialize throws `YangDataError`. The return codes of the later
        writes are ignored by the code. */
    method Serialize(rootOk: bool) returns (r: Result<Node>)
      ensures r.Failure? <==> !rootOk
      ensures r.Success? ==> r.value == Build(RoutingRoot(), RoutingLog(routing))
      ensures r.Success? && DistinctProtocols(routing.protocols) && DistinctRibs(routing.ribs) ==>
                ReadRouting(Some(r.value), [r.value]) == Success(WrittenRouting(routing))
    {
      if !rootOk {
        return Failure("YangDataError: cannot create /ietf-routing:routing");
      }
      var root: Node;
      var start := RoutingRoot();
      var log1 := RouterIdWrites(routing.routerId);
      var log2 := log1 + InterfaceWrites(routing.interfaces);
      var log3 := log2 + ProtocolsWrites(routing.protocols);
      root := NewPaths(start, start, [], log1);
      assert [] + log1 == log1;
      root := NewPaths(start, root, log1, InterfaceWrites(routing.interfaces));
      root := WriteEntriesUnder(start, root, log2, Child("", "control-plane-protocols"), routing.protocols, ProtocolLayout());
      root := WriteEntriesUnder(start, root, log3, Child("", "ribs"), routing.ribs, RibLayout());
      if DistinctProtocols(routing.protocols) && DistinctRibs(routing.ribs) {
        RoundTrip(routing);
      }
      r := Success(root);
    }

    /** `IetfRouting::deserialize`, as `ReadRouting` states it: the error
        cases, or a fresh model filled in document order. */
    static method Deserialize(tree: Option<Node>, tops: seq<Node>) returns (r: Result<IetfRouting>)
      ensures r.Failure? <==> ReadRouting(tree, tops).Failure?
      ensures r.Success? ==> fresh(r.value) && r.value.routing == ReadRouting(tree, tops).value
    {
      if tree.None? {
        return Failure("no data tree");
      }
      var found := LocateRoot(tree.value, tops, "routing", MODULE);
      if found.None? {
        return Failure("routing container not found");
      }
      var rt := found.value;
      var model := new IetfRouting();
      var id := LeafValue(rt, "router-id");
      if id.None? {
        var top := FindTop(tops, "routing", MODULE);
        if top.Some? {
          id := LeafValue(top.value, "router-id");
        }
      }
      model.SetRouting(NEW_ROUTING.(routerId := id));
      var ifs := FindChild(rt, "interfaces");
      if ifs.Some? {
        AddInterfaceNames(model, ifs.value.children);
      }
      var cpps := FindChild(rt, "control-plane-protocols");
      if cpps.Some? {
        var ok := AddProtocols(model, cpps.value.children);
        if ok.Failure? {
          return Failure(ok.error);
        }
      }
      var ribs := FindChild(rt, "ribs");
      if ribs.Some? {
        var ok := AddRibs(model, ribs.value.children);
        if ok.Failure? {
          return Failure(ok.error);
        }
      }
      return Success(model);
    }

    /** The `interfaces` leaf-list: each entry's value, in order. */
    static method AddInterfaceNames(model: IetfRouting, cs: seq<Node>)
      requires model.routing.interfaces == []
      modifies model
      ensures model.routing == old(model.routing).(interfaces := Somes(Collect(cs, "interface", NodeValue)))
    {
      ghost var start := model.routing;
      var i := 0;
      assert cs[..0] == [];
      while i < |cs|
        invariant 0 <= i <= |cs|
        invariant model.routing == start.(interfaces := Somes(Collect(cs[..i], "interface", NodeValue)))
      {
        InterfaceNameStep(cs, i);
        if Named(cs[i], "interface") && cs[i].value.Some? {
          model.AddInterfaceName(cs[i].value.value);
        }
        i := i + 1;
      }
      assert cs[..i] == cs;
    }

    /** The loop over the `control-plane-protocol` entries; a route
        preference that does not parse stops it with its error. */
    static method AddProtocols(model: IetfRouting, cs: seq<Node>) returns (r: Result<()>)
      requires model.routing.protocols == []
      modifies model
      ensures r.Failure? <==> CollectAll(cs, "control-plane-protocol", ReadProtocol).Failure?
      ensures r.Success? ==>
                model.routing == old(model.routing).(protocols := CollectAll(cs, "control-plane-protocol", ReadProtocol).value)
    {
      var i := 0;
      while i < |cs|
        invariant 0 <= i <= |cs|
        invariant model.routing.(protocols := []) == old(model.routing)
        invariant CollectAll(cs[..i], "control-plane-protocol", ReadProtocol) == Success(model.routing.protocols)
      {
        var err := AddProtocolChild(model, cs, i);
        if err.Some? {
          return Failure(err.value);
        }
        i := i + 1;
      }
      assert cs[..i] == cs;
      return Success(());
    }

    static method AddProtocolChild(model: IetfRouting, cs: seq<Node>, i: nat) returns (err: Option<string>)
      requires i < |cs| && CollectAll(cs[..i], "control-plane-protocol", ReadProtocol) == Success(model.routing.protocols)
      modifies model
      ensures model.routing.(protocols := []) == old(model.routing).(protocols := [])
      ensures err.None? ==> CollectAll(cs[..i + 1], "control-plane-protocol", ReadProtocol) == Success(model.routing.protocols)
      ensures err.Some? ==> CollectAll(cs, "control-plane-protocol", ReadProtocol).Failure?
    {
      CollectAllSnoc(cs, i, "control-plane-protocol", ReadProtocol);
      if Named(cs[i], "control-plane-protocol") {
        var p := ReadProtocolEntry(cs[i]);
        if p.Failure? {
          CollectAllPrefixFails(cs, i + 1, "control-plane-protocol", ReadProtocol);
          return Some(p.error);
        }
        model.AddProtocol(p.value);
      }
      return None;
    }

    static method AddRibs(model: IetfRouting, cs: seq<Node>) returns (r: Result<()>)
      requires model.routing.ribs == []
      modifies model
      ensures r.Failure? <==> CollectAll(cs, "rib", ReadRib).Failure?
      ensures r.Success? ==> model.routing == old(model.routing).(ribs := CollectAll(cs, "rib", ReadRib).value)
    {
      var i := 0;
      while i < |cs|
        invariant 0 <= i <= |cs|
        invariant model.routing.(ribs := []) == old(model.routing)
        invariant CollectAll(cs[..i], "rib", ReadRib) == Success(model.routing.ribs)
      {
        var err := AddRibChild(model, cs, i);
        if err.Some? {
          return Failure(err.value);
        }
        i := i + 1;
      }
      assert cs[..i] == cs;
      return Success(());
    }

    static method AddRibChild(model: IetfRouting, cs: seq<Node>, i: nat) returns (err: Option<string>)
      requires i < |cs| && CollectAll(cs[..i], "rib", ReadRib) == Success(model.routing.ribs)
      modifies model
      ensures model.routing.(ribs := []) == old(model.routing).(ribs := [])
      ensures err.None? ==> CollectAll(cs[..i + 1], "rib", ReadRib) == Success(model.routing.ribs)
      ensures err.Some? ==> CollectAll(cs, "rib", ReadRib).Failure?
    {
      CollectAllSnoc(cs, i, "rib", ReadRib);
      if Named(cs[i], "rib") {
        var rib := ReadRibEntry(cs[i]);
        if rib.Failure? {
          CollectAllPrefixFails(cs, i + 1, "rib", ReadRib);
          return Some(rib.error);
        }
        model.AddRib(rib.value);
      }
      return None;
    }

    /** One `control-plane-protocol` entry, lookup by lookup. */
    static method ReadProtocolEntry(n: Node) returns (r: Result<ControlPlaneProtocol>)
      ensures r.Failure? <==> ReadProtocol(n).Failure?
      ensures r.Success? ==> r == ReadProtocol(n)
    {
      var cp := NEW_PROTOCOL;
      var t := LeafValue(n, "type");
      if t.Some? {
        var sv := t.value;
        var pos := Find(sv, ':');
        if pos.Some? {
          sv := sv[pos.value + 1..];
        }
        cp := cp.(protocolType := sv);
      }
      var name := LeafValue(n, "name");
      if name.Some? {
        cp := cp.(name := name.value);
      }
      cp := cp.(description := LeafValue(n, "description"));
      var sr := FindChild(n, "static-routes");
      if sr.Some? {
        var routes := ScanRoutes(sr.value.children);
        if routes.Failure? {
          return Failure(routes.error);
        }
        cp := cp.(staticRoutes := routes.value);
      }
      return Success(cp);
    }

    /** One `rib` entry, lookup by lookup. */
    static method ReadRibEntry(n: Node) returns (r: Result<Rib>)
      ensures r.Failure? <==> ReadRib(n).Failure?
      ensures r.Success? ==> r == ReadRib(n)
    {
      var rib := NEW_RIB;
      var name := LeafValue(n, "name");
      if name.Some? {
        rib := rib.(name := name.value);
      }
      var af := LeafValue(n, "address-family");
      if af.Some? {
        rib := rib.(addressFamily := af.value);
      }
      rib := rib.(description := LeafValue(n, "description"));
      var routes := FindChild(n, "routes");
      if routes.Some? {
        var rs := ScanRoutes(routes.value.children);
        if rs.Failure? {
          return Failure(rs.error);
        }
        rib := rib.(routes := rs.value);
      }
      return Success(rib);
    }

    /** The `route` entries of a routes container, in order; a route
        without a preference still counts. */
    static method ScanRoutes(cs: seq<Node>) returns (r: Result<seq<Route>>)
      ensures r.Failure? <==> CollectAll(cs, "route", ReadRoute).Failure?
      ensures r.Success? ==> r == CollectAll(cs, "route", ReadRoute)
    {
      var routes: seq<Route> := [];
      var i := 0;
      while i < |cs|
        invariant 0 <= i <= |cs|
        invariant CollectAll(cs[..i], "route", ReadRoute) == Success(routes)
      {
        CollectAllSnoc(cs, i, "route", ReadRoute);
        if Named(cs[i], "route") {
          var route := NEW_ROUTE;
          var v := LeafValue(cs[i], "route-preference");
          if v.Some? {
            var m := StoUL(v.value);
            if m.None? {
              CollectAllPrefixFails(cs, i + 1, "route", ReadRoute);
              return Failure("route-preference is not a number");
            }
            route := route.(preference := Some(CastU32(m.value)));
          }
          routes := routes + [route];
        }
        i := i + 1;
      }
      assert cs[..i] == cs;
      return Success(routes);
    }
  }
}
