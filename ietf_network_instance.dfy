// The ietf-network-instance codec (RFC 8529): the list of network
// instances below `network-instances`, with the routing and interfaces
// sub-models mounted below an instance's vrf-root, vsi-root or vv-root
// container (RFC 8528 schema mount), and the objects the deserializer
// builds and owns.
module IetfNetworkInstance {
  import opened Wrappers
  import opened Text
  import opened YangTree
  import opened Entries
  import IetfRouting
  import IetfInterfaces

  const MODULE: string := "ietf-network-instance"

  /** The value of one network instance: what `NetworkInstance` holds,
      with the owned sub-models by value (none when absent). */
  datatype Instance = Instance(
    name: string,
    enabled: bool,
    description: Option<string>,
    routing: Option<IetfRouting.Routing>,
    interfaces: Option<seq<IetfInterfaces.Interface>>)

  /** A default-constructed `NetworkInstance`. */
  const NEW_INSTANCE := Instance("", true, None, None, None)

  // ---------------------------------------------------------------------
  // What deserialize reads

  /** A mount-point container an instance carries: vrf-root, vsi-root or
      vv-root, defined in this module. */
  predicate IsMountRoot(c: Node)
  {
    && c.schema.Some? && c.schema.value.mod == MODULE
    && (c.schema.value.name == "vrf-root" || c.schema.value.name == "vsi-root" || c.schema.value.name == "vv-root")
  }

  /** The node's schema belongs to module `mod`. */
  predicate InModule(n: Node, mod: string)
  {
    n.schema.Some? && n.schema.value.mod == mod
  }

  /** The deserializers a mount container dispatches to, applied to one
      of its children. */
  datatype SubReaders = SubReaders(
    routing: Node -> Result<IetfRouting.Routing>,
    interfaces: Node -> Result<seq<IetfInterfaces.Interface>>)

  /** `IetfRouting::deserialize` and `IetfInterfaces::deserialize` on a
      mounted child, in a document whose top-level nodes are `tops`. */
  function Mounted(tops: seq<Node>): SubReaders
  {
    SubReaders(mc => IetfRouting.ReadRouting(Some(mc), tops), mc => IetfInterfaces.ReadInterfaces(Some(mc), tops))
  }

  /** One child of a mount container, dispatched on the module that owns
      it: a routing sub-tree replaces the routing sub-model, an interfaces
      sub-tree the interfaces sub-model; the sub-model deserializers' errors
      propagate; any other child is ignored. */
  function ReadMountChild(ni: Instance, mc: Node, rd: SubReaders): Result<Instance>
  {
    if InModule(mc, IetfRouting.MODULE) then
      match rd.routing(mc)
      case Failure(e) => Failure(e)
      case Success(r) => Success(ni.(routing := Some(r)))
    else if InModule(mc, IetfInterfaces.MODULE) then
      match rd.interfaces(mc)
      case Failure(e) => Failure(e)
      case Success(ifs) => Success(ni.(interfaces := Some(ifs)))
    else Success(ni)
  }

  /** The children of a mount container, in document order. */
  function ReadMount(ni: Instance, mcs: seq<Node>, rd: SubReaders): Result<Instance>
    decreases |mcs|
  {
    if mcs == [] then Success(ni)
    else match ReadMount(ni, mcs[..|mcs| - 1], rd)
      case Failure(e) => Failure(e)
      case Success(n) => ReadMountChild(n, mcs[|mcs| - 1], rd)
  }

  /** One direct child of a network-instance entry: name and description
      are set when the leaf has a value; enabled is the truth of its text,
      or true when it has none; a mount container is read child by child;
      anything else is skipped. */
  function ReadChild(ni: Instance, c: Node, rd: SubReaders): Result<Instance>
  {
    if c.schema.None? then Success(ni)
    else if Named(c, "name") then Success(if c.value.Some? then ni.(name := c.value.value) else ni)
    else if Named(c, "enabled") then Success(ni.(enabled := c.value.None? || IsTrueText(c.value.value)))
    else if Named(c, "description") then Success(if c.value.Some? then ni.(description := c.value) else ni)
    else if IsMountRoot(c) then ReadMount(ni, c.children, rd)
    else Success(ni)
  }

  /** The children of an entry, each updating the instance in turn. */
  function ReadFields(ni: Instance, cs: seq<Node>, rd: SubReaders): Result<Instance>
    decreases |cs|
  {
    if cs == [] then Success(ni)
    else match ReadFields(ni, cs[..|cs| - 1], rd)
      case Failure(e) => Failure(e)
      case Success(n) => ReadChild(n, cs[|cs| - 1], rd)
  }

  /** One `network-instance` entry, read into a fresh instance. */
  function ReadInstance(entry: Node, rd: SubReaders): Result<Instance>
  {
    ReadFields(NEW_INSTANCE, entry.children, rd)
  }

  function Reader(rd: SubReaders): Node -> Result<Instance>
  {
    e => ReadInstance(e, rd)
  }

  /** The instances that have a name, in order: the others are dropped. */
  function KeepNamed(xs: seq<Instance>): (r: seq<Instance>)
    ensures |r| <= |xs|
    ensures forall k :: 0 <= k < |r| ==> r[k].name != ""
  {
    if xs == [] then []
    else
      var init, x := xs[..|xs| - 1], xs[|xs| - 1];
      assert xs == init + [x];
      KeepNamed(init) + (if x.name != "" then [x] else [])
  }

  /** The loop over the container's children: every `network-instance`
      entry is read; the entries with a name are kept, in order. */
  function ReadInstances(cs: seq<Node>, rd: SubReaders): Result<seq<Instance>>
  {
    match CollectAll(cs, "network-instance", Reader(rd))
    case Failure(e) => Failure(e)
    case Success(xs) => Success(KeepNamed(xs))
  }

  /** How deserialize locates the container: the tree itself when it is
      `ietf-network-instance:network-instances`, otherwise the absolute-path
      lookup among the top-level nodes. */
  function Container(tree: Node, tops: seq<Node>): (r: Option<Node>)
    ensures r.Some? ==> NamedIn(r.value, "network-instances", MODULE)
  {
    if NamedIn(tree, "network-instances", MODULE) then Some(tree)
    else FindTop(tops, "network-instances", MODULE)
  }

  /** `IetfNetworkInstances::deserialize` with the sub-model deserializers
      `rd` (`Mounted(tops)` in the code): an empty model for a null tree or
      a missing container; an error only from a mounted sub-model. */
  function ReadNetworkInstances(tree: Option<Node>, tops: seq<Node>, rd: SubReaders): (r: Result<seq<Instance>>)
    ensures r.Success? ==> forall k :: 0 <= k < |r.value| ==> r.value[k].name != ""
  {
    if tree.None? then Success([])
    else match Container(tree.value, tops)
      case None => Success([])
      case Some(c) => ReadInstances(c.children, rd)
  }

  // ---------------------------------------------------------------------
  // When deserialize fails

  /** A mounted sub-tree whose own deserializer fails. */
  predicate SubModelFails(mc: Node, rd: SubReaders)
  {
    || (InModule(mc, IetfRouting.MODULE) && rd.routing(mc).Failure?)
    || (!InModule(mc, IetfRouting.MODULE) && InModule(mc, IetfInterfaces.MODULE)
        && rd.interfaces(mc).Failure?)
  }

  predicate MountFails(c: Node, rd: SubReaders)
  {
    exists m :: 0 <= m < |c.children| && SubModelFails(c.children[m], rd)
  }

  /** An entry with a mount container holding a sub-tree that fails. */
  predicate EntryFails(e: Node, rd: SubReaders)
  {
    exists i :: 0 <= i < |e.children| && IsMountRoot(e.children[i]) && MountFails(e.children[i], rd)
  }

  /** A mount container's children fail exactly when one of the sub-model
      deserializers fails on one of them, whatever was read before. */
  lemma {:induction false} ReadMountFails(ni: Instance, mcs: seq<Node>, rd: SubReaders)
    ensures ReadMount(ni, mcs, rd).Failure? <==> exists m :: 0 <= m < |mcs| && SubModelFails(mcs[m], rd)
    decreases |mcs|
  {
    if mcs != [] {
      var init := mcs[..|mcs| - 1];
      ReadMountFails(ni, init, rd);
      assert forall m :: 0 <= m < |init| ==> init[m] == mcs[m];
    }
  }

  /** Reading one more mount child extends the read of the ones before. */
  lemma ReadMountSnoc(ni: Instance, mcs: seq<Node>, j: nat, rd: SubReaders)
    requires j < |mcs|
    ensures ReadMount(ni, mcs[..j + 1], rd) ==
            if ReadMount(ni, mcs[..j], rd).Failure? then ReadMount(ni, mcs[..j], rd)
            else ReadMountChild(ReadMount(ni, mcs[..j], rd).value, mcs[j], rd)
  {
    assert mcs[..j + 1][..j] == mcs[..j];
  }

  /** A failure among the first mount children is a failure of them all. */
  lemma ReadMountPrefixFails(ni: Instance, mcs: seq<Node>, j: nat, rd: SubReaders)
    requires j <= |mcs| && ReadMount(ni, mcs[..j], rd).Failure?
    ensures ReadMount(ni, mcs, rd).Failure?
  {
    ReadMountFails(ni, mcs[..j], rd);
    var m :| 0 <= m < j && SubModelFails(mcs[..j][m], rd);
    assert mcs[..j][m] == mcs[m];
    ReadMountFails(ni, mcs, rd);
  }

  /** An entry's children fail exactly when a mount container among them
      holds a failing sub-tree. */
  lemma {:induction false} ReadFieldsFails(ni: Instance, cs: seq<Node>, rd: SubReaders)
    ensures ReadFields(ni, cs, rd).Failure? <==>
            exists i :: 0 <= i < |cs| && IsMountRoot(cs[i]) && MountFails(cs[i], rd)
    decreases |cs|
  {
    if cs != [] {
      var init, c := cs[..|cs| - 1], cs[|cs| - 1];
      ReadFieldsFails(ni, init, rd);
      assert forall i :: 0 <= i < |init| ==> init[i] == cs[i];
      match ReadFields(ni, init, rd)
      case Failure(_) =>
      case Success(n) =>
        if IsMountRoot(c) {
          ReadMountFails(n, c.children, rd);
        }
    }
  }

  /** Deserialize never fails on a null tree or a missing container, and
      fails on a present one exactly when some network-instance entry
      mounts a routing or interfaces sub-tree whose deserializer fails. */
  lemma ReadNetworkInstancesFails(tree: Option<Node>, tops: seq<Node>, rd: SubReaders)
    ensures ReadNetworkInstances(tree, tops, rd).Failure? <==>
            && tree.Some? && Container(tree.value, tops).Some?
            && var cs := Container(tree.value, tops).value.children;
               exists j :: 0 <= j < |cs| && Named(cs[j], "network-instance") && EntryFails(cs[j], rd)
  {
    if tree.Some? && Container(tree.value, tops).Some? {
      var cs := Container(tree.value, tops).value.children;
      forall j | 0 <= j < |cs|
        ensures Reader(rd)(cs[j]).Failure? <==> EntryFails(cs[j], rd)
      {
        ReadFieldsFails(NEW_INSTANCE, cs[j].children, rd);
      }
    }
  }

  // ---------------------------------------------------------------------
  // Which child decides each field

  /** The value of the last child named `name` that has one. */
  function LastValue(cs: seq<Node>, name: string): (r: Option<string>)
    ensures r.Some? ==> exists k :: 0 <= k < |cs| && Named(cs[k], name) && cs[k].value == r
    decreases |cs|
  {
    if cs == [] then None
    else if Named(cs[|cs| - 1], name) && cs[|cs| - 1].value.Some? then cs[|cs| - 1].value
    else
      var r := LastValue(cs[..|cs| - 1], name);
      assert forall k :: 0 <= k < |cs| - 1 ==> cs[..|cs| - 1][k] == cs[k];
      r
  }

  /** The index of the last child named `name`. */
  function LastNamed(cs: seq<Node>, name: string): (r: Option<nat>)
    ensures r.Some? ==> r.value < |cs| && Named(cs[r.value], name)
    ensures r.Some? ==> forall j :: r.value < j < |cs| ==> !Named(cs[j], name)
    ensures r.None? ==> NoneNamed(cs, name)
    decreases |cs|
  {
    if cs == [] then None
    else if Named(cs[|cs| - 1], name) then Some(|cs| - 1)
    else
      var r := LastNamed(cs[..|cs| - 1], name);
      assert forall k :: 0 <= k < |cs| - 1 ==> cs[..|cs| - 1][k] == cs[k];
      r
  }

  /** What an `enabled` leaf says: the truth of its text, or true when it
      has none. */
  function EnabledText(c: Node): bool
  {
    c.value.None? || IsTrueText(c.value.value)
  }

  /** The index of the last child owned by module `mod`. */
  function LastInModule(mcs: seq<Node>, mod: string): (r: Option<nat>)
    ensures r.Some? ==> r.value < |mcs| && InModule(mcs[r.value], mod)
    ensures r.Some? ==> forall j :: r.value < j < |mcs| ==> !InModule(mcs[j], mod)
    ensures r.None? ==> forall j :: 0 <= j < |mcs| ==> !InModule(mcs[j], mod)
    decreases |mcs|
  {
    if mcs == [] then None
    else if InModule(mcs[|mcs| - 1], mod) then Some(|mcs| - 1)
    else
      var r := LastInModule(mcs[..|mcs| - 1], mod);
      assert forall k :: 0 <= k < |mcs| - 1 ==> mcs[..|mcs| - 1][k] == mcs[k];
      r
  }

  /** A mount container changes only the sub-models: the routing
      sub-model is the reading of its last ietf-routing child (earlier ones
      are replaced), the interfaces sub-model that of its last
      ietf-interfaces child; without such a child it is left as it was. */
  lemma {:induction false} ReadMountLast(ni: Instance, mcs: seq<Node>, rd: SubReaders)
    requires ReadMount(ni, mcs, rd).Success?
    ensures var r := ReadMount(ni, mcs, rd).value;
            && r.name == ni.name && r.enabled == ni.enabled && r.description == ni.description
            && match LastInModule(mcs, IetfRouting.MODULE)
               case None => r.routing == ni.routing
               case Some(k) => r.routing.Some? && rd.routing(mcs[k]) == Success(r.routing.value)
    ensures var r := ReadMount(ni, mcs, rd).value;
            match LastInModule(mcs, IetfInterfaces.MODULE)
            case None => r.interfaces == ni.interfaces
            case Some(k) =>
              && !InModule(mcs[k], IetfRouting.MODULE)
              && r.interfaces.Some? && rd.interfaces(mcs[k]) == Success(r.interfaces.value)
    decreases |mcs|
  {
    if mcs != [] {
      var init := mcs[..|mcs| - 1];
      ReadMountLast(ni, init, rd);
    }
  }

  /** One child overwrites at most the field its name says. */
  lemma ReadChildLeaves(n: Instance, c: Node, rd: SubReaders)
    requires ReadChild(n, c, rd).Success?
    ensures var r := ReadChild(n, c, rd).value;
            && r.name == (if Named(c, "name") && c.value.Some? then c.value.value else n.name)
            && r.enabled == (if Named(c, "enabled") then EnabledText(c) else n.enabled)
            && r.description == (if Named(c, "description") && c.value.Some? then c.value else n.description)
  {
    if IsMountRoot(c) {
      ReadMountLast(n, c.children, rd);
    }
  }

  /** Every leaf child overwrites its field, so the last one decides: the
      name and description are the values of the last such leaves with a
      value, enabled what the last `enabled` leaf says; a field without
      such a leaf keeps its earlier value. */
  lemma {:induction false} ReadFieldsLeaves(ni: Instance, cs: seq<Node>, rd: SubReaders)
    requires ReadFields(ni, cs, rd).Success?
    ensures var r := ReadFields(ni, cs, rd).value;
            && r.name == (if LastValue(cs, "name").Some? then LastValue(cs, "name").value else ni.name)
            && r.enabled == (if LastNamed(cs, "enabled").Some? then EnabledText(cs[LastNamed(cs, "enabled").value]) else ni.enabled)
            && r.description == (if LastValue(cs, "description").Some? then LastValue(cs, "description") else ni.description)
    decreases |cs|
  {
    if cs != [] {
      var init, c := cs[..|cs| - 1], cs[|cs| - 1];
      ReadFieldsLeaves(ni, init, rd);
      var n := ReadFields(ni, init, rd).value;
      ReadChildLeaves(n, c, rd);
      if LastNamed(init, "enabled").Some? {
        assert cs[LastNamed(init, "enabled").value] == init[LastNamed(init, "enabled").value];
      }
    }
  }

  /** A fresh instance is enabled unless an `enabled` leaf says otherwise:
      it is disabled exactly when the last one has a value that is neither
      "true" nor "1". */
  lemma EnabledUnlessSaidOtherwise(e: Node, rd: SubReaders)
    requires ReadInstance(e, rd).Success?
    ensures !ReadInstance(e, rd).value.enabled <==>
            exists k :: && 0 <= k < |e.children| && Named(e.children[k], "enabled")
                        && (forall j :: k < j < |e.children| ==> !Named(e.children[j], "enabled"))
                        && e.children[k].value.Some? && !IsTrueText(e.children[k].value.value)
  {
    var cs := e.children;
    ReadFieldsLeaves(NEW_INSTANCE, cs, rd);
    var last := LastNamed(cs, "enabled");
    if last.Some? {
      forall k | 0 <= k < |cs| && Named(cs[k], "enabled") && (forall j :: k < j < |cs| ==> !Named(cs[j], "enabled"))
        ensures k == last.value
      {
      }
    }
  }

  // ---------------------------------------------------------------------
  // Dropping unnamed entries

  /** Dropping the unnamed instances keeps the order of the others. */
  lemma {:induction false} KeepNamedAppend(a: seq<Instance>, b: seq<Instance>)
    ensures KeepNamed(a + b) == KeepNamed(a) + KeepNamed(b)
    decreases |b|
  {
    if b == [] {
      assert a + b == a;
    } else {
      var b' := b[..|b| - 1];
      assert (a + b)[..|a + b| - 1] == a + b';
      KeepNamedAppend(a, b');
    }
  }

  /** Exactly the named instances are kept. */
  lemma {:induction false} KeepNamedMembers(xs: seq<Instance>)
    ensures forall x :: x in KeepNamed(xs) <==> x in xs && x.name != ""
    decreases |xs|
  {
    if xs != [] {
      var init, y := xs[..|xs| - 1], xs[|xs| - 1];
      KeepNamedMembers(init);
      assert xs == init + [y];
    }
  }

  /** When every instance has a name, none is dropped. */
  lemma {:induction false} KeepNamedAll(xs: seq<Instance>)
    requires forall k :: 0 <= k < |xs| ==> xs[k].name != ""
    ensures KeepNamed(xs) == xs
    decreases |xs|
  {
    if xs != [] {
      KeepNamedAll(xs[..|xs| - 1]);
    }
  }

  // ---------------------------------------------------------------------
  // The test document

  /** The instance entry of tests/TestIetfNetworkInstance.cpp: VRF-A, enabled,
      with a description, and a vrf-root mounting the routing sub-tree `rt`. */
  function VrfAEntry(rt: Node): Node
  {
    Node(Some(Schema("network-instance", MODULE)), None,
         [Leaf("name", MODULE, "VRF-A"), Leaf("enabled", MODULE, "true"),
          Leaf("description", MODULE, "Test VRF instance with static routing"),
          Node(Some(Schema("vrf-root", MODULE)), None, [rt])])
  }

  /** The entry reads as the test expects, with the routing sub-model that
      the routing deserializer makes of `rt` attached. */
  lemma ReadVrfAEntry(rt: Node, rd: SubReaders)
    requires rt.schema == Some(Schema("routing", IetfRouting.MODULE)) && rd.routing(rt).Success?
    ensures ReadInstance(VrfAEntry(rt), rd)
            == Success(Instance("VRF-A", true, Some("Test VRF instance with static routing"), Some(rd.routing(rt).value), None))
  {
    var cs := VrfAEntry(rt).children;
    var n1 := NEW_INSTANCE.(name := "VRF-A");
    var n3 := n1.(description := Some("Test VRF instance with static routing"));
    assert "enabled"[0] != "name"[0] && "description"[0] != "name"[0] && "description"[0] != "enabled"[0];
    assert "vrf-root"[0] != "name"[0] && "vrf-root"[0] != "enabled"[0] && "vrf-root"[0] != "description"[0];
    ReadFieldsSnoc(NEW_INSTANCE, [], cs[0], rd);
    ReadFieldsSnoc(NEW_INSTANCE, cs[..1], cs[1], rd);
    assert cs[..1] + [cs[1]] == cs[..2];
    ReadFieldsSnoc(NEW_INSTANCE, cs[..2], cs[2], rd);
    assert cs[..2] + [cs[2]] == cs[..3];
    ReadFieldsSnoc(NEW_INSTANCE, cs[..3], cs[3], rd);
    assert cs[..3] + [cs[3]] == cs;
    assert ReadFields(NEW_INSTANCE, cs[..3], rd) == Success(n3);
    assert [rt][..0] == [];
    assert ReadMount(n3, [rt], rd) == Success(n3.(routing := Some(rd.routing(rt).value)));
  }

  /** Scenario C: the document deserializes to exactly that one instance. */
  lemma ReadVrfADocument(rt: Node, rd: SubReaders)
    requires rt.schema == Some(Schema("routing", IetfRouting.MODULE)) && rd.routing(rt).Success?
    ensures var doc := Node(Some(Schema("network-instances", MODULE)), None, [VrfAEntry(rt)]);
            ReadNetworkInstances(Some(doc), [doc], rd)
            == Success([Instance("VRF-A", true, Some("Test VRF instance with static routing"), Some(rd.routing(rt).value), None)])
  {
    var doc := Node(Some(Schema("network-instances", MODULE)), None, [VrfAEntry(rt)]);
    ReadVrfAEntry(rt, rd);
    assert NamedIn(doc, "network-instances", MODULE);
    assert [VrfAEntry(rt)][..0] == [];
    var x := Instance("VRF-A", true, Some("Test VRF instance with static routing"), Some(rd.routing(rt).value), None);
    assert Reader(rd)(VrfAEntry(rt)) == Success(x);
    assert Named(VrfAEntry(rt), "network-instance");
    CollectAllSnoc([VrfAEntry(rt)], 0, "network-instance", Reader(rd));
    assert [VrfAEntry(rt)][..1] == [VrfAEntry(rt)];
    KeepNamedSnoc([], x);
    assert [] + [x] == [x];
  }

  // ---------------------------------------------------------------------
  // What serialize writes

  /** The root serialize creates, `/ietf-network-instance:network-instances`. */
  function NetworkInstancesRoot(): Node
  {
    Node(Some(Schema("network-instances", MODULE)), None, [])
  }

  function NameKey(x: Instance): seq<Key> { [Key("name", x.name)] }

  /** `enabled` is written only when false, the description when set. */
  function InstanceFields(x: Instance): seq<Key>
  {
    (if x.enabled then [] else [Key("enabled", "false")])
    + (if x.description.Some? then [Key("description", x.description.value)] else [])
  }

  /** `network-instance[name='..']`: name, then enabled and description;
      the routing and interfaces sub-models are never written. */
  function InstanceLayout(): Layout<Instance>
  {
    Layout("", "network-instance", NameKey, InstanceFields, NoDeeperWrites)
  }

  /** The writes serialize makes below the root, with each path starting
      at the `network-instance` entry. */
  function InstancesLog(xs: seq<Instance>): seq<Write>
  {
    EntriesLog(xs, InstanceLayout())
  }

  /** The same writes with the paths as src/IetfNetworkInstance.cpp formats
      them: each starts with `network-instances/` again, although it is
      made below the `network-instances` root. */
  function AsWrittenLog(xs: seq<Instance>): seq<Write>
  {
    Under(Child("", "network-instances"), EntriesLog(xs, InstanceLayout()))
  }

  /** The steps `pre` put in front of every path of `log`. */
  function Prefixed(pre: seq<Step>, log: seq<Write>): (r: seq<Write>)
    ensures |r| == |log|
    ensures forall k :: 0 <= k < |log| ==> r[k] == Write(pre + log[k].path, log[k].value)
  {
    seq(|log|, k requires 0 <= k < |log| => Write(pre + log[k].path, log[k].value))
  }

  /** The step src/IetfNetworkInstance.cpp repeats at the head of each path. */
  const AS_WRITTEN_PREFIX: seq<Step> := [Child("", "network-instances")]

  lemma PrefixedAppend(pre: seq<Step>, a: seq<Write>, b: seq<Write>)
    ensures Prefixed(pre, a + b) == Prefixed(pre, a) + Prefixed(pre, b)
  {
    assert forall k :: 0 <= k < |a| + |b| ==> Prefixed(pre, a + b)[k] == (Prefixed(pre, a) + Prefixed(pre, b))[k];
  }

  /** No prefix leaves the log alone; the as-written prefix is `AsWrittenLog`. */
  lemma PrefixedLogs(xs: seq<Instance>)
    ensures Prefixed([], InstancesLog(xs)) == InstancesLog(xs)
    ensures Prefixed(AS_WRITTEN_PREFIX, InstancesLog(xs)) == AsWrittenLog(xs)
  {
    var log := InstancesLog(xs);
    assert forall k :: 0 <= k < |log| ==> Prefixed([], log)[k] == log[k] by {
      forall k | 0 <= k < |log| ensures Prefixed([], log)[k] == log[k] {
        assert [] + log[k].path == log[k].path;
      }
    }
  }

  /** What of an instance survives serialize and deserialize. */
  function WrittenInstance(x: Instance): Instance
  {
    x.(routing := None, interfaces := None)
  }

  predicate DistinctNames(xs: seq<Instance>)
  {
    forall i, j :: 0 <= i < j < |xs| ==> xs[i].name != xs[j].name
  }

  /** A path below `network-instances` that the ietf-network-instance
      schema resolves: its first step must name the container's only child
      in the schema, the `network-instance` list. */
  predicate InSchema(w: Write)
  {
    w.path != [] && w.path[0].name == "network-instance"
  }

  lemma InstancesLaidOut(xs: seq<Instance>)
    requires DistinctNames(xs)
    ensures WellLaidOut(xs, InstanceLayout(), ["name"]) && DistinctKeys(xs, InstanceLayout())
  {
    forall k | 0 <= k < |xs|
      ensures DistinctKeyNames(NameKey(xs[k]) + InstanceFields(xs[k]))
    {
      InstanceKeyNames(xs[k]);
    }
    forall i, j | 0 <= i < j < |xs|
      ensures NameKey(xs[i]) != NameKey(xs[j])
    {
      assert NameKey(xs[i])[0].value == xs[i].name;
    }
  }

  /** An entry's leaves have distinct names. */
  lemma InstanceKeyNames(x: Instance)
    ensures DistinctKeyNames(NameKey(x) + InstanceFields(x))
  {
    var e := if x.enabled then [] else [Key("enabled", "false")];
    var d := if x.description.Some? then [Key("description", x.description.value)] else [];
    assert InstanceFields(x) == e + d;
    assert DistinctKeyNames(e + d) by {
      assert "enabled" != "description" by { assert "enabled"[0] != "description"[0]; }
      DistinctKeyNamesAppend(e, d);
    }
    assert forall k :: 0 <= k < |e + d| ==> (e + d)[k].name in {"enabled", "description"};
    assert "name" !in {"enabled", "description"} by {
      assert "name"[0] != "enabled"[0] && "name"[0] != "description"[0];
    }
    DistinctKeyNamesAppend(NameKey(x), e + d);
  }

  lemma ReadFieldsSnoc(ni: Instance, cs: seq<Node>, c: Node, rd: SubReaders)
    ensures ReadFields(ni, cs + [c], rd) ==
            match ReadFields(ni, cs, rd)
            case Failure(e) => Failure(e)
            case Success(n) => ReadChild(n, c, rd)
  {
    assert (cs + [c])[..|cs|] == cs;
  }

  /** The leaves a written entry holds after its name. */
  function EnabledLeaves(x: Instance): seq<Node>
  {
    if x.enabled then [] else [Leaf("enabled", MODULE, "false")]
  }

  function DescriptionLeaves(x: Instance): seq<Node>
  {
    if x.description.Some? then [Leaf("description", MODULE, x.description.value)] else []
  }

  lemma WrittenEntryChildren(x: Instance)
    ensures FilledEntry(x, MODULE, InstanceLayout()).children
            == [Leaf("name", MODULE, x.name)] + EnabledLeaves(x) + DescriptionLeaves(x)
  {
    KeyLeavesAppend(NameKey(x), InstanceFields(x), MODULE);
    KeyLeavesAppend(if x.enabled then [] else [Key("enabled", "false")],
                    if x.description.Some? then [Key("description", x.description.value)] else [], MODULE);
  }

  lemma ReadNameAndEnabled(x: Instance, rd: SubReaders)
    ensures ReadFields(NEW_INSTANCE, [Leaf("name", MODULE, x.name)] + EnabledLeaves(x), rd)
            == Success(NEW_INSTANCE.(name := x.name, enabled := x.enabled))
  {
    var name := Leaf("name", MODULE, x.name);
    assert ReadFields(NEW_INSTANCE, [name], rd) == Success(NEW_INSTANCE.(name := x.name)) by {
      ReadFieldsSnoc(NEW_INSTANCE, [], name, rd);
      assert [] + [name] == [name];
    }
    if !x.enabled {
      ReadFieldsSnoc(NEW_INSTANCE, [name], EnabledLeaves(x)[0], rd);
      assert !IsTrueText("false") by {
        assert "false"[0] != "true"[0];
      }
    } else {
      assert [name] + EnabledLeaves(x) == [name];
    }
  }

  lemma ReadDescription(x: Instance, n: Instance, cs: seq<Node>, rd: SubReaders)
    requires ReadFields(NEW_INSTANCE, cs, rd) == Success(n)
    ensures ReadFields(NEW_INSTANCE, cs + DescriptionLeaves(x), rd)
            == Success(if x.description.Some? then n.(description := x.description) else n)
  {
    if x.description.Some? {
      var d := Leaf("description", MODULE, x.description.value);
      ReadFieldsSnoc(NEW_INSTANCE, cs, d, rd);
      assert !Named(d, "name") && !Named(d, "enabled");
    } else {
      assert cs + DescriptionLeaves(x) == cs;
    }
  }

  /** A written entry reads back as the instance without its sub-models. */
  lemma ReadWrittenEntry(x: Instance, rd: SubReaders)
    ensures ReadInstance(FilledEntry(x, MODULE, InstanceLayout()), rd) == Success(WrittenInstance(x))
  {
    WrittenEntryChildren(x);
    ReadNameAndEnabled(x, rd);
    ReadDescription(x, NEW_INSTANCE.(name := x.name, enabled := x.enabled),
                    [Leaf("name", MODULE, x.name)] + EnabledLeaves(x), rd);
  }

  /** The tree serialize builds: one filled entry per instance. */
  lemma BuildInstances(xs: seq<Instance>)
    requires DistinctNames(xs)
    ensures Build(NetworkInstancesRoot(), InstancesLog(xs))
            == NetworkInstancesRoot().(children := EntryNodes(xs, MODULE, InstanceLayout()))
  {
    InstancesLaidOut(xs);
    BuildEntries(NetworkInstancesRoot(), xs, InstanceLayout(), ["name"]);
    assert [] + EntryNodes(xs, MODULE, InstanceLayout()) == EntryNodes(xs, MODULE, InstanceLayout());
  }

  /** The entries serialize writes read back in order. */
  lemma ReadInstanceEntries(xs: seq<Instance>, rd: SubReaders)
    requires forall k :: 0 <= k < |xs| ==> xs[k].name != ""
    ensures ReadInstances(EntryNodes(xs, MODULE, InstanceLayout()), rd) == Success(Map(xs, WrittenInstance))
  {
    var lay := InstanceLayout();
    forall k | 0 <= k < |xs|
      ensures Reader(rd)(FilledEntry(xs[k], MODULE, lay)) == Success(WrittenInstance(xs[k]))
    {
      ReadWrittenEntry(xs[k], rd);
    }
    CollectAllEntries(xs, MODULE, lay, Reader(rd), WrittenInstance);
    KeepNamedAll(Map(xs, WrittenInstance));
  }

  /** Serialize then deserialize: instances with distinct, non-empty names
      come back in order, with name, enabled and description, and without
      the routing and interfaces sub-models serialize leaves out. */
  lemma RoundTrip(xs: seq<Instance>, rd: SubReaders)
    requires DistinctNames(xs) && forall k :: 0 <= k < |xs| ==> xs[k].name != ""
    ensures var root := Build(NetworkInstancesRoot(), InstancesLog(xs));
            ReadNetworkInstances(Some(root), [root], rd) == Success(Map(xs, WrittenInstance))
  {
    var root := Build(NetworkInstancesRoot(), InstancesLog(xs));
    BuildInstances(xs);
    assert NamedIn(root, "network-instances", MODULE);
    ReadInstanceEntries(xs, rd);
  }

  predicate AllInSchema(log: seq<Write>)
  {
    forall k :: 0 <= k < |log| ==> InSchema(log[k])
  }

  lemma AllInSchemaAppend(a: seq<Write>, b: seq<Write>)
    requires AllInSchema(a) && AllInSchema(b)
    ensures AllInSchema(a + b)
  {
    forall k | |a| <= k < |a + b|
      ensures InSchema((a + b)[k])
    {
      assert (a + b)[k] == b[k - |a|];
    }
  }

  /** Every write serialize makes (with the paths corrected) resolves in
      the schema. */
  lemma {:induction false} InstancesLogInSchema(xs: seq<Instance>)
    ensures AllInSchema(InstancesLog(xs))
    decreases |xs|
  {
    if xs != [] {
      var init, x := xs[..|xs| - 1], xs[|xs| - 1];
      InstancesLogInSchema(init);
      var b := EntryWrites(x, InstanceLayout());
      assert AllInSchema(b);
      AllInSchemaAppend(InstancesLog(init), b);
    }
  }

  /** The paths as written never resolve: for any non-empty list the
      first write already fails, so serialize frees the root and returns
      null. */
  lemma AsWrittenLogRejected(xs: seq<Instance>)
    ensures forall k :: 0 <= k < |AsWrittenLog(xs)| ==> !InSchema(AsWrittenLog(xs)[k])
    ensures xs != [] ==> AsWrittenLog(xs) != []
  {
    assert "network-instances" != "network-instance";
    EntriesLogEmpty(xs, InstanceLayout());
  }

  /** When the library accepts only paths that resolve below the root, the
      writes as written are refused for any non-empty list ... */
  lemma AsWrittenRefused(xs: seq<Instance>, accepts: Write -> bool)
    requires xs != []
    requires forall w :: accepts(w) ==> InSchema(w)
    ensures !AllAccepted(AsWrittenLog(xs), accepts)
  {
    AsWrittenLogRejected(xs);
    assert !InSchema(AsWrittenLog(xs)[0]);
  }

  /** ... while the corrected writes go through whenever it accepts every
      path that resolves. */
  lemma CorrectedAccepted(xs: seq<Instance>, accepts: Write -> bool)
    requires forall w :: InSchema(w) ==> accepts(w)
    ensures AllAccepted(InstancesLog(xs), accepts)
  {
    InstancesLogInSchema(xs);
  }

  /** Even where the writes as written are carried out, the entries land
      in a `network-instances` container nested below the root, so the
      tree reads back without a single instance. */
  lemma AsWrittenReadsBackNothing(xs: seq<Instance>, rd: SubReaders)
    requires xs != []
    ensures var root := Build(NetworkInstancesRoot(), AsWrittenLog(xs));
            ReadNetworkInstances(Some(root), [root], rd) == Success([])
  {
    var lay := InstanceLayout();
    var st := Child("", "network-instances");
    var log := EntriesLog(xs, lay);
    EntriesLogEmpty(xs, lay);
    EntriesLogBelowRoot(xs, lay);
    BuildUnderNew(NetworkInstancesRoot(), st, log);
    var nested := Build(NewNode(st, MODULE, None), log);
    BuildKeepsSchema(NewNode(st, MODULE, None), log);
    var root := Build(NetworkInstancesRoot(), AsWrittenLog(xs));
    assert root.children == [nested];
    assert !Named(nested, "network-instance") by {
      assert "network-instances" != "network-instance";
    }
    assert CollectAll([nested], "network-instance", Reader(rd)) == Success([]) by {
      assert [nested][..0] == [];
    }
  }

  // ---------------------------------------------------------------------
  // The objects

  /** `IetfNetworkInstances::NetworkInstance`. It is move-only, so the
      routing and interfaces sub-models it points to belong to it alone. */
  class NetworkInstance {
    var name: string
    var enabled: bool
    var description: Option<string>
    var routing: IetfRouting.IetfRouting?
    var interfaces: IetfInterfaces.IetfInterfaces?

    constructor()
      ensures Value() == NEW_INSTANCE
      ensures routing == null && interfaces == null
    {
      name := "";
      enabled := true;
      description := None;
      routing := null;
      interfaces := null;
    }

    /** The instance, with the current contents of its sub-models. */
    function Value(): Instance
      reads this, routing, interfaces
    {
      Instance(name, enabled, description,
               if routing == null then None else Some(routing.routing),
               if interfaces == null then None else Some(interfaces.ifs))
    }

    method SetName(n: string)
      modifies this
      ensures name == n
      ensures enabled == old(enabled) && description == old(description)
      ensures routing == old(routing) && interfaces == old(interfaces)
    {
      name := n;
    }

    method SetEnabled(e: bool)
      modifies this
      ensures enabled == e
      ensures name == old(name) && description == old(description)
      ensures routing == old(routing) && interfaces == old(interfaces)
    {
      enabled := e;
    }

    method SetDescription(d: Option<string>)
      modifies this
      ensures description == d
      ensures name == old(name) && enabled == old(enabled)
      ensures routing == old(routing) && interfaces == old(interfaces)
    {
      description := d;
    }

    /** Takes ownership of `r`, dropping the routing sub-model held before. */
    method SetRouting(r: IetfRouting.IetfRouting)
      modifies this
      ensures routing == r
      ensures name == old(name) && enabled == old(enabled) && description == old(description)
      ensures interfaces == old(interfaces)
    {
      routing := r;
    }

    /** Takes ownership of `i`, dropping the interfaces sub-model held before. */
    method SetInterfaces(i: IetfInterfaces.IetfInterfaces)
      modifies this
      ensures interfaces == i
      ensures name == old(name) && enabled == old(enabled) && description == old(description)
      ensures routing == old(routing)
    {
      interfaces := i;
    }
  }

  /** `KeepNamed` extended by one instance. */
  lemma KeepNamedSnoc(xs: seq<Instance>, x: Instance)
    ensures KeepNamed(xs + [x]) == KeepNamed(xs) + (if x.name != "" then [x] else [])
  {
    assert (xs + [x])[..|xs|] == xs;
  }

  /** A prefix of an entry's children that fails makes the whole entry fail. */
  lemma ReadFieldsPrefixFails(ni: Instance, cs: seq<Node>, j: nat, rd: SubReaders)
    requires j <= |cs| && ReadFields(ni, cs[..j], rd).Failure?
    ensures ReadFields(ni, cs, rd).Failure?
  {
    ReadFieldsFails(ni, cs[..j], rd);
    var i :| 0 <= i < j && IsMountRoot(cs[..j][i]) && MountFails(cs[..j][i], rd);
    assert cs[..j][i] == cs[i];
    ReadFieldsFails(ni, cs, rd);
  }

  /** The writes for one more instance follow those for the ones before. */
  lemma InstancesLogSnoc(xs: seq<Instance>, i: nat)
    requires i < |xs|
    ensures InstancesLog(xs[..i + 1]) == InstancesLog(xs[..i]) + EntryWrites(xs[i], InstanceLayout())
  {
    assert xs[..i + 1][..i] == xs[..i];
  }

  /** The writes for one more instance follow those for the ones before,
      whatever steps head their paths. */
  lemma PrefixedSnoc(pre: seq<Step>, xs: seq<Instance>, i: nat)
    requires i < |xs|
    ensures Prefixed(pre, InstancesLog(xs[..i + 1]))
            == Prefixed(pre, InstancesLog(xs[..i])) + Prefixed(pre, EntryWrites(xs[i], InstanceLayout()))
  {
    InstancesLogSnoc(xs, i);
    PrefixedAppend(pre, InstancesLog(xs[..i]), EntryWrites(xs[i], InstanceLayout()));
  }

  /** Heading every path by the same steps keeps a prefix a prefix. */
  lemma PrefixedMonotone(pre: seq<Step>, a: seq<Write>, c: seq<Write>)
    requires a <= c
    ensures Prefixed(pre, a) <= Prefixed(pre, c)
  {
    assert forall k :: 0 <= k < |a| ==> Prefixed(pre, a)[k] == Prefixed(pre, c)[k];
  }

  lemma AcceptedPrefix(a: seq<Write>, c: seq<Write>, accepts: Write -> bool)
    requires a <= c && AllAccepted(c, accepts)
    ensures AllAccepted(a, accepts)
  {
    assert forall k :: 0 <= k < |a| ==> a[k] == c[k];
  }

  lemma AcceptedSuffix(a: seq<Write>, b: seq<Write>, accepts: Write -> bool)
    requires AllAccepted(a + b, accepts)
    ensures AllAccepted(b, accepts)
  {
    forall k | 0 <= k < |b|
      ensures accepts(b[k])
    {
      assert (a + b)[|a| + k] == b[k];
    }
  }

  /** A refused write for instance `i` is a refused write of the whole log. */
  lemma RefusedWrite(pre: seq<Step>, xs: seq<Instance>, i: nat, accepts: Write -> bool)
    requires i < |xs| && !AllAccepted(Prefixed(pre, EntryWrites(xs[i], InstanceLayout())), accepts)
    ensures !AllAccepted(Prefixed(pre, InstancesLog(xs)), accepts)
  {
    if AllAccepted(Prefixed(pre, InstancesLog(xs)), accepts) {
      EntriesLogPrefix(xs, i + 1, InstanceLayout());
      PrefixedMonotone(pre, InstancesLog(xs[..i + 1]), InstancesLog(xs));
      AcceptedPrefix(Prefixed(pre, InstancesLog(xs[..i + 1])), Prefixed(pre, InstancesLog(xs)), accepts);
      PrefixedSnoc(pre, xs, i);
      AcceptedSuffix(Prefixed(pre, InstancesLog(xs[..i])), Prefixed(pre, EntryWrites(xs[i], InstanceLayout())), accepts);
    }
  }

  /** The loop of serialize over the instances, on the root it created,
      each path headed by the steps `pre`. */
  method WriteInstances(xs: seq<Instance>, pre: seq<Step>, accepts: Write -> bool) returns (root: Option<Node>)
    ensures root.Some? <==> AllAccepted(Prefixed(pre, InstancesLog(xs)), accepts)
    ensures root.Some? ==> root.value == Build(NetworkInstancesRoot(), Prefixed(pre, InstancesLog(xs)))
  {
    var t := NetworkInstancesRoot();
    var i := 0;
    assert xs[..0] == [];
    while i < |xs|
      invariant 0 <= i <= |xs|
      invariant AllAccepted(Prefixed(pre, InstancesLog(xs[..i])), accepts)
      invariant t == Build(NetworkInstancesRoot(), Prefixed(pre, InstancesLog(xs[..i])))
    {
      var ws := Prefixed(pre, EntryWrites(xs[i], InstanceLayout()));
      PrefixedSnoc(pre, xs, i);
      var next := NewPathsChecked(NetworkInstancesRoot(), t, Prefixed(pre, InstancesLog(xs[..i])), ws, accepts);
      if next.None? {
        RefusedWrite(pre, xs, i, accepts);
        return None;
      }
      AllAcceptedAppend(Prefixed(pre, InstancesLog(xs[..i])), ws, accepts);
      t := next.value;
      i := i + 1;
    }
    assert xs[..i] == xs;
    return Some(t);
  }

  /** One more `network-instance` entry read in the deserialize loop. */
  lemma EntryStep(cs: seq<Node>, i: nat, xs: seq<Instance>, x: Instance, rd: SubReaders)
    requires i < |cs| && Named(cs[i], "network-instance")
    requires CollectAll(cs[..i], "network-instance", Reader(rd)) == Success(xs)
    requires ReadInstance(cs[i], rd) == Success(x)
    ensures CollectAll(cs[..i + 1], "network-instance", Reader(rd)) == Success(xs + [x])
    ensures KeepNamed(xs + [x]) == KeepNamed(xs) + (if x.name != "" then [x] else [])
  {
    CollectAllSnoc(cs, i, "network-instance", Reader(rd));
    KeepNamedSnoc(xs, x);
  }

  /** An entry that fails to read makes the whole loop fail. */
  lemma EntryStepFails(cs: seq<Node>, i: nat, xs: seq<Instance>, rd: SubReaders)
    requires i < |cs| && Named(cs[i], "network-instance")
    requires CollectAll(cs[..i], "network-instance", Reader(rd)) == Success(xs)
    requires ReadInstance(cs[i], rd).Failure?
    ensures CollectAll(cs, "network-instance", Reader(rd)).Failure?
  {
    CollectAllSnoc(cs, i, "network-instance", Reader(rd));
    CollectAllPrefixFails(cs, i + 1, "network-instance", Reader(rd));
  }

  /** A child of the container that is not an entry is skipped. */
  lemma SkipStep(cs: seq<Node>, i: nat, xs: seq<Instance>, rd: SubReaders)
    requires i < |cs| && !Named(cs[i], "network-instance")
    requires CollectAll(cs[..i], "network-instance", Reader(rd)) == Success(xs)
    ensures CollectAll(cs[..i + 1], "network-instance", Reader(rd)) == Success(xs)
  {
    CollectAllSnoc(cs, i, "network-instance", Reader(rd));
  }

  /** `IetfNetworkInstances`: the vector of instances it owns. The vector
      holds move-only instances whose sub-models are unique pointers, so
      no object in it is shared: it is kept here by value. */
  class IetfNetworkInstances {
    var instances: seq<Instance>

    constructor()
      ensures instances == []
    {
      instances := [];
    }

    /** `mutableNetworkInstances().push_back(std::move(ni))`. */
    method AddInstance(ni: NetworkInstance)
      modifies this
      ensures instances == old(instances) + [ni.Value()]
    {
      instances := instances + [ni.Value()];
    }

    /** `IetfNetworkInstances::serialize`: creates the root, `rootOk` being
        whether the library manages to, then writes each instance's name,
        enabled when false and description when set, freeing the root and
        returning null at the first write the library refuses. The paths
        are formatted as the code does, `network-instances/network-instance
        [name='..']/..` below the root, so a library that accepts only
        paths resolving below the root refuses the first write. */
    method Serialize(rootOk: bool, accepts: Write -> bool) returns (root: Option<Node>)
      ensures root.Some? <==> rootOk && AllAccepted(AsWrittenLog(instances), accepts)
      ensures root.Some? ==> root.value == Build(NetworkInstancesRoot(), AsWrittenLog(instances))
      ensures instances != [] && (forall w :: accepts(w) ==> InSchema(w)) ==> root.None?
    {
      if !rootOk {
        return None;
      }
      root := WriteInstances(instances, AS_WRITTEN_PREFIX, accepts);
      PrefixedLogs(instances);
      if instances != [] && (forall w :: accepts(w) ==> InSchema(w)) {
        AsWrittenRefused(instances, accepts);
      }
    }

    /** Serialize with the paths corrected to `network-instance[name='..']/..`
        below the root: it succeeds whenever the library accepts the paths
        that resolve, and its tree reads back as the instances (`RoundTrip`). */
    method SerializeCorrected(rootOk: bool, accepts: Write -> bool) returns (root: Option<Node>)
      ensures root.Some? <==> rootOk && AllAccepted(InstancesLog(instances), accepts)
      ensures root.Some? ==> root.value == Build(NetworkInstancesRoot(), InstancesLog(instances))
      ensures rootOk && (forall w :: InSchema(w) ==> accepts(w)) ==> root.Some?
    {
      if !rootOk {
        return None;
      }
      root := WriteInstances(instances, [], accepts);
      PrefixedLogs(instances);
      if forall w :: InSchema(w) ==> accepts(w) {
        CorrectedAccepted(instances, accepts);
      }
    }

    /** `IetfNetworkInstances::deserialize` on the document whose top-level
        nodes are `tops`: an empty model for a null tree or a missing
        container; otherwise each `network-instance` entry is read into a
        new instance, kept when it has a name. */
    static method Deserialize(tree: Option<Node>, tops: seq<Node>) returns (r: Result<IetfNetworkInstances>)
      ensures r.Failure? <==> ReadNetworkInstances(tree, tops, Mounted(tops)).Failure?
      ensures r.Success? ==> fresh(r.value) && r.value.instances == ReadNetworkInstances(tree, tops, Mounted(tops)).value
    {
      var model := new IetfNetworkInstances();
      if tree.None? {
        return Success(model);
      }
      var found := Container(tree.value, tops);
      if found.None? {
        return Success(model);
      }
      var ok := ReadEntriesInto(model, found.value.children, tops);
      if ok.Failure? {
        return Failure(ok.error);
      }
      return Success(model);
    }

    /** The loop over the container's children, into the empty `model`. */
    static method ReadEntriesInto(model: IetfNetworkInstances, cs: seq<Node>, tops: seq<Node>) returns (r: Result<()>)
      requires model.instances == []
      modifies model
      ensures r.Failure? <==> ReadInstances(cs, Mounted(tops)).Failure?
      ensures r.Success? ==> model.instances == ReadInstances(cs, Mounted(tops)).value
    {
      ghost var xs: seq<Instance> := [];
      var i := 0;
      assert cs[..0] == [];
      while i < |cs|
        invariant 0 <= i <= |cs|
        invariant CollectAll(cs[..i], "network-instance", Reader(Mounted(tops))) == Success(xs)
        invariant model.instances == KeepNamed(xs)
      {
        r, xs := EntryInto(model, cs, i, tops, xs);
        if r.Failure? {
          return;
        }
        i := i + 1;
      }
      assert cs[..i] == cs;
      return Success(());
    }

    /** One child of the container: an entry is read and, when it has a
        name, appended; anything else is skipped. */
    static method EntryInto(model: IetfNetworkInstances, cs: seq<Node>, i: nat, tops: seq<Node>,
                            ghost xs: seq<Instance>)
      returns (r: Result<()>, ghost ys: seq<Instance>)
      requires i < |cs|
      requires CollectAll(cs[..i], "network-instance", Reader(Mounted(tops))) == Success(xs)
      requires model.instances == KeepNamed(xs)
      modifies model
      ensures r.Failure? ==> CollectAll(cs, "network-instance", Reader(Mounted(tops))).Failure?
      ensures r.Success? ==> && CollectAll(cs[..i + 1], "network-instance", Reader(Mounted(tops))) == Success(ys)
                             && model.instances == KeepNamed(ys)
    {
      ghost var rd := Mounted(tops);
      var entry := cs[i];
      if !Named(entry, "network-instance") {
        SkipStep(cs, i, xs, rd);
        return Success(()), xs;
      }
      var ok := ReadEntry(entry, tops);
      if ok.Failure? {
        EntryStepFails(cs, i, xs, rd);
        return Failure(ok.error), xs;
      }
      var ni := ok.value;
      ghost var v := ni.Value();
      EntryStep(cs, i, xs, v, rd);
      if ni.name != "" {
        model.AddInstance(ni);
      }
      return Success(()), xs + [v];
    }

    /** One `network-instance` entry, read into a new instance whose
        sub-models, if any, are new too. */
    static method ReadEntry(entry: Node, tops: seq<Node>) returns (r: Result<NetworkInstance>)
      ensures r.Failure? <==> ReadInstance(entry, Mounted(tops)).Failure?
      ensures r.Success? ==>
                && fresh(r.value)
                && r.value.Value() == ReadInstance(entry, Mounted(tops)).value
                && (r.value.routing != null ==> fresh(r.value.routing))
                && (r.value.interfaces != null ==> fresh(r.value.interfaces))
    {
      var ni := new NetworkInstance();
      var ok := ReadEntryInto(ni, entry.children, tops);
      if ok.Failure? {
        return Failure(ok.error);
      }
      return Success(ni);
    }

    /** The loop over an entry's direct children, into the new instance `ni`. */
    static method ReadEntryInto(ni: NetworkInstance, cs: seq<Node>, tops: seq<Node>) returns (r: Result<()>)
      modifies ni
      ensures r.Failure? <==> ReadFields(old(ni.Value()), cs, Mounted(tops)).Failure?
      ensures r.Success? ==> ni.Value() == ReadFields(old(ni.Value()), cs, Mounted(tops)).value
      ensures ni.routing == old(ni.routing) || fresh(ni.routing)
      ensures ni.interfaces == old(ni.interfaces) || fresh(ni.interfaces)
    {
      ghost var v0 := ni.Value();
      ghost var rd := Mounted(tops);
      var j := 0;
      assert cs[..0] == [];
      while j < |cs|
        invariant 0 <= j <= |cs|
        invariant ReadFields(v0, cs[..j], rd) == Success(ni.Value())
        invariant ni.routing == old(ni.routing) || fresh(ni.routing)
        invariant ni.interfaces == old(ni.interfaces) || fresh(ni.interfaces)
      {
        assert cs[..j + 1][..j] == cs[..j];
        var ok := ApplyChild(ni, cs[j], tops);
        if ok.Failure? {
          ReadFieldsPrefixFails(v0, cs, j + 1, rd);
          return Failure(ok.error);
        }
        j := j + 1;
      }
      assert cs[..j] == cs;
      return Success(());
    }

    /** One direct child of an entry: the simple leaves, or a mount
        container read child by child. */
    static method ApplyChild(ni: NetworkInstance, c: Node, tops: seq<Node>) returns (r: Result<()>)
      modifies ni
      ensures r.Failure? <==> ReadChild(old(ni.Value()), c, Mounted(tops)).Failure?
      ensures r.Success? ==> ni.Value() == ReadChild(old(ni.Value()), c, Mounted(tops)).value
      ensures ni.routing == old(ni.routing) || fresh(ni.routing)
      ensures ni.interfaces == old(ni.interfaces) || fresh(ni.interfaces)
    {
      if c.schema.None? {
        return Success(());
      }
      if Named(c, "name") {
        if c.value.Some? {
          ni.SetName(c.value.value);
        }
        return Success(());
      }
      if Named(c, "enabled") {
        if c.value.Some? {
          ni.SetEnabled(IsTrueText(c.value.value));
        } else {
          ni.SetEnabled(true);
        }
        return Success(());
      }
      if Named(c, "description") {
        if c.value.Some? {
          ni.SetDescription(c.value);
        }
        return Success(());
      }
      if IsMountRoot(c) {
        r := ReadMountInto(ni, c.children, tops);
        return;
      }
      return Success(());
    }

    /** The loop over a mount container's children, dispatching each to the
        routing or interfaces deserializer; their exceptions propagate. */
    static method ReadMountInto(ni: NetworkInstance, mcs: seq<Node>, tops: seq<Node>) returns (r: Result<()>)
      modifies ni
      ensures r.Failure? <==> ReadMount(old(ni.Value()), mcs, Mounted(tops)).Failure?
      ensures r.Success? ==> ni.Value() == ReadMount(old(ni.Value()), mcs, Mounted(tops)).value
      ensures ni.routing == old(ni.routing) || fresh(ni.routing)
      ensures ni.interfaces == old(ni.interfaces) || fresh(ni.interfaces)
    {
      ghost var v0 := ni.Value();
      var j := 0;
      assert mcs[..0] == [];
      while j < |mcs|
        invariant 0 <= j <= |mcs|
        invariant ReadMount(v0, mcs[..j], Mounted(tops)) == Success(ni.Value())
        invariant ni.routing == old(ni.routing) || fresh(ni.routing)
        invariant ni.interfaces == old(ni.interfaces) || fresh(ni.interfaces)
      {
        r := MountStep(ni, mcs, j, tops, v0);
        if r.Failure? {
          return;
        }
        j := j + 1;
      }
      assert mcs[..j] == mcs;
      return Success(());
    }

    /** The mount loop's body for child `j`. */
    static method MountStep(ni: NetworkInstance, mcs: seq<Node>, j: nat, tops: seq<Node>, ghost v0: Instance)
      returns (r: Result<()>)
      requires j < |mcs|
      requires ReadMount(v0, mcs[..j], Mounted(tops)) == Success(ni.Value())
      modifies ni
      ensures r.Failure? ==> ReadMount(v0, mcs, Mounted(tops)).Failure?
      ensures r.Success? ==> ReadMount(v0, mcs[..j + 1], Mounted(tops)) == Success(ni.Value())
      ensures ni.routing == old(ni.routing) || fresh(ni.routing)
      ensures ni.interfaces == old(ni.interfaces) || fresh(ni.interfaces)
    {
      ReadMountSnoc(v0, mcs, j, Mounted(tops));
      r := ReadMountChildInto(ni, mcs[j], tops);
      if r.Failure? {
        ReadMountPrefixFails(v0, mcs, j + 1, Mounted(tops));
      }
    }

    /** One child of a mount container: a routing or interfaces sub-tree is
        deserialized into a new sub-model that replaces the one held. */
    static method ReadMountChildInto(ni: NetworkInstance, mc: Node, tops: seq<Node>) returns (r: Result<()>)
      modifies ni
      ensures r.Failure? <==> ReadMountChild(old(ni.Value()), mc, Mounted(tops)).Failure?
      ensures r.Success? ==> ni.Value() == ReadMountChild(old(ni.Value()), mc, Mounted(tops)).value
      ensures ni.routing == old(ni.routing) || fresh(ni.routing)
      ensures ni.interfaces == old(ni.interfaces) || fresh(ni.interfaces)
    {
      if InModule(mc, IetfRouting.MODULE) {
        var sub := IetfRouting.IetfRouting.Deserialize(Some(mc), tops);
        if sub.Failure? {
          return Failure(sub.error);
        }
        ni.SetRouting(sub.value);
      } else if InModule(mc, IetfInterfaces.MODULE) {
        var sub := IetfInterfaces.IetfInterfaces.Deserialize(Some(mc), tops);
        if sub.Failure? {
          return Failure(sub.error);
        }
        ni.SetInterfaces(sub.value);
      }
      return Success(());
    }
  }
}
