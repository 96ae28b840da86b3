// An abstract YANG data tree standing in for libyang's `lyd_node`, the lookups
// the codecs make in it, and the write log that stands in for `lyd_new_path`
// together with the interpretation that builds a tree from it.
module YangTree {
  import opened Wrappers

  /** The schema node a data node instantiates: its name and the name of
      the module that defines it. */
  datatype Schema = Schema(name: string, mod: string)

  /** A data node: a node without a schema is one the codecs skip; `value`
      is what `lyd_get_value` returns (none for inner nodes); `children` are
      in sibling order. */
  datatype Node = Node(schema: Option<Schema>, value: Option<string>, children: seq<Node>)

  predicate Named(n: Node, name: string)
  {
    n.schema.Some? && n.schema.value.name == name
  }

  predicate NamedIn(n: Node, name: string, mod: string)
  {
    n.schema == Some(Schema(name, mod))
  }

  // ---------------------------------------------------------------------
  // Lookups

  /** The index of the first node of `cs` named `name`. */
  function FirstNamed(cs: seq<Node>, name: string): (r: Option<nat>)
    ensures r.Some? ==> r.value < |cs| && Named(cs[r.value], name)
    ensures r.Some? ==> forall j :: 0 <= j < r.value ==> !Named(cs[j], name)
    ensures r.None? ==> forall j :: 0 <= j < |cs| ==> !Named(cs[j], name)
  {
    if cs == [] then None
    else if Named(cs[0], name) then Some(0)
    else match FirstNamed(cs[1..], name)
      case None => None
      case Some(i) => Some(i + 1)
  }

  /** `find_child`: the first child of `p` whose schema name is `name`. */
  function FindChild(p: Node, name: string): (r: Option<Node>)
    ensures r.Some? <==> exists j :: 0 <= j < |p.children| && Named(p.children[j], name)
    ensures r.Some? ==> r.value == p.children[FirstNamed(p.children, name).value]
  {
    match FirstNamed(p.children, name)
    case None => None
    case Some(i) => Some(p.children[i])
  }

  /** `n = find_child(p, name)` followed by `v = lyd_get_value(n)`: the value
      of the first child so named, none when there is no such child or when
      that child has no value (later children of the same name are not
      consulted). */
  function LeafValue(p: Node, name: string): (r: Option<string>)
    ensures r.Some? ==> FindChild(p, name).Some? && FindChild(p, name).value.value == r
  {
    match FindChild(p, name)
    case None => None
    case Some(c) => c.value
  }

  /** `lyd_find_path(tree, "/module:name")`: the first node among the
      document's top-level siblings `tops` with that name and module. */
  function FindTop(tops: seq<Node>, name: string, mod: string): (r: Option<Node>)
    ensures r.Some? ==> r.value in tops && NamedIn(r.value, name, mod)
    ensures r.None? ==> forall j :: 0 <= j < |tops| ==> !NamedIn(tops[j], name, mod)
  {
    if tops == [] then None
    else if NamedIn(tops[0], name, mod) then Some(tops[0])
    else FindTop(tops[1..], name, mod)
  }

  /** How every codec locates its root: the tree itself when its schema name
      is `name`, otherwise the absolute-path lookup among top-level nodes. */
  function LocateRoot(tree: Node, tops: seq<Node>, name: string, mod: string): (r: Option<Node>)
    ensures Named(tree, name) ==> r == Some(tree)
    ensures !Named(tree, name) ==> r == FindTop(tops, name, mod)
  {
    if Named(tree, name) then Some(tree) else FindTop(tops, name, mod)
  }

  /** How many nodes of `cs` are named `name`. */
  function CountNamed(cs: seq<Node>, name: string): nat
  {
    if cs == [] then 0
    else CountNamed(cs[..|cs| - 1], name) + (if Named(cs[|cs| - 1], name) then 1 else 0)
  }

  /** No node of `cs` is named `name`. */
  predicate NoneNamed(cs: seq<Node>, name: string)
  {
    forall j :: 0 <= j < |cs| ==> !Named(cs[j], name)
  }

  /** The entries named `name` among `cs`, each read by `read`, in document
      order: the child-scan loops of the deserializers. One result per
      entry so named, and every such entry is read. */
  function Collect<T>(cs: seq<Node>, name: string, read: Node -> T): (r: seq<T>)
    ensures |r| == CountNamed(cs, name)
  {
    if cs == [] then []
    else Collect(cs[..|cs| - 1], name, read) + (if Named(cs[|cs| - 1], name) then [read(cs[|cs| - 1])] else [])
  }

  lemma {:induction false} CollectAppend<T>(a: seq<Node>, b: seq<Node>, name: string, read: Node -> T)
    ensures Collect(a + b, name, read) == Collect(a, name, read) + Collect(b, name, read)
    decreases |b|
  {
    if b == [] {
      assert a + b == a;
    } else {
      var b' := b[..|b| - 1];
      assert (a + b)[..|a + b| - 1] == a + b';
      CollectAppend(a, b', name, read);
    }
  }

  /** One more child scanned: its reading is appended when it is so named. */
  lemma CollectSnoc<T>(cs: seq<Node>, i: nat, name: string, read: Node -> T)
    requires i < |cs|
    ensures Collect(cs[..i + 1], name, read)
            == Collect(cs[..i], name, read) + (if Named(cs[i], name) then [read(cs[i])] else [])
  {
    assert cs[..i + 1][..i] == cs[..i];
  }

  /** The present values of `os`, in order: what a scan keeps when it
      skips the entries it cannot read. */
  function Somes<T>(os: seq<Option<T>>): (r: seq<T>)
    ensures |r| <= |os|
  {
    if os == [] then []
    else Somes(os[..|os| - 1]) + (if os[|os| - 1].Some? then [os[|os| - 1].value] else [])
  }

  /** A scan that reads one more entry keeps its value when present. */
  lemma SomesSnoc<T>(os: seq<Option<T>>, o: Option<T>)
    ensures Somes(os + [o]) == Somes(os) + (if o.Some? then [o.value] else [])
  {
    assert (os + [o])[..|os|] == os;
  }

  /** When every value is present, nothing is dropped. */
  lemma {:induction false} SomesOfPresent<T>(os: seq<Option<T>>, xs: seq<T>)
    requires |os| == |xs| && forall k :: 0 <= k < |xs| ==> os[k] == Some(xs[k])
    ensures Somes(os) == xs
    decreases |xs|
  {
    if xs != [] {
      SomesOfPresent(os[..|os| - 1], xs[..|xs| - 1]);
    }
  }

  lemma {:induction false} CollectNone<T>(cs: seq<Node>, name: string, read: Node -> T)
    requires NoneNamed(cs, name)
    ensures Collect(cs, name, read) == []
    decreases |cs|
  {
    if cs != [] {
      CollectNone(cs[..|cs| - 1], name, read);
    }
  }

  // ---------------------------------------------------------------------
  // The write log

  function NodeValue(n: Node): Option<string> { n.value }

  /** The values of a leaf-list's entries, in document order. */
  function LeafListValues(n: Node, name: string): seq<string>
  {
    Somes(Collect(n.children, name, NodeValue))
  }

  /** One pass of a leaf-list scan: the value of child `i`, when it is an
      entry of that leaf-list and has one, is appended. */
  method LeafListStep(cs: seq<Node>, i: nat, name: string, acc: seq<string>) returns (r: seq<string>)
    requires i < |cs| && acc == Somes(Collect(cs[..i], name, NodeValue))
    ensures r == Somes(Collect(cs[..i + 1], name, NodeValue))
  {
    CollectSnoc(cs, i, name, NodeValue);
    r := acc;
    if Named(cs[i], name) {
      SomesSnoc(Collect(cs[..i], name, NodeValue), cs[i].value);
      if cs[i].value.Some? {
        r := acc + [cs[i].value.value];
      }
    } else {
      assert Collect(cs[..i], name, NodeValue) + [] == Collect(cs[..i], name, NodeValue);
    }
  }

  /** A scan that reads every child so named and stops at the first one
      that cannot be read: the reads in document order, or that error. */
  function CollectAll<T>(cs: seq<Node>, name: string, read: Node -> Result<T>): (r: Result<seq<T>>)
    ensures r.Success? ==> |r.value| == CountNamed(cs, name)
    ensures r.Success? <==> forall j :: 0 <= j < |cs| && Named(cs[j], name) ==> read(cs[j]).Success?
  {
    if cs == [] then Success([])
    else
      var init, last := cs[..|cs| - 1], cs[|cs| - 1];
      assert forall j :: 0 <= j < |init| ==> init[j] == cs[j];
      match CollectAll(init, name, read)
      case Failure(e) => Failure(e)
      case Success(xs) =>
        if !Named(last, name) then Success(xs)
        else match read(last)
          case Failure(e) => Failure(e)
          case Success(x) => Success(xs + [x])
  }

  /** One more child of a scan, as a loop reads it. */
  lemma CollectAllSnoc<T>(cs: seq<Node>, i: nat, name: string, read: Node -> Result<T>)
    requires i < |cs|
    ensures CollectAll(cs[..i + 1], name, read) ==
            match CollectAll(cs[..i], name, read)
            case Failure(e) => Failure(e)
            case Success(xs) =>
              if !Named(cs[i], name) then Success(xs)
              else match read(cs[i])
                case Failure(e) => Failure(e)
                case Success(x) => Success(xs + [x])
  {
    assert cs[..i + 1][..i] == cs[..i];
  }

  /** A child so named that cannot be read makes the whole scan fail. */
  lemma CollectAllPrefixFails<T>(cs: seq<Node>, i: nat, name: string, read: Node -> Result<T>)
    requires i <= |cs| && CollectAll(cs[..i], name, read).Failure?
    ensures CollectAll(cs, name, read).Failure?
  {
    var j :| 0 <= j < i && Named(cs[..i][j], name) && read(cs[..i][j]).Failure?;
    assert cs[j] == cs[..i][j];
  }

  lemma CollectAllAppend<T>(cs: seq<Node>, c: Node, name: string, read: Node -> Result<T>, xs: seq<T>, x: T)
    requires CollectAll(cs, name, read) == Success(xs)
    requires Named(c, name) && read(c) == Success(x)
    ensures CollectAll(cs + [c], name, read) == Success(xs + [x])
  {
    assert (cs + [c])[..|cs|] == cs;
  }

  /** A list-key predicate `[name='value']`. */
  datatype Key = Key(name: string, value: string)

  /** One step of a relative path given to `lyd_new_path`; `qualifier` is
      the text before ':' in the step ("" when there is none).
      - `Child` names a container or a leaf: the first child so named is
        reused, otherwise one is created.
      - `Entry` names a list entry by its key predicates: the first entry
        whose key leaves carry those values is reused, otherwise one is
        created together with its key leaves.
      - `NewEntry` names a keyless list entry or a state leaf-list value:
        a new instance is created every time. */
  datatype Step =
    | Child(qualifier: string, name: string)
    | Entry(qualifier: string, name: string, keys: seq<Key>)
    | NewEntry(qualifier: string, name: string)

  /** One call `lyd_new_path(root, ctx, path, value, ...)`. */
  datatype Write = Write(path: seq<Step>, value: Option<string>)

  function KeysText(keys: seq<Key>): string
  {
    if keys == [] then ""
    else "[" + keys[0].name + "='" + keys[0].value + "']" + KeysText(keys[1..])
  }

  function StepText(st: Step): string
  {
    (if st.qualifier == "" then "" else st.qualifier + ":") + st.name
    + (if st.Entry? then KeysText(st.keys) else "")
  }

  /** The path text the source formats for a write, steps joined by '/'. */
  function PathText(path: seq<Step>): string
  {
    if path == [] then ""
    else if |path| == 1 then StepText(path[0])
    else StepText(path[0]) + "/" + PathText(path[1..])
  }

  predicate KeysMatch(c: Node, keys: seq<Key>)
  {
    forall k :: 0 <= k < |keys| ==> LeafValue(c, keys[k].name) == Some(keys[k].value)
  }

  /** Whether an existing node is the one a step designates. */
  predicate Matches(c: Node, st: Step)
  {
    match st
    case Child(_, name) => Named(c, name)
    case Entry(_, name, keys) => Named(c, name) && KeysMatch(c, keys)
    case NewEntry(_, _) => false
  }

  /** The index of the first node of `cs` that `st` designates. */
  function FirstMatch(cs: seq<Node>, st: Step): (r: Option<nat>)
    ensures r.Some? ==> r.value < |cs| && Matches(cs[r.value], st)
    ensures r.Some? ==> forall j :: 0 <= j < r.value ==> !Matches(cs[j], st)
    ensures r.None? ==> forall j :: 0 <= j < |cs| ==> !Matches(cs[j], st)
  {
    if cs == [] then None
    else if Matches(cs[0], st) then Some(0)
    else match FirstMatch(cs[1..], st)
      case None => None
      case Some(i) => Some(i + 1)
  }

  function ModuleOf(n: Node): string
  {
    if n.schema.Some? then n.schema.value.mod else ""
  }

  /** The key leaves a new list entry is created with, in predicate order. */
  function KeyLeaves(keys: seq<Key>, mod: string): (r: seq<Node>)
    ensures |r| == |keys|
    ensures forall k :: 0 <= k < |keys| ==>
              r[k] == Node(Some(Schema(keys[k].name, mod)), Some(keys[k].value), [])
  {
    if keys == [] then [] else [Node(Some(Schema(keys[0].name, mod)), Some(keys[0].value), [])] + KeyLeaves(keys[1..], mod)
  }

  /** The node a step creates under a parent of module `mod`; an
      unqualified step stays in the parent's module. */
  function NewNode(st: Step, mod: string, value: Option<string>): Node
  {
    var m := if st.qualifier == "" then mod else st.qualifier;
    Node(Some(Schema(st.name, m)), value, if st.Entry? then KeyLeaves(st.keys, m) else [])
  }

  /** The interpretation of one write below `n`: the path is walked from
      `n`, reusing the nodes its steps designate and creating the others;
      only a node the write creates at the end of the path receives the
      value, and a write whose final node already exists changes nothing. */
  function Apply(n: Node, path: seq<Step>, v: Option<string>): Node
    decreases |path|
  {
    if path == [] then n
    else
      match FirstMatch(n.children, path[0])
      case Some(i) =>
        if |path| == 1 then n
        else n.(children := n.children[i := Apply(n.children[i], path[1..], v)])
      case None =>
        var c := NewNode(path[0], ModuleOf(n), if |path| == 1 then v else None);
        n.(children := n.children + [Apply(c, path[1..], v)])
  }

  /** The tree a log of writes below `root` builds, in log order. */
  function Build(root: Node, log: seq<Write>): Node
    decreases |log|
  {
    if log == [] then root else Build(Apply(root, log[0].path, log[0].value), log[1..])
  }

  /** The writes of `log`, each one step further down, below `st`. */
  function Under(st: Step, log: seq<Write>): (r: seq<Write>)
    ensures |r| == |log|
    ensures forall k :: 0 <= k < |log| ==> r[k] == Write([st] + log[k].path, log[k].value)
  {
    if log == [] then [] else [Write([st] + log[0].path, log[0].value)] + Under(st, log[1..])
  }

  predicate BelowRoot(log: seq<Write>)
  {
    forall k :: 0 <= k < |log| ==> log[k].path != []
  }

  /** Writes one step further down distribute over a concatenated log. */
  lemma UnderAppend(st: Step, a: seq<Write>, b: seq<Write>)
    ensures Under(st, a + b) == Under(st, a) + Under(st, b)
  {
    var l, r := Under(st, a + b), Under(st, a) + Under(st, b);
    forall k | 0 <= k < |l|
      ensures l[k] == r[k]
    {
      if k < |a| {
        assert (a + b)[k] == a[k];
      } else {
        assert (a + b)[k] == b[k - |a|];
      }
    }
  }

  /** A leaf write `q:name = value` directly below the root. */
  function LeafWrite(q: string, name: string, value: string): Write
  {
    Write([Child(q, name)], Some(value))
  }

  /** The writes `q:name = value` of each field, in order. */
  function LeafWrites(q: string, fields: seq<Key>): (r: seq<Write>)
    ensures |r| == |fields| && BelowRoot(r)
    ensures forall k :: 0 <= k < |fields| ==> r[k] == LeafWrite(q, fields[k].name, fields[k].value)
  {
    if fields == [] then [] else [LeafWrite(q, fields[0].name, fields[0].value)] + LeafWrites(q, fields[1..])
  }

  /** The value of the first field named `name`. */
  function FieldValue(fields: seq<Key>, name: string): (r: Option<string>)
    ensures r.Some? <==> exists k :: 0 <= k < |fields| && fields[k].name == name
  {
    if fields == [] then None
    else if fields[0].name == name then Some(fields[0].value)
    else
      var r := FieldValue(fields[1..], name);
      assert forall k :: 1 <= k < |fields| ==> fields[k] == fields[1..][k - 1];
      r
  }

  /** The first field of a concatenation with a name is found in the first
      part, if it has one. */
  lemma {:induction false} FieldValueAppend(a: seq<Key>, b: seq<Key>, name: string)
    ensures FieldValue(a + b, name) == if FieldValue(a, name).Some? then FieldValue(a, name) else FieldValue(b, name)
    decreases |a|
  {
    if a == [] {
      assert a + b == b;
    } else {
      assert (a + b)[1..] == a[1..] + b;
      FieldValueAppend(a[1..], b, name);
    }
  }

  /** The list entry a keyed write creates and fills: its key leaves and
      then the other leaves, all in the entry's module. */
  function EntryNode(name: string, mod: string, leaves: seq<Key>): Node
  {
    Node(Some(Schema(name, mod)), None, KeyLeaves(leaves, mod))
  }

  /** The leaf a write `LeafWrite(name, value)` creates in a module. */
  function Leaf(name: string, mod: string, value: string): Node
  {
    Node(Some(Schema(name, mod)), Some(value), [])
  }

  /** A run of `lyd_new_path` calls, one per write, on the tree `root` that
      `log` has built from `start` so far. */
  method NewPaths(ghost start: Node, root: Node, ghost log: seq<Write>, ws: seq<Write>) returns (r: Node)
    requires root == Build(start, log)
    ensures r == Build(start, log + ws)
  {
    r := root;
    var k := 0;
    assert log + ws[..0] == log;
    while k < |ws|
      invariant 0 <= k <= |ws|
      invariant r == Build(start, log + ws[..k])
    {
      BuildAppend(start, log + ws[..k], [ws[k]]);
      assert [ws[k]][1..] == [];
      r := Apply(r, ws[k].path, ws[k].value);
      assert log + ws[..k + 1] == (log + ws[..k]) + [ws[k]];
      k := k + 1;
    }
    assert ws[..|ws|] == ws;
  }

  /** Every write in `log` is one that `lyd_new_path` accepts. */
  predicate AllAccepted(log: seq<Write>, accepts: Write -> bool)
  {
    forall k :: 0 <= k < |log| ==> accepts(log[k])
  }

  /** A run of `lyd_new_path` calls that stops at the first write the
      library refuses; `accepts` stands for the library's verdict. */
  method NewPathsChecked(ghost start: Node, root: Node, ghost log: seq<Write>, ws: seq<Write>, accepts: Write -> bool)
    returns (r: Option<Node>)
    requires root == Build(start, log)
    ensures r.Some? <==> AllAccepted(ws, accepts)
    ensures r.Some? ==> r.value == Build(start, log + ws)
  {
    var t := root;
    var k := 0;
    assert log + ws[..0] == log;
    while k < |ws|
      invariant 0 <= k <= |ws|
      invariant forall j :: 0 <= j < k ==> accepts(ws[j])
      invariant t == Build(start, log + ws[..k])
    {
      if !accepts(ws[k]) {
        return None;
      }
      BuildStep(start, log, ws, k);
      t := Apply(t, ws[k].path, ws[k].value);
      k := k + 1;
    }
    assert ws[..|ws|] == ws;
    return Some(t);
  }

  /** One more write of a run, applied to the tree built so far. */
  lemma BuildStep(start: Node, log: seq<Write>, ws: seq<Write>, k: nat)
    requires k < |ws|
    ensures Build(start, log + ws[..k + 1]) == Apply(Build(start, log + ws[..k]), ws[k].path, ws[k].value)
  {
    BuildAppend(start, log + ws[..k], [ws[k]]);
    assert [ws[k]][1..] == [];
    assert log + ws[..k + 1] == (log + ws[..k]) + [ws[k]];
  }

  lemma AllAcceptedAppend(a: seq<Write>, b: seq<Write>, accepts: Write -> bool)
    requires AllAccepted(a, accepts) && AllAccepted(b, accepts)
    ensures AllAccepted(a + b, accepts)
  {
    forall k | |a| <= k < |a + b|
      ensures accepts((a + b)[k])
    {
      assert (a + b)[k] == b[k - |a|];
    }
  }
  // ---------------------------------------------------------------------
  // Facts about the interpretation

  /** Building from a concatenated log is building from the first part and
      then from the second. */
  lemma {:induction false} BuildAppend(root: Node, a: seq<Write>, b: seq<Write>)
    ensures Build(root, a + b) == Build(Build(root, a), b)
    decreases |a|
  {
    if a == [] {
      assert a + b == b;
    } else {
      assert (a + b)[0] == a[0];
      assert (a + b)[1..] == a[1..] + b;
      BuildAppend(Apply(root, a[0].path, a[0].value), a[1..], b);
    }
  }

  /** A write never changes the schema or the value of the node it starts
      from, and never removes or reorders its children. */
  lemma {:induction false} ApplyKeepsNode(n: Node, path: seq<Step>, v: Option<string>)
    ensures Apply(n, path, v).schema == n.schema && Apply(n, path, v).value == n.value
    ensures |Apply(n, path, v).children| >= |n.children|
    ensures forall j :: 0 <= j < |n.children| ==>
              Apply(n, path, v).children[j].schema == n.children[j].schema
              && Apply(n, path, v).children[j].value == n.children[j].value
  {
  }

  /** A write keeps every leaf value a lookup already finds. */
  lemma ApplyKeepsLeafValue(n: Node, path: seq<Step>, v: Option<string>, name: string)
    requires FirstNamed(n.children, name).Some?
    ensures LeafValue(Apply(n, path, v), name) == LeafValue(n, name)
  {
    ApplyKeepsNode(n, path, v);
    var i := FirstNamed(n.children, name).value;
    var m := Apply(n, path, v);
    assert forall j :: 0 <= j <= i ==> (Named(m.children[j], name) <==> Named(n.children[j], name));
    assert FirstNamed(m.children, name) == Some(i) by {
      FirstNamedIs(m.children, name, i);
    }
  }

  /** The first-match index is the one the first-match properties name. */
  lemma {:induction false} FirstNamedIs(cs: seq<Node>, name: string, i: nat)
    requires i < |cs| && Named(cs[i], name)
    requires forall j :: 0 <= j < i ==> !Named(cs[j], name)
    ensures FirstNamed(cs, name) == Some(i)
    decreases i
  {
    if i > 0 {
      FirstNamedIs(cs[1..], name, i - 1);
    }
  }

  lemma {:induction false} FirstMatchIs(cs: seq<Node>, st: Step, i: nat)
    requires i < |cs| && Matches(cs[i], st)
    requires forall j :: 0 <= j < i ==> !Matches(cs[j], st)
    ensures FirstMatch(cs, st) == Some(i)
    decreases i
  {
    if i > 0 {
      FirstMatchIs(cs[1..], st, i - 1);
    }
  }

  /** A node a step designates is still designated after a write below it. */
  lemma ApplyKeepsMatch(c: Node, st: Step, path: seq<Step>, v: Option<string>)
    requires Matches(c, st)
    ensures Matches(Apply(c, path, v), st)
  {
    ApplyKeepsNode(c, path, v);
    if st.Entry? {
      forall k | 0 <= k < |st.keys|
        ensures LeafValue(Apply(c, path, v), st.keys[k].name) == Some(st.keys[k].value)
      {
        ApplyKeepsLeafValue(c, path, v, st.keys[k].name);
      }
    }
  }

  /** Key names of a predicate are distinct, as YANG list keys are. */
  predicate DistinctKeyNames(keys: seq<Key>)
  {
    forall a, b :: 0 <= a < b < |keys| ==> keys[a].name != keys[b].name
  }

  /** Names distinct within each part and across the parts are distinct in
      the concatenation. */
  lemma DistinctKeyNamesAppend(a: seq<Key>, b: seq<Key>)
    requires DistinctKeyNames(a) && DistinctKeyNames(b)
    requires forall i, j :: 0 <= i < |a| && 0 <= j < |b| ==> a[i].name != b[j].name
    ensures DistinctKeyNames(a + b)
  {
    var ab := a + b;
    forall i, j | 0 <= i < j < |ab|
      ensures ab[i].name != ab[j].name
    {
      if j < |a| {
        assert ab[i] == a[i] && ab[j] == a[j];
      } else if i < |a| {
        assert ab[i] == a[i] && ab[j] == b[j - |a|];
      } else {
        assert ab[i] == b[i - |a|] && ab[j] == b[j - |a|];
      }
    }
  }

  /** A created list entry carries its key leaves, so its step designates it. */
  lemma NewNodeMatches(st: Step, mod: string, value: Option<string>)
    requires !st.NewEntry?
    requires st.Entry? ==> DistinctKeyNames(st.keys)
    ensures Matches(NewNode(st, mod, value), st)
  {
    if st.Entry? {
      var c := NewNode(st, mod, value);
      forall k | 0 <= k < |st.keys|
        ensures LeafValue(c, st.keys[k].name) == Some(st.keys[k].value)
      {
        FirstNamedIs(c.children, st.keys[k].name, k);
      }
    }
  }

  /** Writes below an existing node that a step designates first are writes
      into that node, which keeps its place. */
  lemma {:induction false} BuildUnderExisting(n: Node, st: Step, log: seq<Write>, i: nat)
    requires BelowRoot(log)
    requires FirstMatch(n.children, st) == Some(i)
    ensures i < |n.children|
    ensures Build(n, Under(st, log)) == n.(children := n.children[i := Build(n.children[i], log)])
    decreases |log|
  {
    if log != [] {
      var w := log[0];
      var c' := Apply(n.children[i], w.path, w.value);
      var n' := n.(children := n.children[i := c']);
      assert ([st] + w.path)[1..] == w.path;
      assert Apply(n, [st] + w.path, w.value) == n';
      ApplyKeepsMatch(n.children[i], st, w.path, w.value);
      FirstMatchIs(n'.children, st, i);
      assert Under(st, log)[1..] == Under(st, log[1..]);
      BuildUnderExisting(n', st, log[1..], i);
      assert n'.children[i := Build(c', log[1..])] == n.children[i := Build(c', log[1..])];
    }
  }

  /** Writes below a step that designates no node yet create that node once,
      at the end of the children, and then write into it. */
  lemma BuildUnderNew(n: Node, st: Step, log: seq<Write>)
    requires log != [] && BelowRoot(log)
    requires FirstMatch(n.children, st).None?
    requires !st.NewEntry?
    requires st.Entry? ==> DistinctKeyNames(st.keys)
    ensures Build(n, Under(st, log))
            == n.(children := n.children + [Build(NewNode(st, ModuleOf(n), None), log)])
  {
    var w := log[0];
    var c := NewNode(st, ModuleOf(n), None);
    var c' := Apply(c, w.path, w.value);
    var n' := n.(children := n.children + [c']);
    assert ([st] + w.path)[1..] == w.path;
    assert Apply(n, [st] + w.path, w.value) == n';
    NewNodeMatches(st, ModuleOf(n), None);
    ApplyKeepsMatch(c, st, w.path, w.value);
    FirstMatchIs(n'.children, st, |n.children|);
    assert Under(st, log)[1..] == Under(st, log[1..]);
    BuildUnderExisting(n', st, log[1..], |n.children|);
  }

  /** Reading a leaf that follows children of other names. */
  lemma LeafValueAfter(s: Option<Schema>, v: Option<string>, before: seq<Node>, leaf: Node, name: string)
    requires NoneNamed(before, name) && Named(leaf, name)
    ensures LeafValue(Node(s, v, before + [leaf]), name) == leaf.value
  {
    FirstNamedIs(before + [leaf], name, |before|);
  }

  /** No child so named, no value. */
  lemma LeafValueNone(n: Node, name: string)
    requires NoneNamed(n.children, name)
    ensures LeafValue(n, name).None? && FindChild(n, name).None?
  {
  }

  /** A leaf write directly below a node without a child of that name
      appends the leaf. */
  lemma LeafWriteAppends(n: Node, q: string, name: string, value: string)
    requires FirstNamed(n.children, name).None?
    ensures Build(n, [LeafWrite(q, name, value)])
            == n.(children := n.children + [Leaf(name, if q == "" then ModuleOf(n) else q, value)])
  {
    assert FirstMatch(n.children, Child(q, name)).None?;
    var w := LeafWrite(q, name, value);
    assert w.path[1..] == [];
    assert Build(n, [w]) == Apply(n, w.path, w.value);
  }

  /** A leaf write to a name that already has a child changes nothing. */
  lemma LeafWriteExisting(n: Node, q: string, name: string, value: string)
    requires FirstNamed(n.children, name).Some?
    ensures Build(n, [LeafWrite(q, name, value)]) == n
  {
    FirstMatchIs(n.children, Child(q, name), FirstNamed(n.children, name).value);
    var w := LeafWrite(q, name, value);
    assert Build(n, [w]) == Apply(n, w.path, w.value);
  }

  lemma {:induction false} LeafWritesExisting(n: Node, q: string, fields: seq<Key>)
    requires forall k :: 0 <= k < |fields| ==> FirstNamed(n.children, fields[k].name).Some?
    ensures Build(n, LeafWrites(q, fields)) == n
    decreases |fields|
  {
    if fields != [] {
      var f := fields[0];
      assert LeafWrites(q, fields) == [LeafWrite(q, f.name, f.value)] + LeafWrites(q, fields[1..]);
      BuildAppend(n, [LeafWrite(q, f.name, f.value)], LeafWrites(q, fields[1..]));
      LeafWriteExisting(n, q, f.name, f.value);
      LeafWritesExisting(n, q, fields[1..]);
    }
  }

  /** The first of a run of leaf writes, to a name not present, appends
      its leaf; the rest of the run continues from there. */
  lemma LeafWritesFirst(n: Node, q: string, fields: seq<Key>)
    requires fields != [] && (q == "" || q == ModuleOf(n))
    requires NoneNamed(n.children, fields[0].name)
    ensures Build(n, LeafWrites(q, fields))
            == Build(n.(children := n.children + [Leaf(fields[0].name, ModuleOf(n), fields[0].value)]),
                     LeafWrites(q, fields[1..]))
  {
    var f := fields[0];
    var w := LeafWrite(q, f.name, f.value);
    assert LeafWrites(q, fields) == [w] + LeafWrites(q, fields[1..]);
    BuildAppend(n, [w], LeafWrites(q, fields[1..]));
    LeafWriteAppends(n, q, f.name, f.value);
  }

  lemma AppendAssoc<T>(a: seq<T>, b: seq<T>, c: seq<T>)
    ensures (a + b) + c == a + (b + c)
  {
  }

  lemma NoneNamedAfterLeaf(n: Node, fields: seq<Key>)
    requires fields != [] && DistinctKeyNames(fields)
    requires forall k :: 0 <= k < |fields| ==> NoneNamed(n.children, fields[k].name)
    ensures var n1 := n.(children := n.children + [Leaf(fields[0].name, ModuleOf(n), fields[0].value)]);
            var rest := fields[1..];
            DistinctKeyNames(rest) && forall k :: 0 <= k < |rest| ==> NoneNamed(n1.children, rest[k].name)
  {
    var n1 := n.(children := n.children + [Leaf(fields[0].name, ModuleOf(n), fields[0].value)]);
    var rest := fields[1..];
    forall k | 0 <= k < |rest|
      ensures NoneNamed(n1.children, rest[k].name)
    {
      assert rest[k] == fields[k + 1];
    }
  }

  /** Leaf writes of distinct names none of which is present append one
      leaf per field, in order. */
  lemma {:induction false} BuildLeafWrites(n: Node, q: string, fields: seq<Key>)
    requires q == "" || q == ModuleOf(n)
    requires DistinctKeyNames(fields)
    requires forall k :: 0 <= k < |fields| ==> NoneNamed(n.children, fields[k].name)
    ensures Build(n, LeafWrites(q, fields)) == n.(children := n.children + KeyLeaves(fields, ModuleOf(n)))
    decreases |fields|
  {
    if fields == [] {
      assert n.children + [] == n.children;
    } else {
      var rest, mod := fields[1..], ModuleOf(n);
      var leaf := Leaf(fields[0].name, mod, fields[0].value);
      var n1 := n.(children := n.children + [leaf]);
      LeafWritesFirst(n, q, fields);
      NoneNamedAfterLeaf(n, fields);
      BuildLeafWrites(n1, q, rest);
      assert KeyLeaves(fields, mod) == [leaf] + KeyLeaves(rest, mod);
      AppendAssoc(n.children, [leaf], KeyLeaves(rest, mod));
    }
  }

  /** Distinct names stay distinct in each part of a concatenation, and
      no name of the second part is one of the first. */
  lemma DistinctKeyNamesSplit(keys: seq<Key>, fields: seq<Key>)
    requires DistinctKeyNames(keys + fields)
    ensures DistinctKeyNames(keys) && DistinctKeyNames(fields)
    ensures forall j, k :: 0 <= j < |keys| && 0 <= k < |fields| ==> keys[j].name != fields[k].name
  {
    var kf := keys + fields;
    assert forall j :: 0 <= j < |keys| ==> kf[j] == keys[j];
    assert forall k :: 0 <= k < |fields| ==> kf[|keys| + k] == fields[k];
  }

  lemma KeyLeavesAppend(a: seq<Key>, b: seq<Key>, mod: string)
    ensures KeyLeaves(a + b, mod) == KeyLeaves(a, mod) + KeyLeaves(b, mod)
  {
    var l, r := KeyLeaves(a + b, mod), KeyLeaves(a, mod) + KeyLeaves(b, mod);
    forall k | 0 <= k < |l|
      ensures l[k] == r[k]
    {
      if k < |a| {
        assert (a + b)[k] == a[k];
      } else {
        assert (a + b)[k] == b[k - |a|];
      }
    }
  }

  /** Inside a freshly created entry, the writes of its key leaves change
      nothing and the writes of its other leaves append them. */
  lemma FillEntry(c: Node, q: string, keys: seq<Key>, fields: seq<Key>, more: seq<Write>)
    requires q == "" || q == ModuleOf(c)
    requires c.children == KeyLeaves(keys, ModuleOf(c))
    requires DistinctKeyNames(keys + fields)
    ensures Build(c, LeafWrites(q, keys) + LeafWrites(q, fields) + more)
            == Build(c.(children := KeyLeaves(keys + fields, ModuleOf(c))), more)
  {
    var m := ModuleOf(c);
    var wk, wf := LeafWrites(q, keys), LeafWrites(q, fields);
    DistinctKeyNamesSplit(keys, fields);
    BuildAppend(c, wk + wf, more);
    BuildAppend(c, wk, wf);
    FillKeys(c, q, keys);
    NoFieldPresent(c, keys, fields);
    BuildLeafWrites(c, q, fields);
    KeyLeavesAppend(keys, fields, m);
  }

  lemma FillKeys(c: Node, q: string, keys: seq<Key>)
    requires c.children == KeyLeaves(keys, ModuleOf(c))
    ensures Build(c, LeafWrites(q, keys)) == c
  {
    forall k | 0 <= k < |keys|
      ensures FirstNamed(c.children, keys[k].name).Some?
    {
      assert Named(c.children[k], keys[k].name);
    }
    LeafWritesExisting(c, q, keys);
  }

  lemma NoFieldPresent(c: Node, keys: seq<Key>, fields: seq<Key>)
    requires c.children == KeyLeaves(keys, ModuleOf(c))
    requires forall j, k :: 0 <= j < |keys| && 0 <= k < |fields| ==> keys[j].name != fields[k].name
    ensures forall k :: 0 <= k < |fields| ==> NoneNamed(c.children, fields[k].name)
  {
  }

  /** The keyed write pattern of every serializer: below a list entry that
      does not exist yet, write its key leaves, then other leaves of
      distinct names, then `more`. The entry is created once, at the end of
      the children, with its key leaves and the other leaves in order, and
      `more` is written into it. */
  lemma BuildEntry(n: Node, q: string, name: string, keys: seq<Key>, fields: seq<Key>, more: seq<Write>)
    requires keys != [] && BelowRoot(more)
    requires DistinctKeyNames(keys + fields)
    requires FirstMatch(n.children, Entry(q, name, keys)).None?
    ensures var m := if q == "" then ModuleOf(n) else q;
            Build(n, Under(Entry(q, name, keys), LeafWrites(q, keys) + LeafWrites(q, fields) + more))
            == n.(children := n.children + [Build(EntryNode(name, m, keys + fields), more)])
  {
    var st := Entry(q, name, keys);
    var inner := LeafWrites(q, keys) + LeafWrites(q, fields) + more;
    DistinctKeyNamesSplit(keys, fields);
    BelowRootAppend(LeafWrites(q, keys), LeafWrites(q, fields), more);
    BuildUnderNew(n, st, inner);
    FillEntry(NewNode(st, ModuleOf(n), None), q, keys, fields, more);
  }

  lemma BelowRootConcat(a: seq<Write>, b: seq<Write>)
    requires BelowRoot(a) && BelowRoot(b)
    ensures BelowRoot(a + b)
  {
    var ab := a + b;
    forall k | 0 <= k < |ab|
      ensures ab[k].path != []
    {
      if k >= |a| {
        assert ab[k] == b[k - |a|];
      }
    }
  }

  lemma BelowRootAppend(a: seq<Write>, b: seq<Write>, c: seq<Write>)
    requires a != [] && BelowRoot(a) && BelowRoot(b) && BelowRoot(c)
    ensures a + b + c != [] && BelowRoot(a + b + c)
  {
    var abc := a + b + c;
    forall k | 0 <= k < |abc|
      ensures abc[k].path != []
    {
      if k < |a| {
        assert abc[k] == a[k];
      } else if k < |a| + |b| {
        assert abc[k] == b[k - |a|];
      } else {
        assert abc[k] == c[k - |a| - |b|];
      }
    }
  }

  /** Reading a leaf of a node whose first children are the leaves of
      `fields`: the first field so named, provided no later child is. */
  lemma {:induction false} LeafValueOfFields(s: Option<Schema>, v: Option<string>, fields: seq<Key>, m: string, rest: seq<Node>, name: string)
    requires NoneNamed(rest, name)
    ensures LeafValue(Node(s, v, KeyLeaves(fields, m) + rest), name) == FieldValue(fields, name)
    decreases |fields|
  {
    var cs := KeyLeaves(fields, m) + rest;
    if fields == [] {
      assert cs == rest;
    } else {
      var tail := KeyLeaves(fields[1..], m) + rest;
      assert cs[1..] == tail;
      if fields[0].name == name {
        FirstNamedIs(cs, name, 0);
      } else {
        LeafValueOfFields(s, v, fields[1..], m, rest, name);
      }
    }
  }
}
