// The one pattern every serializer repeats for a YANG list: for each element
// of a vector, in order, a keyed entry `name[k1='v1']...` is written below the
// container, first its key leaves, then its other leaves, then whatever lies
// deeper. This module states once what tree such a run of writes builds and
// what a child scan reads back from it.
module Entries {
  import opened Wrappers
  import opened YangTree

  /** How the elements of one vector are laid out as list entries: the
      qualifier and name of the list, each element's key predicates, the
      other leaves written for it, and the writes below it that are not
      plain leaves. */
  datatype Layout<!T> = Layout(
    q: string,
    name: string,
    keys: T -> seq<Key>,
    fields: T -> seq<Key>,
    more: T -> seq<Write>)

  function KeyNames(keys: seq<Key>): (r: seq<string>)
    ensures |r| == |keys|
    ensures forall k :: 0 <= k < |keys| ==> r[k] == keys[k].name
  {
    if keys == [] then [] else [keys[0].name] + KeyNames(keys[1..])
  }

  /** The deeper writes of an element that has none. */
  function NoDeeperWrites<T>(x: T): seq<Write>
  {
    []
  }

  /** The writes for one element. */
  function EntryWrites<T>(x: T, lay: Layout<T>): seq<Write>
  {
    Under(Entry(lay.q, lay.name, lay.keys(x)),
          LeafWrites(lay.q, lay.keys(x)) + LeafWrites(lay.q, lay.fields(x)) + lay.more(x))
  }

  /** The writes for a vector, element by element. */
  function EntriesLog<T>(xs: seq<T>, lay: Layout<T>): seq<Write>
  {
    if xs == [] then [] else EntriesLog(xs[..|xs| - 1], lay) + EntryWrites(xs[|xs| - 1], lay)
  }

  /** The writes for the first `i` elements start the writes for all. */
  lemma {:induction false} EntriesLogPrefix<T>(xs: seq<T>, i: nat, lay: Layout<T>)
    requires i <= |xs|
    ensures EntriesLog(xs[..i], lay) <= EntriesLog(xs, lay)
    decreases |xs|
  {
    if i == |xs| {
      assert xs[..i] == xs;
    } else {
      var init := xs[..|xs| - 1];
      EntriesLogPrefix(init, i, lay);
      assert init[..i] == xs[..i];
    }
  }

  /** Every write of a vector's entries lies below the container. */
  lemma {:induction false} EntriesLogBelowRoot<T>(xs: seq<T>, lay: Layout<T>)
    ensures BelowRoot(EntriesLog(xs, lay))
    decreases |xs|
  {
    if xs != [] {
      EntriesLogBelowRoot(xs[..|xs| - 1], lay);
      BelowRootConcat(EntriesLog(xs[..|xs| - 1], lay), EntryWrites(xs[|xs| - 1], lay));
    }
  }

  /** The entry one element becomes in a module `mod`. */
  function FilledEntry<T>(x: T, mod: string, lay: Layout<T>): Node
  {
    Build(EntryNode(lay.name, mod, lay.keys(x) + lay.fields(x)), lay.more(x))
  }

  function EntryNodes<T>(xs: seq<T>, mod: string, lay: Layout<T>): (r: seq<Node>)
    ensures |r| == |xs|
    ensures forall k :: 0 <= k < |xs| ==> r[k] == FilledEntry(xs[k], mod, lay)
  {
    if xs == [] then []
    else
      var r := EntryNodes(xs[..|xs| - 1], mod, lay);
      assert forall k :: 0 <= k < |xs| - 1 ==> xs[..|xs| - 1][k] == xs[k];
      r + [FilledEntry(xs[|xs| - 1], mod, lay)]
  }

  /** `f` applied to every element, in order. */
  function Map<T, U>(xs: seq<T>, f: T -> U): (r: seq<U>)
    ensures |r| == |xs|
    ensures forall k :: 0 <= k < |xs| ==> r[k] == f(xs[k])
  {
    if xs == [] then []
    else
      var r := Map(xs[..|xs| - 1], f);
      assert forall k :: 0 <= k < |xs| - 1 ==> xs[..|xs| - 1][k] == xs[k];
      r + [f(xs[|xs| - 1])]
  }

  /** Every element has key predicates with the names `keyNames`, distinct
      from each other and from its other leaves, and its deeper writes are
      below the entry. */
  predicate WellLaidOut<T>(xs: seq<T>, lay: Layout<T>, keyNames: seq<string>)
  {
    forall k :: 0 <= k < |xs| ==>
      && KeyNames(lay.keys(xs[k])) == keyNames
      && DistinctKeyNames(lay.keys(xs[k]) + lay.fields(xs[k]))
      && BelowRoot(lay.more(xs[k]))
  }

  /** No two elements have the same key values. */
  predicate DistinctKeys<T>(xs: seq<T>, lay: Layout<T>)
  {
    forall i, j :: 0 <= i < j < |xs| ==> lay.keys(xs[i]) != lay.keys(xs[j])
  }

  // ---------------------------------------------------------------------
  // What the writes build

  /** Writes below a node never change the value a leaf lookup finds. */
  lemma {:induction false} BuildKeepsLeafValue(n: Node, log: seq<Write>, name: string)
    requires FirstNamed(n.children, name).Some?
    ensures LeafValue(Build(n, log), name) == LeafValue(n, name)
    ensures Build(n, log).schema == n.schema
    decreases |log|
  {
    if log != [] {
      var n' := Apply(n, log[0].path, log[0].value);
      ApplyKeepsLeafValue(n, log[0].path, log[0].value, name);
      ApplyKeepsNode(n, log[0].path, log[0].value);
      var i := FirstNamed(n.children, name).value;
      assert Named(n'.children[i], name);
      BuildKeepsLeafValue(n', log[1..], name);
    }
  }

  /** The `k`-th key leaf of a filled entry holds the `k`-th key value. */
  lemma FilledEntryKey<T>(x: T, mod: string, lay: Layout<T>, k: nat)
    requires k < |lay.keys(x)|
    requires DistinctKeyNames(lay.keys(x) + lay.fields(x))
    ensures LeafValue(FilledEntry(x, mod, lay), lay.keys(x)[k].name) == Some(lay.keys(x)[k].value)
    ensures FilledEntry(x, mod, lay).schema == Some(Schema(lay.name, mod))
  {
    var leaves := lay.keys(x) + lay.fields(x);
    var e := EntryNode(lay.name, mod, leaves);
    assert leaves[k] == lay.keys(x)[k];
    assert Named(e.children[k], leaves[k].name);
    BuildKeepsLeafValue(e, lay.more(x), leaves[k].name);
    assert e.children == KeyLeaves(leaves, mod) + [];
    LeafValueOfFields(e.schema, e.value, leaves, mod, [], leaves[k].name);
    FieldValueOfDistinct(leaves, k);
  }

  lemma {:induction false} FieldValueOfDistinct(fields: seq<Key>, k: nat)
    requires k < |fields| && DistinctKeyNames(fields)
    ensures FieldValue(fields, fields[k].name) == Some(fields[k].value)
    decreases k
  {
    if k > 0 {
      assert fields[1..][k - 1] == fields[k];
      FieldValueOfDistinct(fields[1..], k - 1);
    }
  }

  /** An entry of an element is designated only by that element's own key
      values, among key predicates with the same names. */
  lemma EntryMatchesOnlyItsKeys<T>(y: T, x: T, mod: string, lay: Layout<T>)
    requires KeyNames(lay.keys(x)) == KeyNames(lay.keys(y))
    requires DistinctKeyNames(lay.keys(y) + lay.fields(y))
    ensures Matches(FilledEntry(y, mod, lay), Entry(lay.q, lay.name, lay.keys(x))) ==> lay.keys(x) == lay.keys(y)
  {
    var kx, ky := lay.keys(x), lay.keys(y);
    if Matches(FilledEntry(y, mod, lay), Entry(lay.q, lay.name, kx)) {
      forall k | 0 <= k < |kx|
        ensures kx[k] == ky[k]
      {
        assert KeyNames(kx)[k] == KeyNames(ky)[k];
        FilledEntryKey(y, mod, lay, k);
      }
    }
  }

  lemma EarlierEntriesNotMatched<T>(xs: seq<T>, mod: string, lay: Layout<T>, keyNames: seq<string>)
    requires xs != [] && WellLaidOut(xs, lay, keyNames) && DistinctKeys(xs, lay)
    ensures forall j :: 0 <= j < |xs| - 1 ==>
              !Matches(FilledEntry(xs[j], mod, lay), Entry(lay.q, lay.name, lay.keys(xs[|xs| - 1])))
  {
    forall j | 0 <= j < |xs| - 1
      ensures !Matches(FilledEntry(xs[j], mod, lay), Entry(lay.q, lay.name, lay.keys(xs[|xs| - 1])))
    {
      EntryMatchesOnlyItsKeys(xs[j], xs[|xs| - 1], mod, lay);
    }
  }

  lemma FirstEntryWriteIsNew<T>(n: Node, xs: seq<T>, mod: string, lay: Layout<T>, keyNames: seq<string>)
    requires xs != [] && WellLaidOut(xs, lay, keyNames) && DistinctKeys(xs, lay)
    requires NoneNamed(n.children, lay.name)
    ensures var x := xs[|xs| - 1];
            FirstMatch(n.children + EntryNodes(xs[..|xs| - 1], mod, lay), Entry(lay.q, lay.name, lay.keys(x))).None?
  {
    var st := Entry(lay.q, lay.name, lay.keys(xs[|xs| - 1]));
    var es := EntryNodes(xs[..|xs| - 1], mod, lay);
    EarlierEntriesNotMatched(xs, mod, lay, keyNames);
    assert forall j :: 0 <= j < |es| ==> es[j] == FilledEntry(xs[j], mod, lay);
    NoMatchAppend(n.children, es, st);
  }

  lemma NoMatchAppend(a: seq<Node>, b: seq<Node>, st: Step)
    requires forall j :: 0 <= j < |a| ==> !Matches(a[j], st)
    requires forall j :: 0 <= j < |b| ==> !Matches(b[j], st)
    ensures FirstMatch(a + b, st).None?
  {
    var ab := a + b;
    forall j | 0 <= j < |ab|
      ensures !Matches(ab[j], st)
    {
      if j >= |a| {
        assert ab[j] == b[j - |a|];
      }
    }
  }

  /** The writes for a vector whose key values are distinct, below a node
      with no entry of that list yet, append one filled entry per element,
      in vector order. */
  lemma {:induction false} BuildEntries<T>(n: Node, xs: seq<T>, lay: Layout<T>, keyNames: seq<string>)
    requires keyNames != [] && WellLaidOut(xs, lay, keyNames) && DistinctKeys(xs, lay)
    requires NoneNamed(n.children, lay.name)
    ensures Build(n, EntriesLog(xs, lay))
            == n.(children := n.children + EntryNodes(xs, if lay.q == "" then ModuleOf(n) else lay.q, lay))
    decreases |xs|
  {
    var mod := if lay.q == "" then ModuleOf(n) else lay.q;
    if xs == [] {
      assert n.children + [] == n.children;
    } else {
      var init, x := xs[..|xs| - 1], xs[|xs| - 1];
      assert WellLaidOut(init, lay, keyNames) && DistinctKeys(init, lay) by {
        assert forall k :: 0 <= k < |init| ==> init[k] == xs[k];
      }
      BuildAppend(n, EntriesLog(init, lay), EntryWrites(x, lay));
      BuildEntries(n, init, lay, keyNames);
      var n' := n.(children := n.children + EntryNodes(init, mod, lay));
      FirstEntryWriteIsNew(n, xs, mod, lay, keyNames);
      assert lay.keys(x) != [] by {
        assert |KeyNames(lay.keys(x))| == |keyNames|;
      }
      BuildEntry(n', lay.q, lay.name, lay.keys(x), lay.fields(x), lay.more(x));
      AppendAssoc(n.children, EntryNodes(init, mod, lay), [FilledEntry(x, mod, lay)]);
    }
  }

  lemma NoneNamedAppend(a: seq<Node>, b: seq<Node>, name: string)
    requires NoneNamed(a, name) && NoneNamed(b, name)
    ensures NoneNamed(a + b, name)
  {
    var ab := a + b;
    forall j | 0 <= j < |ab|
      ensures !Named(ab[j], name)
    {
      if j >= |a| {
        assert ab[j] == b[j - |a|];
      }
    }
  }

  /** A container's serializer: its own leaves (distinct names, none
      present yet), then the entries of one list, below a node that has
      none of them; the leaves come first among the new children, then one
      filled entry per element. */
  lemma BuildHeadAndEntries<T>(n: Node, q: string, head: seq<Key>, xs: seq<T>, lay: Layout<T>, keyNames: seq<string>)
    requires q == "" || q == ModuleOf(n)
    requires DistinctKeyNames(head)
    requires forall k :: 0 <= k < |head| ==> NoneNamed(n.children, head[k].name) && head[k].name != lay.name
    requires keyNames != [] && WellLaidOut(xs, lay, keyNames) && DistinctKeys(xs, lay)
    requires NoneNamed(n.children, lay.name)
    ensures Build(n, LeafWrites(q, head) + EntriesLog(xs, lay))
            == n.(children := n.children + KeyLeaves(head, ModuleOf(n))
                              + EntryNodes(xs, if lay.q == "" then ModuleOf(n) else lay.q, lay))
  {
    var hs := KeyLeaves(head, ModuleOf(n));
    var n1 := n.(children := n.children + hs);
    assert Build(n, LeafWrites(q, head) + EntriesLog(xs, lay)) == Build(n1, EntriesLog(xs, lay)) by {
      BuildAppend(n, LeafWrites(q, head), EntriesLog(xs, lay));
      BuildLeafWrites(n, q, head);
    }
    assert NoneNamed(n1.children, lay.name) by {
      NoneNamedAppend(n.children, hs, lay.name);
    }
    BuildEntries(n1, xs, lay, keyNames);
  }

  /** The serializer loop over a vector: the writes of each element in
      turn, on the tree built so far. */
  method WriteEntries<T>(ghost start: Node, root: Node, ghost log: seq<Write>, xs: seq<T>, lay: Layout<T>)
    returns (r: Node)
    requires root == Build(start, log)
    ensures r == Build(start, log + EntriesLog(xs, lay))
  {
    r := root;
    ghost var done := log;
    var i := 0;
    assert log + EntriesLog(xs[..0], lay) == log;
    while i < |xs|
      invariant 0 <= i <= |xs|
      invariant done == log + EntriesLog(xs[..i], lay)
      invariant r == Build(start, done)
    {
      var ws := EntryWrites(xs[i], lay);
      r := NewPaths(start, r, done, ws);
      assert xs[..i + 1][..i] == xs[..i];
      AppendAssoc(log, EntriesLog(xs[..i], lay), ws);
      done := done + ws;
      i := i + 1;
    }
    assert xs[..i] == xs;
  }

  /** The same loop for a vector whose entries sit in a container below
      the root: every path starts with the step `st`. */
  method WriteEntriesUnder<T>(ghost start: Node, root: Node, ghost log: seq<Write>, st: Step, xs: seq<T>, lay: Layout<T>)
    returns (r: Node)
    requires root == Build(start, log)
    ensures r == Build(start, log + Under(st, EntriesLog(xs, lay)))
  {
    r := root;
    ghost var done := log;
    var i := 0;
    assert log + Under(st, EntriesLog(xs[..0], lay)) == log;
    while i < |xs|
      invariant 0 <= i <= |xs|
      invariant done == log + Under(st, EntriesLog(xs[..i], lay))
      invariant r == Build(start, done)
    {
      var ws := Under(st, EntryWrites(xs[i], lay));
      r := NewPaths(start, r, done, ws);
      assert xs[..i + 1][..i] == xs[..i];
      UnderAppend(st, EntriesLog(xs[..i], lay), EntryWrites(xs[i], lay));
      AppendAssoc(log, Under(st, EntriesLog(xs[..i], lay)), ws);
      done := done + ws;
      i := i + 1;
    }
    assert xs[..i] == xs;
  }

  // ---------------------------------------------------------------------
  // What a child scan reads back

  lemma EntryNodesNamed<T>(xs: seq<T>, mod: string, lay: Layout<T>, other: string)
    requires other != lay.name
    ensures NoneNamed(EntryNodes(xs, mod, lay), other)
  {
    forall k | 0 <= k < |xs|
      ensures !Named(EntryNodes(xs, mod, lay)[k], other)
    {
      BuildKeepsSchema(EntryNode(lay.name, mod, lay.keys(xs[k]) + lay.fields(xs[k])), lay.more(xs[k]));
    }
  }

  lemma {:induction false} BuildKeepsSchema(n: Node, log: seq<Write>)
    ensures Build(n, log).schema == n.schema
    decreases |log|
  {
    if log != [] {
      ApplyKeepsNode(n, log[0].path, log[0].value);
      BuildKeepsSchema(Apply(n, log[0].path, log[0].value), log[1..]);
    }
  }

  /** Scanning the entries of a vector reads one value per element, in
      order, namely what `read` makes of that element's entry. */
  lemma {:induction false} CollectEntries<T, U>(xs: seq<T>, mod: string, lay: Layout<T>, read: Node -> U, written: T -> U)
    requires forall k :: 0 <= k < |xs| ==> read(FilledEntry(xs[k], mod, lay)) == written(xs[k])
    ensures Collect(EntryNodes(xs, mod, lay), lay.name, read) == Map(xs, written)
    decreases |xs|
  {
    if xs != [] {
      var init, x := xs[..|xs| - 1], xs[|xs| - 1];
      var es := EntryNodes(xs, mod, lay);
      assert es[..|es| - 1] == EntryNodes(init, mod, lay);
      BuildKeepsSchema(EntryNode(lay.name, mod, lay.keys(x) + lay.fields(x)), lay.more(x));
      assert forall k :: 0 <= k < |init| ==> init[k] == xs[k];
      CollectEntries(init, mod, lay, read, written);
    }
  }

  /** Entries with keys write something exactly when there are entries. */
  lemma {:induction false} EntriesLogEmpty<T>(xs: seq<T>, lay: Layout<T>)
    requires forall k :: 0 <= k < |xs| ==> lay.keys(xs[k]) != []
    ensures EntriesLog(xs, lay) == [] <==> xs == []
  {
    if xs != [] {
      var x := xs[|xs| - 1];
      assert |LeafWrites(lay.q, lay.keys(x))| > 0;
      assert |EntryWrites(x, lay)| > 0;
    }
  }

  /** Reading back entries that each read as written. */
  lemma {:induction false} CollectAllEntries<T, U>(xs: seq<T>, mod: string, lay: Layout<T>, read: Node -> Result<U>, written: T -> U)
    requires forall k :: 0 <= k < |xs| ==> read(FilledEntry(xs[k], mod, lay)) == Success(written(xs[k]))
    ensures CollectAll(EntryNodes(xs, mod, lay), lay.name, read) == Success(Map(xs, written))
    decreases |xs|
  {
    if xs != [] {
      var init, x := xs[..|xs| - 1], xs[|xs| - 1];
      assert forall k :: 0 <= k < |init| ==> init[k] == xs[k];
      CollectAllEntries(init, mod, lay, read, written);
      BuildKeepsSchema(EntryNode(lay.name, mod, lay.keys(x) + lay.fields(x)), lay.more(x));
      CollectAllAppend(EntryNodes(init, mod, lay), FilledEntry(x, mod, lay), lay.name, read, Map(init, written), written(x));
    }
  }

  /** Scanning a container for one list whose entries sit between
      children of other names reads exactly that list's elements. */
  lemma CollectAmid<T, U>(before: seq<Node>, xs: seq<T>, mod: string, lay: Layout<T>, after: seq<Node>,
                          read: Node -> U, written: T -> U)
    requires NoneNamed(before, lay.name) && NoneNamed(after, lay.name)
    requires forall k :: 0 <= k < |xs| ==> read(FilledEntry(xs[k], mod, lay)) == written(xs[k])
    ensures Collect(before + EntryNodes(xs, mod, lay) + after, lay.name, read) == Map(xs, written)
  {
    var es := EntryNodes(xs, mod, lay);
    CollectAppend(before + es, after, lay.name, read);
    CollectAppend(before, es, lay.name, read);
    CollectNone(before, lay.name, read);
    CollectNone(after, lay.name, read);
    CollectEntries(xs, mod, lay, read, written);
  }
}
