// The keyed vectors of the models: entries are appended at the end, and a
// removal by key erases the first entry carrying that key, if any.
module KeyedList {
  import opened Wrappers

  /** The index of the first entry of `xs` whose key is `k`. */
  function FirstWithKey<T>(xs: seq<T>, key: T -> string, k: string): (r: Option<nat>)
    ensures r.Some? ==> r.value < |xs| && key(xs[r.value]) == k
    ensures r.Some? ==> forall j :: 0 <= j < r.value ==> key(xs[j]) != k
    ensures r.None? ==> forall j :: 0 <= j < |xs| ==> key(xs[j]) != k
  {
    if xs == [] then None
    else if key(xs[0]) == k then Some(0)
    else match FirstWithKey(xs[1..], key, k)
      case None => None
      case Some(i) => Some(i + 1)
  }

  /** The vector after erasing its first entry with key `k`; unchanged when
      there is none. */
  function RemoveFirstWithKey<T>(xs: seq<T>, key: T -> string, k: string): seq<T>
  {
    match FirstWithKey(xs, key, k)
    case None => xs
    case Some(i) => xs[..i] + xs[i + 1..]
  }

  /** How many entries carry key `k`. */
  function CountKey<T>(xs: seq<T>, key: T -> string, k: string): nat
  {
    if xs == [] then 0 else (if key(xs[0]) == k then 1 else 0) + CountKey(xs[1..], key, k)
  }

  lemma {:induction false} CountKeyAppend<T>(a: seq<T>, b: seq<T>, key: T -> string, k: string)
    ensures CountKey(a + b, key, k) == CountKey(a, key, k) + CountKey(b, key, k)
    decreases |a|
  {
    if a == [] {
      assert a + b == b;
    } else {
      assert (a + b)[1..] == a[1..] + b;
      CountKeyAppend(a[1..], b, key, k);
    }
  }

  /** A removal takes out exactly one entry with the key when there is one
      (the first), keeps all others in their relative order, and changes
      nothing otherwise. */
  lemma RemoveFirstWithKeySpec<T>(xs: seq<T>, key: T -> string, k: string)
    ensures FirstWithKey(xs, key, k).None? ==> RemoveFirstWithKey(xs, key, k) == xs
    ensures FirstWithKey(xs, key, k).Some? ==>
              var i := FirstWithKey(xs, key, k).value;
              && |RemoveFirstWithKey(xs, key, k)| == |xs| - 1
              && key(xs[i]) == k
              && RemoveFirstWithKey(xs, key, k) == xs[..i] + xs[i + 1..]
              && multiset(RemoveFirstWithKey(xs, key, k)) + multiset{xs[i]} == multiset(xs)
  {
    match FirstWithKey(xs, key, k)
    case None =>
    case Some(i) =>
      assert RemoveFirstWithKey(xs, key, k) == xs[..i] + xs[i + 1..];
      ErasedMultiset(xs, i);
  }

  lemma ErasedMultiset<T>(xs: seq<T>, i: nat)
    requires i < |xs|
    ensures |xs[..i] + xs[i + 1..]| == |xs| - 1
    ensures multiset(xs[..i] + xs[i + 1..]) + multiset{xs[i]} == multiset(xs)
  {
    var a, b := xs[..i], xs[i + 1..];
    assert xs == a + [xs[i]] + b;
    assert multiset(xs) == multiset(a) + multiset{xs[i]} + multiset(b);
    assert multiset(a + b) == multiset(a) + multiset(b);
  }

  /** Even with duplicate keys, only one entry with the key goes. */
  lemma RemoveFirstWithKeyCount<T>(xs: seq<T>, key: T -> string, k: string)
    ensures CountKey(RemoveFirstWithKey(xs, key, k), key, k)
            == if CountKey(xs, key, k) == 0 then 0 else CountKey(xs, key, k) - 1
  {
    match FirstWithKey(xs, key, k)
    case None =>
      CountKeyNone(xs, key, k);
    case Some(i) =>
      var a, b := xs[..i], xs[i + 1..];
      assert xs == a + ([xs[i]] + b);
      CountKeyAppend(a, [xs[i]] + b, key, k);
      CountKeyAppend([xs[i]], b, key, k);
      CountKeyAppend(a, b, key, k);
      CountKeyNone(a, key, k);
      assert CountKey([xs[i]], key, k) == 1 by {
        assert [xs[i]][1..] == [];
      }
      assert RemoveFirstWithKey(xs, key, k) == a + b;
  }

  lemma {:induction false} CountKeyNone<T>(xs: seq<T>, key: T -> string, k: string)
    requires forall j :: 0 <= j < |xs| ==> key(xs[j]) != k
    ensures CountKey(xs, key, k) == 0
    decreases |xs|
  {
    if xs != [] {
      CountKeyNone(xs[1..], key, k);
    }
  }

  /** Appending an entry whose key is new and then removing by that key gives
      back the original vector. */
  lemma RemoveAfterAppend<T>(xs: seq<T>, x: T, key: T -> string)
    requires forall j :: 0 <= j < |xs| ==> key(xs[j]) != key(x)
    ensures RemoveFirstWithKey(xs + [x], key, key(x)) == xs
  {
    var ys := xs + [x];
    assert forall j :: 0 <= j < |xs| ==> key(ys[j]) != key(x);
    FirstWithKeyIs(ys, key, key(x), |xs|);
    assert ys[..|xs|] == xs;
  }

  lemma {:induction false} FirstWithKeyIs<T>(xs: seq<T>, key: T -> string, k: string, i: nat)
    requires i < |xs| && key(xs[i]) == k
    requires forall j :: 0 <= j < i ==> key(xs[j]) != k
    ensures FirstWithKey(xs, key, k) == Some(i)
    decreases i
  {
    if i > 0 {
      FirstWithKeyIs(xs[1..], key, k, i - 1);
    }
  }
}
