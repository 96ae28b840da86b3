// The small string rules the codecs apply to leaf values: the CIDR split and
// join, the two identity-prefix strips, the UTC suffix rewrite and the two
// boolean-leaf readings.
module Text {
  import opened Wrappers

  /** `std::string::find(c)`: the first index holding `c`, or none. */
  function Find(s: string, c: char): (r: Option<nat>)
    ensures r.Some? ==> r.value < |s| && s[r.value] == c
    ensures r.Some? ==> forall j :: 0 <= j < r.value ==> s[j] != c
    ensures r.None? ==> forall j :: 0 <= j < |s| ==> s[j] != c
  {
    if s == [] then None
    else if s[0] == c then Some(0)
    else match Find(s[1..], c)
      case None => None
      case Some(i) => Some(i + 1)
  }

  // ---------------------------------------------------------------------
  // Addresses in CIDR notation

  /** The interfaces codec splits an address string at its first '/': the
      part before is the `ip` key, the part after (possibly empty) the
      `prefix-length`; with no '/', the whole string is the `ip` and the
      prefix is empty. */
  datatype Cidr = Cidr(ip: string, prefix: string)

  function SplitCidr(a: string): (r: Cidr)
    ensures Find(a, '/').None? ==> r == Cidr(a, "")
    ensures Find(a, '/').Some? ==> a == r.ip + "/" + r.prefix
    ensures Find(r.ip, '/').None?
  {
    match Find(a, '/')
    case None => Cidr(a, "")
    case Some(i) => Cidr(a[..i], a[i + 1..])
  }

  /** How the address is rebuilt on the way back: "ip/plen" when a
      `prefix-length` leaf has a value, plain "ip" otherwise. */
  function JoinCidr(ip: string, prefixLength: Option<string>): (r: string)
    ensures prefixLength.None? ==> r == ip
    ensures prefixLength.Some? ==> r == ip + "/" + prefixLength.value
  {
    match prefixLength
    case None => ip
    case Some(p) => ip + "/" + p
  }

  /** What survives a write and a read: an address whose prefix is empty
      (no '/', or a '/' that ends the string) comes back as its ip part. */
  function NormalizeCidr(a: string): string
  {
    var c := SplitCidr(a);
    if c.prefix == "" then c.ip else a
  }

  /** Splitting and joining (the join seeing a prefix leaf exactly when the
      split produced a non-empty prefix) gives back the normalized address. */
  lemma JoinSplitCidr(a: string)
    ensures var c := SplitCidr(a);
            JoinCidr(c.ip, if c.prefix == "" then None else Some(c.prefix)) == NormalizeCidr(a)
  {
  }

  /** Normalization only changes an address whose first '/' is its last
      character, and then only drops that '/'. */
  lemma NormalizeCidrChanges(a: string)
    ensures NormalizeCidr(a) != a <==> (Find(a, '/').Some? && Find(a, '/').value == |a| - 1)
    ensures NormalizeCidr(a) != a ==> a == NormalizeCidr(a) + "/"
    ensures NormalizeCidr(NormalizeCidr(a)) == NormalizeCidr(a)
  {
    var c := SplitCidr(a);
    match Find(a, '/')
    case None =>
    case Some(i) =>
      assert c.ip == a[..i];
      if c.prefix == "" {
        assert |a| == i + 1;
        assert NormalizeCidr(a) == a[..i];
        assert |NormalizeCidr(a)| < |a|;
      }
  }

  // ---------------------------------------------------------------------
  // Identity values

  /** The interfaces codec removes a match of the regular expression
      `^[^:]+:`: one or more characters other than ':' at the start,
      followed by ':'. A value starting with ':' or without ':' is kept. */
  function StripIdentityPrefix(s: string): (r: string)
    ensures Find(s, ':').Some? && Find(s, ':').value > 0 ==> s == s[..Find(s, ':').value + 1] + r
    ensures Find(s, ':').None? || Find(s, ':').value == 0 ==> r == s
  {
    match Find(s, ':')
    case Some(i) => if i > 0 then s[i + 1..] else s
    case None => s
  }

  /** The routing codec removes everything up to and including the first
      ':', whatever precedes it. */
  function StripThroughColon(s: string): (r: string)
    ensures Find(s, ':').Some? ==> s == s[..Find(s, ':').value + 1] + r
    ensures Find(s, ':').None? ==> r == s
  {
    match Find(s, ':')
    case Some(i) => s[i + 1..]
    case None => s
  }

  /** The two prefix rules agree on every value except one that starts with
      ':', where the regular expression leaves the value alone. */
  lemma PrefixStripsDiffer(s: string)
    ensures StripIdentityPrefix(s) != StripThroughColon(s) <==> (s != [] && s[0] == ':')
  {
    if s != [] && s[0] == ':' {
      assert |StripThroughColon(s)| < |s|;
    }
  }

  /** The prefix an identity is written with is removed on the way back, as
      long as the name itself has no ':'. */
  lemma StripIdentityPrefixOfQualified(prefix: string, name: string)
    requires prefix != [] && Find(prefix, ':').None?
    ensures StripIdentityPrefix(prefix + ":" + name) == name
    ensures StripThroughColon(prefix + ":" + name) == name
  {
    var s := prefix + ":" + name;
    assert s[|prefix|] == ':';
    assert forall j :: 0 <= j < |prefix| ==> s[j] == prefix[j];
    assert Find(s, ':') == Some(|prefix|);
    assert s[|prefix| + 1..] == name;
  }

  // ---------------------------------------------------------------------
  // Times

  const UTC_OFFSET: string := "+00:00"

  /** libyang renders UTC as "+00:00"; the interfaces codec rewrites that
      suffix to "Z" and keeps every other value as it is. */
  function NormalizeUtc(dt: string): (r: string)
    ensures |dt| >= 6 && dt[|dt| - 6..] == UTC_OFFSET ==> r == dt[..|dt| - 6] + "Z"
    ensures !(|dt| >= 6 && dt[|dt| - 6..] == UTC_OFFSET) ==> r == dt
  {
    if |dt| >= 6 && dt[|dt| - 6..] == UTC_OFFSET then dt[..|dt| - 6] + "Z" else dt
  }

  /** The rewrite is idempotent: its output never ends in "+00:00". */
  lemma NormalizeUtcIdempotent(dt: string)
    ensures NormalizeUtc(NormalizeUtc(dt)) == NormalizeUtc(dt)
  {
    var r := NormalizeUtc(dt);
    if r != dt {
      assert r[|r| - 1] == 'Z';
      if |r| >= 6 {
        assert r[|r| - 6..][5] == 'Z';
      }
    }
  }

  // ---------------------------------------------------------------------
  // Boolean leaves

  /** The interfaces codec reads `enabled` as false exactly for "false" and
      "0"; anything else is true. */
  predicate IsFalseText(v: string)
  {
    v == "false" || v == "0"
  }

  /** The ip and network-instance codecs read a boolean leaf as true exactly
      for "true" and "1"; anything else is false. */
  predicate IsTrueText(v: string)
  {
    v == "true" || v == "1"
  }

  /** The two readings disagree on every value that is none of the four
      spellings (e.g. "yes"): one reads it as true, the other as false. */
  lemma BooleanRulesDiffer(v: string)
    ensures (!IsFalseText(v) == IsTrueText(v)) <==> (v == "false" || v == "0" || v == "true" || v == "1")
  {
  }
}
