# stelleri_yang in Dafny

This project models the typed codec layer of stelleri_yang. The layer sits
between per-module C++ models and libyang's generic YANG data tree. The
models are ietf-interfaces (RFC 8343) with the ietf-ip containers (RFC 8344),
ietf-ip on its own, ietf-routing (RFC 8349) and ietf-network-instance
(RFC 8529). The project also models the code kept around the codecs:

- the schema-mount ext-data callback (RFC 8528), with the yang-library
  document it synthesises (RFC 8525);
- the `iana-if-type` identity table;
- the keyed vectors and their in-place removals;
- the singleton context with its `initialized` latch;
- the error classes and their cached message text.

libyang itself is replaced as follows:

- A data tree is `YangTree.Node`, a schema reference (name and module), an
  optional value and ordered children. A node without a schema is one the
  codecs skip.
- `lyd_find_path("/mod:name")` is a search among the document's top-level
  nodes (`FindTop`).
- Each `lyd_new_path` call is one `YangTree.Write` in a write log. Every
  serializer is stated as the log it emits. `YangTree.Build` interprets a
  log: a keyed list step reuses the first entry whose key leaves match, a
  plain step reuses the first child of that name, anything else is created.
  The round-trip lemmas read back the tree that `Build` makes.
- Parsing, validation, module loading, directory checks and demangling
  are oracle parameters: functions passed in, of which nothing is assumed.
- Whether `lyd_new_path` accepts a path is an oracle (`accepts`) only in
  the network-instance serializer, the one that checks every write. The
  interfaces, ip and routing serializers take a `rootOk` flag for the
  root creation they check (a refusal throws `YangDataError`, a `Failure`
  here) and assume every later write succeeds, as the code ignores those
  return codes.

Two kinds of file make up the project:

- Shared modules: `Wrappers` (Option, Result), `Text` (CIDR, prefix, UTC and
  boolean string rules), `Numeric` (fixed-width integers, `std::to_string`,
  `std::stoi`/`std::stoul`), `KeyedList` (first-match removal), `YangTree`
  (the tree, lookups and the write log) and `Entries` (the keyed-entry write
  pattern every serializer repeats).
- One module per core file: `IanaIfType`, `IetfInterfaces`, `IetfIp`,
  `IetfRouting`, `IetfNetworkInstance`, `ExtData`, `Yang` and `Exceptions`.

Code that mutates state is modelled as classes with `modifies` clauses:

- the interfaces, ip and routing models;
- `NetworkInstance` and `IetfNetworkInstances`;
- the ext-data callback with its recursion guard;
- `Yang` with its singleton;
- `YangContext`;
- `YangError` and `YangDataError` with the message cache.

Their loops carry invariants. Each method is proved against a specification
function, and the round trips, inverses and error conditions are proved as
lemmas about those functions.

Where the headers' declarations and the code disagree, the model follows the
code:

- `include/IetfInterfaces.hpp:46-52` gives the interface's `ipv4`/`ipv6`
  members as a bare vector of strings. `src/IetfInterfaces.cpp` uses
  addresses and a 32-bit `mtu`, and `IetfInterfaces.IpConfig` follows it.
- `ianaIfTypeToString` and `ianaIfTypeFromString` are taken to be the
  `toString` and `fromString` of `include/IanaIfType.hpp`.
- `IetfRouting::deserialize` treats a `route-preference` that `std::stoul`
  cannot parse as an error, which propagates.
- `IetfIp` swallows the same failure, leaving the field absent.

## Model

| member | source | states |
|---|---|---|
| Text.Find | src/IetfInterfaces.cpp:61 | `std::string::find`: the index of the first occurrence, or none when the character does not occur |
| Text.SplitCidr | src/IetfInterfaces.cpp:58-65 | an address is split at its first '/': with none, the whole string is the ip and the prefix is empty; otherwise `ip + "/" + prefix` is the address and the ip holds no '/' |
| Text.JoinCidr | src/IetfInterfaces.cpp:235-239 | deserialize rebuilds an address as `ip/plen`, or as the bare ip when there is no `prefix-length` |
| Text.JoinSplitCidr | src/IetfInterfaces.cpp:56-76 | splitting and joining again gives the address back, except that a trailing '/' is lost (`NormalizeCidr`) |
| Text.NormalizeCidrChanges | src/IetfInterfaces.cpp:71-75 | the round trip changes an address iff its first '/' is its last character, then it drops exactly that '/'; the change is idempotent |
| Text.StripIdentityPrefix | src/IetfInterfaces.cpp:176-181 | the regex `^[^:]+:` removes a non-empty run of non-':' characters and its ':'; a string starting with ':' or without ':' is unchanged |
| Text.StripThroughColon | src/IetfRouting.cpp:106-111 | everything up to and including the first ':' is removed; a string without ':' is unchanged |
| Text.PrefixStripsDiffer | src/IetfRouting.cpp:106-111 | the routing strip and the interfaces strip disagree exactly on non-empty strings that start with ':' |
| Text.StripIdentityPrefixOfQualified | src/IetfInterfaces.cpp:176-181 | both strips turn `prefix:name` back into `name` when the prefix is non-empty and has no ':' |
| Text.NormalizeUtc | src/IetfInterfaces.cpp:205-211 | a `discontinuity-time` ending in "+00:00" has those six characters replaced by "Z"; any other value is unchanged |
| Text.NormalizeUtcIdempotent | src/IetfInterfaces.cpp:205-211 | normalising twice is normalising once |
| Text.BooleanRulesDiffer | src/IetfNetworkInstance.cpp:162-167 | the "not false/0" rule of the interfaces codec and the "true/1" rule of ip and network-instance agree exactly on "false", "0", "true" and "1" |
| Numeric.CastU8 | src/IetfIp.cpp:111 | `static_cast<uint8_t>` keeps the value modulo 2^8, and an in-range value unchanged |
| Numeric.CastU16 | src/IetfIp.cpp:100 | `static_cast<uint16_t>` keeps the value modulo 2^16, and an in-range value unchanged |
| Numeric.CastU32 | src/IetfIp.cpp:181 | `static_cast<uint32_t>` keeps the value modulo 2^32, and an in-range value unchanged |
| Numeric.NatToString | src/IetfIp.cpp:37 | `std::to_string` of an unsigned value is a non-empty digit string without a leading zero |
| Numeric.DigitsValueOfNatToString | src/IetfIp.cpp:37 | the digits `std::to_string` writes read back as the same number |
| Numeric.NatToStringInjective | src/IetfIp.cpp:47 | distinct numbers are written as distinct strings |
| Numeric.StoI | src/IetfInterfaces.cpp:286 | `std::stoi` succeeds only where a number can be scanned after leading spaces and a sign, and on a non-negative in-range digit run gives its value |
| Numeric.StoUL | src/IetfInterfaces.cpp:223 | `std::stoul` succeeds only where a number can be scanned, with a result below 2^64, and on a non-negative in-range digit run gives its value |
| Numeric.StoIOfNatToString | src/IetfInterfaces.cpp:286 | `std::stoi` reads back what `std::to_string` wrote for any value below 2^31 |
| Numeric.StoULOfNatToString | src/IetfInterfaces.cpp:223 | `std::stoul` reads back what `std::to_string` wrote for any value below 2^64 |
| Numeric.NoDigitsRejected | src/IetfIp.cpp:100 | a text without a single digit is refused by both `stoi` and `stoul` |
| KeyedList.FirstWithKey | include/IetfInterfaces.hpp:98-99 | the erase loop stops at the first element with the key; none when no element has it |
| KeyedList.RemoveFirstWithKeySpec | include/IetfInterfaces.hpp:97-101 | without a match the vector is unchanged; otherwise exactly the first matching element is erased, the rest keep their order, and the multiset loses only that element |
| KeyedList.RemoveFirstWithKeyCount | include/IetfInterfaces.hpp:98-99 | one removal takes out one element with the key, even when several have it |
| KeyedList.RemoveAfterAppend | include/IetfIp.hpp:40 | appending an element whose key is new and removing by that key restores the vector |
| IanaIfType.FromToString | include/IanaIfType.hpp:313-615 | `fromString(toString(t)) == t` for every value, `Unknown` included |
| IanaIfType.ToFromString | include/IanaIfType.hpp:620-918 | `toString(fromString(s)) == s` for every key of the lookup table |
| IanaIfType.ToStringInjective | include/IanaIfType.hpp:315-613 | distinct values have distinct strings |
| IanaIfType.FromStringInverse | include/IanaIfType.hpp:619-924 | for a value other than `Unknown`, `fromString(s)` is that value iff `s` is its string, so matching is exact and case-sensitive |
| IanaIfType.FromStringNotAKey | include/IanaIfType.hpp:921-922 | a string that is no value's name gives `Unknown` |
| IanaIfType.FromStringCaseSensitive | include/IanaIfType.hpp:617-618 | examples of exact matching: "EthernetCsmacd" and "unknown" are not keys |
| IanaIfType.IfGsnName | include/IanaIfType.hpp:458 | `if_gsn` is written "if-gsn" and read back from it |
| YangTree.FirstNamed | src/IetfNetworkInstance.cpp:63-66 | the index of the first child with a schema of that name, every child before it named otherwise; none when no child has it |
| YangTree.FindChild | src/IetfNetworkInstance.cpp:59-68 | `find_child_by_name_local`: some iff a child has that name, and then the first such child |
| YangTree.LeafValue | src/IetfIp.cpp:92-93 | a value found for a leaf is the value of the first child so named |
| YangTree.FindTop | src/IetfRouting.cpp:66 | the absolute-path lookup finds a top-level node with that name and module, or none when no top-level node matches |
| YangTree.LocateRoot | src/IetfRouting.cpp:62-67 | the tree itself when its schema has the name, otherwise the absolute-path lookup |
| YangTree.Collect | src/IetfIp.cpp:104-124 | the child scan reads exactly one element per child of that name |
| YangTree.CollectAll | src/IetfRouting.cpp:134-154 | a child scan whose per-entry read can throw: it succeeds iff every entry of that name reads, with one element per entry |
| YangTree.LeafListStep | src/IetfRouting.cpp:91-96 | one step of the leaf-list loop appends the entry's value when there is one |
| YangTree.NewPathsChecked | src/IetfNetworkInstance.cpp:88-110 | a run of checked `lyd_new_path` calls yields a tree iff every write is accepted, and then the tree the writes build |
| Entries.BuildEntries | src/IetfIp.cpp:42-65 | writing a vector as keyed entries with distinct keys builds one entry per element, in order, appended after the existing children |
| Entries.WriteEntries | src/IetfIp.cpp:42-56 | the serializer loop over a vector issues exactly the entries' writes in order |
| IetfInterfaces.NewInterfaceDefaults | include/IetfInterfaces.hpp:54-81 | a fresh interface is enabled, has an empty name, every optional absent and both leaf-lists empty |
| IetfInterfaces.InterfaceFieldsWritten | src/IetfInterfaces.cpp:28-53 | serialize writes the name, `description` only when present, `enabled` only when false (as "false"), and `type` as "ianaift:" plus the identity's string |
| IetfInterfaces.AddressWritten | src/IetfInterfaces.cpp:56-76 | with no '/' only `ip` is written; otherwise `ip` is the text before the first '/', and `prefix-length` the text after it, written only when non-empty |
| IetfInterfaces.ReadEnabled | src/IetfInterfaces.cpp:184-187 | `enabled` is false iff its value is "false" or "0", and true when the leaf is absent |
| IetfInterfaces.ReadType | src/IetfInterfaces.cpp:174-182 | a present `type` is looked up after the prefix strip; a value without a stripped prefix is looked up whole |
| IetfInterfaces.ReadStatistics | src/IetfInterfaces.cpp:199-214 | `statistics` is set iff the container has a `discontinuity-time`, which is then UTC-normalised |
| IetfInterfaces.ReadAddress | src/IetfInterfaces.cpp:230-241 | an address entry without `ip` is skipped; otherwise it reads `ip/plen`, or `ip` when `prefix-length` is absent |
| IetfInterfaces.ReadMtu | src/IetfInterfaces.cpp:221-224 | a container mtu that `stoul` refuses makes the read fail; an accepted one is truncated to 32 bits |
| IetfInterfaces.ReadFamily | src/IetfInterfaces.cpp:216-245 | an `ipv4`/`ipv6` container is kept only when at least one address was read, so an mtu-only container is dropped; a bad mtu fails |
| IetfInterfaces.ReadIfIndex | src/IetfInterfaces.cpp:283-286 | `if-index` goes through `stoi`, and a refused value fails the read |
| IetfInterfaces.ReadInterface | src/IetfInterfaces.cpp:160-307 | an entry fails iff its name is missing or empty, a family mtu is refused or `if-index` is refused; otherwise the name, description, type (`ReadType`), enabled flag (`ReadEnabled`), statistics (`ReadStatistics`), both families (`ReadFamily`), `if-index` (`ReadIfIndex`), the status, last-change and phys-address leaves and both leaf-lists are those read, and there is no mtu, speed or trap setting |
| IetfInterfaces.ReadInterfaces | src/IetfInterfaces.cpp:123-311 | deserialize fails on a null tree, a missing `interfaces` root or any failing entry, and otherwise reads every `interface` entry in document order |
| IetfInterfaces.ReadAddressExample | tests/TestIetfInterfaces.cpp:105 | the entry `ip` 192.0.2.1, `prefix-length` 24 reads as "192.0.2.1/24" |
| IetfInterfaces.ReadTypeExample | tests/TestIetfInterfaces.cpp:101 | "ianaift:ethernetCsmacd" reads as `ethernetCsmacd` |
| IetfInterfaces.ReadWrittenType | src/IetfInterfaces.cpp:47-53 | the type text serialize writes reads back as the same identity |
| IetfInterfaces.SerializeBuildsTree | src/IetfInterfaces.cpp:18-121 | with distinct names and distinct address ips, the writes build one `interface` entry per interface, in order |
| IetfInterfaces.ReadInterfaceTree | src/IetfInterfaces.cpp:153-307 | a named interface's written entry reads back as the interface with what serialize writes |
| IetfInterfaces.ReadUnnamedInterfaceTree | src/IetfInterfaces.cpp:166-167 | an entry written for an interface with an empty name is refused |
| IetfInterfaces.RoundTrip | src/IetfInterfaces.cpp:18-311 | deserialize after serialize gives back every interface, in order, with the name, description, type, enabled flag and families; addresses are normalised and address-less families dropped |
| IetfInterfaces.ReadRoot | src/IetfInterfaces.cpp:131-133 | a tree that is itself the `interfaces` root is read directly, whatever the top-level nodes |
| IetfInterfaces.UnnamedInterfaceRejected | src/IetfInterfaces.cpp:166-167 | one interface with an empty name makes the whole deserialize of the serialized tree fail |
| IetfInterfaces.IetfInterfaces.constructor | include/IetfInterfaces.hpp:93 | a new model holds no interfaces |
| IetfInterfaces.IetfInterfaces.AddInterface | include/IetfInterfaces.hpp:85 | `addInterface` appends at the end |
| IetfInterfaces.IetfInterfaces.RemoveInterfaceByName | include/IetfInterfaces.hpp:97-101 | returns whether an entry had the name and erases the first such entry only |
| IetfInterfaces.IetfInterfaces.Serialize | src/IetfInterfaces.cpp:18-121 | fails (the `YangDataError` throw) iff the root cannot be created; otherwise the tree is what the write log builds, and under the round-trip conditions it reads back as the written interfaces |
| IetfInterfaces.IetfInterfaces.Deserialize | src/IetfInterfaces.cpp:123-311 | fails iff `ReadInterfaces` fails, and otherwise is a fresh model holding its interfaces |
| IetfInterfaces.IetfInterfaces.ReadInterfaceEntry | src/IetfInterfaces.cpp:160-307 | the field-by-field fill of one entry computes `ReadInterface` |
| IetfInterfaces.IetfInterfaces.ReadFamilyContainer | src/IetfInterfaces.cpp:216-245 | the mtu read and the address scan compute `ReadFamily` |
| IetfInterfaces.IetfInterfaces.ScanAddresses | src/IetfInterfaces.cpp:225-242 | the address loop collects the readable addresses in order |
| IetfIp.ReadFlag | src/IetfIp.cpp:92-96 | a boolean leaf is true iff "true" or "1", and keeps the default when absent |
| IetfIp.ReadU8 | src/IetfIp.cpp:110-111 | `prefix-length` is set iff `stoi` accepts it, truncated to 8 bits; a failure is swallowed |
| IetfIp.ReadU16 | src/IetfIp.cpp:98-101 | the IPv4 mtu is set iff `stoi` accepts it, truncated to 16 bits; a failure is swallowed |
| IetfIp.ReadU32 | src/IetfIp.cpp:180-181 | the IPv6 mtu is set iff `stoul` accepts it, truncated to 32 bits; a failure is swallowed |
| IetfIp.ReadRenderedU8 | src/IetfIp.cpp:47 | a written prefix length reads back unchanged |
| IetfIp.ReadRenderedU16 | src/IetfIp.cpp:36-39 | a written IPv4 mtu reads back unchanged |
| IetfIp.ReadRenderedU32 | src/IetfIp.cpp:138-141 | a written IPv6 mtu reads back unchanged |
| IetfIp.HeadFieldValues | src/IetfIp.cpp:27-39 | `enabled` is written only when false, `forwarding` only when true, `mtu` only when present |
| IetfIp.ReadHeadFlags | src/IetfIp.cpp:92-96 | the flags serialize writes read back as the flags |
| IetfIp.Ipv4Of | src/IetfIp.cpp:91-124 | one address per `address` entry and one neighbor per `neighbor` entry, even without an `ip`; absent flags keep enabled=true and forwarding=false |
| IetfIp.ReadIpv4 | src/IetfIp.cpp:70-127 | IPv4 deserialize fails iff the tree is null or no `ipv4` container is found, and otherwise reads that container |
| IetfIp.SerializeBuildsTree4 | src/IetfIp.cpp:9-68 | with distinct address and neighbor ips, the writes build the leaves, then one entry per address, then one per neighbor |
| IetfIp.ReadAddressEntry4 | src/IetfIp.cpp:106-114 | a written address entry reads back as the address without its origin |
| IetfIp.ReadNeighborEntry4 | src/IetfIp.cpp:116-122 | a written neighbor entry reads back as the neighbor without its origin |
| IetfIp.Ipv4RoundTrip | src/IetfIp.cpp:9-127 | deserialize after serialize recovers enabled, forwarding, mtu, every address's ip, prefix length and netmask, and every neighbor's ip and link-layer address |
| IetfIp.ReadOwnRoot4 | src/IetfIp.cpp:75-76 | a tree that is itself the `ipv4` container is read directly |
| IetfIp.Ipv6Of | src/IetfIp.cpp:173-195 | one address per `address` entry; neighbors are never read and the other members keep their defaults |
| IetfIp.ReadIpv6 | src/IetfIp.cpp:153-196 | IPv6 deserialize fails iff the tree is null or no `ipv6` container is found |
| IetfIp.SerializeBuildsTree6 | src/IetfIp.cpp:129-151 | with distinct address ips, the writes build the leaves then one entry per address, each with its `prefix-length` |
| IetfIp.ReadAddressEntry6 | src/IetfIp.cpp:185-191 | a written IPv6 address reads back as the address without its origin and status |
| IetfIp.Ipv6RoundTrip | src/IetfIp.cpp:129-196 | deserialize after serialize recovers the flags, the mtu and every address with its prefix length; neighbors are lost |
| IetfIp.ReadOwnRoot6 | src/IetfIp.cpp:158-159 | a tree that is itself the `ipv6` container is read directly |
| IetfIp.UnparsableMtuSwallowed | src/IetfIp.cpp:98-101 | a non-numeric mtu leaves the mtu absent, with no error |
| IetfIp.AddressWithoutIp | src/IetfIp.cpp:108-109 | an address entry without `ip` is still added, with an empty ip |
| IetfIp.AddThenRemoveAddress4 | include/IetfIp.hpp:117-122 | adding an address with a new ip and removing by that ip restores the list |
| IetfIp.IetfIpv4.constructor | include/IetfIp.hpp:26-28 | a fresh IPv4 model is enabled, not forwarding, with no mtu, addresses or neighbors |
| IetfIp.IetfIpv4.AddAddress | include/IetfIp.hpp:40 | appends at the end and changes nothing else |
| IetfIp.IetfIpv4.AddNeighbor | include/IetfIp.hpp:51 | appends at the end and changes nothing else |
| IetfIp.IetfIpv4.RemoveAddressByIp | include/IetfIp.hpp:117-122 | returns whether an address had that ip and erases only the first such address |
| IetfIp.IetfIpv4.RemoveNeighborByIp | include/IetfIp.hpp:124-129 | the same removal on the neighbors |
| IetfIp.IetfIpv4.Serialize | src/IetfIp.cpp:9-68 | fails (the `YangDataError` throw) iff the three creation writes do not all succeed; otherwise the returned container is what the write log builds, and with distinct ips it reads back as the written data |
| IetfIp.IetfIpv4.Deserialize | src/IetfIp.cpp:70-127 | fails iff `ReadIpv4` fails, and otherwise is a fresh model holding its data |
| IetfIp.IetfIpv4.ReadLeaves4 | src/IetfIp.cpp:91-101 | the three leaf reads compute `ReadFlag` and `ReadU16` |
| IetfIp.IetfIpv4.ScanChildren4 | src/IetfIp.cpp:104-124 | the child loop collects addresses and neighbors in document order |
| IetfIp.IetfIpv6.constructor | include/IetfIp.hpp:68-106 | a fresh IPv6 model is enabled, not forwarding, with no mtu, dup-addr-detect-transmits 1 and the default autoconf (true, false, 604800, 86400) |
| IetfIp.IetfIpv6.AddAddress | include/IetfIp.hpp:83 | appends at the end and changes nothing else |
| IetfIp.IetfIpv6.AddNeighbor | include/IetfIp.hpp:96 | appends at the end and changes nothing else |
| IetfIp.IetfIpv6.RemoveAddressByIp | include/IetfIp.hpp:131-136 | returns whether an address had that ip and erases only the first such address |
| IetfIp.IetfIpv6.RemoveNeighborByIp | include/IetfIp.hpp:138-143 | the same removal on the neighbors |
| IetfIp.IetfIpv6.Serialize | src/IetfIp.cpp:129-151 | fails (the `YangDataError` throw) iff `/ietf-ip:ipv6` cannot be created; otherwise the returned container is what the write log builds, and with distinct ips it reads back as the written data |
| IetfIp.IetfIpv6.Deserialize | src/IetfIp.cpp:153-196 | fails iff `ReadIpv6` fails, and otherwise is a fresh model holding its data |
| IetfIp.IetfIpv6.ReadLeaves6 | src/IetfIp.cpp:173-181 | the three leaf reads compute `ReadFlag` and `ReadU32` |
| IetfIp.IetfIpv6.ScanChildren6 | src/IetfIp.cpp:183-193 | the child loop collects the addresses in document order |
| IetfRouting.ProtocolWritten | src/IetfRouting.cpp:25-31 | a control-plane-protocol entry always writes `type` and `name` under the compound key `[type][name]`, and `description` only when present |
| IetfRouting.RibWritten | src/IetfRouting.cpp:41-47 | a rib writes `name` and `address-family`, and `description` only when present |
| IetfRouting.PreferencesCount | src/IetfRouting.cpp:33-37 | only routes with a preference produce a node: none when no route has one, all when every route has one |
| IetfRouting.ReadRoute | src/IetfRouting.cpp:118-123 | a route without a preference still counts; a preference `stoul` refuses fails the read; an accepted one is truncated to 32 bits |
| IetfRouting.RoutesOf | src/IetfRouting.cpp:116-125 | a missing routes container gives no routes; otherwise every `route` entry is read in order |
| IetfRouting.ReadProtocol | src/IetfRouting.cpp:105-127 | `type` has everything through its first ':' removed, and `name`, `description` and the static routes are read; it fails only through a route |
| IetfRouting.ReadRib | src/IetfRouting.cpp:137-153 | a rib reads `name`, `address-family`, `description` and its routes, keeping the default-rib flag |
| IetfRouting.ReadRouterId | src/IetfRouting.cpp:79-86 | `router-id` comes from the direct child, otherwise from the absolute-path lookup, otherwise it is absent |
| IetfRouting.ReadRoutingNode | src/IetfRouting.cpp:78-157 | the model fails iff a protocol or a rib fails, and otherwise holds the router-id, the interface names, the protocols and the ribs read in document order |
| IetfRouting.ReadRouting | src/IetfRouting.cpp:58-68 | deserialize fails on a null tree or a missing `routing` root |
| IetfRouting.SerializeBuildsTree | src/IetfRouting.cpp:7-56 | with distinct protocol keys and rib names, the writes build the router-id, the interfaces leaf-list, the protocols and the ribs, in order |
| IetfRouting.ReadProtocolTree | src/IetfRouting.cpp:102-128 | a written protocol entry reads back with its routes reduced to those with a preference |
| IetfRouting.ReadRibTree | src/IetfRouting.cpp:134-154 | a written rib reads back with the default-rib flag set and its routes reduced to those with a preference |
| IetfRouting.CollectInterfaceLeaves | src/IetfRouting.cpp:89-97 | the interfaces leaf-list reads back every name in order |
| IetfRouting.RoundTrip | src/IetfRouting.cpp:7-158 | deserialize after serialize gives back the router-id, the interface names, the protocols and the ribs; routes without a preference are dropped |
| IetfRouting.TestDocument | tests/TestIetfRouting.cpp:155-164 | the test document reads as two protocols and one rib with one route of preference 20, and no router-id |
| IetfRouting.IetfRouting.constructor | include/IetfRouting.hpp:20 | a fresh model is the empty routing |
| IetfRouting.IetfRouting.AddInterfaceName | src/IetfRouting.cpp:94 | appends a name and changes nothing else |
| IetfRouting.IetfRouting.AddProtocol | src/IetfRouting.cpp:127 | appends a protocol and changes nothing else |
| IetfRouting.IetfRouting.AddRib | src/IetfRouting.cpp:153 | appends a rib and changes nothing else |
| IetfRouting.IetfRouting.Serialize | src/IetfRouting.cpp:7-56 | fails (the `YangDataError` throw) iff the root cannot be created; otherwise the returned tree is what the write log builds, and with distinct keys it reads back as the written routing |
| IetfRouting.IetfRouting.Deserialize | src/IetfRouting.cpp:58-158 | fails iff `ReadRouting` fails, and otherwise is a fresh model holding its routing |
| IetfRouting.IetfRouting.AddInterfaceNames | src/IetfRouting.cpp:89-97 | the leaf-list loop appends the names that have a value |
| IetfRouting.IetfRouting.AddProtocols | src/IetfRouting.cpp:100-129 | the protocol loop appends every entry in order, or fails when one fails |
| IetfRouting.IetfRouting.AddRibs | src/IetfRouting.cpp:132-155 | the rib loop appends every entry in order, or fails when one fails |
| IetfRouting.IetfRouting.ScanRoutes | src/IetfRouting.cpp:143-151 | the route loop reads every route entry in order |
| IetfNetworkInstance.ReadNetworkInstances | src/IetfNetworkInstance.cpp:116-208 | every instance deserialize keeps has a non-empty name |
| IetfNetworkInstance.ReadNetworkInstancesFails | src/IetfNetworkInstance.cpp:116-208 | deserialize fails iff the container exists and some entry holds a mounted sub-tree whose own deserializer fails; a null tree or a missing container never fails |
| IetfNetworkInstance.Container | src/IetfNetworkInstance.cpp:126-136 | the container found is always `ietf-network-instance:network-instances` |
| IetfNetworkInstance.KeepNamed | src/IetfNetworkInstance.cpp:203-204 | entries with an empty name are dropped |
| IetfNetworkInstance.KeepNamedMembers | src/IetfNetworkInstance.cpp:203-204 | the kept entries are exactly the named ones |
| IetfNetworkInstance.KeepNamedAppend | src/IetfNetworkInstance.cpp:141-205 | dropping distributes over concatenation, so the kept entries stay in document order |
| IetfNetworkInstance.ReadFieldsLeaves | src/IetfNetworkInstance.cpp:152-173 | the last `name` and `description` with a value win; `enabled` comes from the last `enabled` leaf; otherwise the defaults stay |
| IetfNetworkInstance.ReadChildLeaves | src/IetfNetworkInstance.cpp:157-173 | a `name` or `description` leaf with a value replaces that member, an `enabled` leaf sets the flag from its text, and any other child leaves these members alone |
| IetfNetworkInstance.EnabledUnlessSaidOtherwise | src/IetfNetworkInstance.cpp:162-167 | an instance is disabled iff its last `enabled` leaf has a value that is neither "true" nor "1" |
| IetfNetworkInstance.ReadMountLast | src/IetfNetworkInstance.cpp:177-200 | mounted children are dispatched by module: the last ietf-routing sub-tree gives the routing, the last ietf-interfaces sub-tree the interfaces, and the others are ignored |
| IetfNetworkInstance.ReadMountFails | src/IetfNetworkInstance.cpp:184-198 | a mount container fails iff one of its routing or interfaces sub-trees fails to deserialize |
| IetfNetworkInstance.ReadVrfADocument | tests/TestIetfNetworkInstance.cpp:45-115 | the VRF-A test document reads as one enabled instance with its description and routing |
| IetfNetworkInstance.InstancesLogInSchema | src/IetfNetworkInstance.cpp:85-111 | with the path corrected, every write serialize makes resolves below `network-instances` |
| IetfNetworkInstance.AsWrittenLogRejected | src/IetfNetworkInstance.cpp:86-87 | no path as written resolves below the root (`InSchema` fails: its first step is `network-instances`), and for a non-empty list at least one write is made |
| IetfNetworkInstance.AsWrittenReadsBackNothing | src/IetfNetworkInstance.cpp:86-87 | even where the writes as written go through, the tree reads back without a single instance |
| IetfNetworkInstance.ReadWrittenEntry | src/IetfNetworkInstance.cpp:141-205 | a written entry reads back as the instance without its sub-models |
| IetfNetworkInstance.RoundTrip | src/IetfNetworkInstance.cpp:76-208 | with the path corrected, deserialize after serialize gives back every named instance's name, enabled flag and description, in order; the sub-models are never written |
| IetfNetworkInstance.WriteInstances | src/IetfNetworkInstance.cpp:85-111 | the write loop, with each path headed by given steps, yields a tree iff every write is accepted, and then the tree the log builds |
| IetfNetworkInstance.AsWrittenRefused | src/IetfNetworkInstance.cpp:86-90 | for a non-empty list, a library that accepts only paths resolving below the root refuses the writes as written |
| IetfNetworkInstance.CorrectedAccepted | src/IetfNetworkInstance.cpp:85-111 | a library that accepts every path resolving below the root accepts all the corrected writes |
| IetfNetworkInstance.NetworkInstance.constructor | include/IetfNetworkInstance.hpp:55-60 | a fresh instance has an empty name, is enabled, has no description and no sub-models |
| IetfNetworkInstance.NetworkInstance.SetName | include/IetfNetworkInstance.hpp:29 | the name becomes the value set, and the other members are unchanged |
| IetfNetworkInstance.NetworkInstance.SetEnabled | include/IetfNetworkInstance.hpp:32 | the flag becomes the value set, and the other members are unchanged |
| IetfNetworkInstance.NetworkInstance.SetDescription | include/IetfNetworkInstance.hpp:37-39 | the description becomes the value set, and the other members are unchanged |
| IetfNetworkInstance.NetworkInstance.SetRouting | include/IetfNetworkInstance.hpp:43-45 | the routing sub-model is replaced, and the other members are unchanged |
| IetfNetworkInstance.NetworkInstance.SetInterfaces | include/IetfNetworkInstance.hpp:50-52 | the interfaces sub-model is replaced, and the other members are unchanged |
| IetfNetworkInstance.IetfNetworkInstances.constructor | include/IetfNetworkInstance.hpp:63 | a new model holds no instances |
| IetfNetworkInstance.IetfNetworkInstances.AddInstance | include/IetfNetworkInstance.hpp:69-71 | an instance appended through `mutableNetworkInstances` is what `getNetworkInstances` then shows last |
| IetfNetworkInstance.IetfNetworkInstances.Serialize | src/IetfNetworkInstance.cpp:76-114 | with the paths as the code formats them (`network-instances/network-instance[name='..']/..`), the result is non-null iff the root is created and every write is accepted, and is then the tree the writes build; on any failure it is null, and for a non-empty list it is null whenever the library accepts only paths that resolve |
| IetfNetworkInstance.IetfNetworkInstances.SerializeCorrected | src/IetfNetworkInstance.cpp:76-114 | the same with root-relative paths: non-null iff the root is created and every write is accepted, and non-null whenever the library accepts the paths that resolve; its tree is the one `RoundTrip` reads back |
| IetfNetworkInstance.IetfNetworkInstances.Deserialize | src/IetfNetworkInstance.cpp:116-208 | fails iff `ReadNetworkInstances` fails, and otherwise is a fresh model with its instances |
| IetfNetworkInstance.IetfNetworkInstances.ReadEntry | src/IetfNetworkInstance.cpp:148-201 | one entry's loop builds a fresh instance whose value is `ReadInstance`, with freshly built sub-models |
| IetfNetworkInstance.IetfNetworkInstances.ReadEntriesInto | src/IetfNetworkInstance.cpp:141-205 | the entry loop appends the named instances in order |
| IetfNetworkInstance.IetfNetworkInstances.ApplyChild | src/IetfNetworkInstance.cpp:153-200 | one child updates the instance as `ReadChild` says |
| IetfNetworkInstance.IetfNetworkInstances.ReadMountInto | src/IetfNetworkInstance.cpp:184-198 | the mount loop updates the instance as `ReadMount` says |
| ExtData.Label | src/IetfNetworkInstance.cpp:290-298 | the label is the extension argument when non-empty, else the parent schema node's name |
| ExtData.MountXmlSplit | src/IetfNetworkInstance.cpp:325-393 | the document is the fixed yang-library and schema-mounts text with the label inserted verbatim inside `<label>` |
| ExtData.MountDocInline | src/IetfNetworkInstance.cpp:388-392 | the label is followed by `</label>` and then `<inline/>` |
| ExtData.LabelRoundTrip | src/IetfNetworkInstance.cpp:390 | the label can be read back from the document |
| ExtData.MountXmlInjective | src/IetfNetworkInstance.cpp:390 | distinct labels give distinct documents |
| ExtData.ValidateExtData | src/IetfNetworkInstance.cpp:32-57 | returns the validator's code, and keeps the tree iff it validates; otherwise the tree is freed |
| ExtData.Resolve | src/IetfNetworkInstance.cpp:264-435 | a malformed extension, one that is not `ietf-yang-schema-mount:mount-point`, one whose parent is not a container or list, or one without a label gives EINVAL with null/0; the code is success iff a tree is handed back, iff free is set; a handed-back tree is the parse of the document for the label and validates; a parsed tree is either handed back or freed, and a freed tree means an error code |
| ExtData.CheckExtension | src/IetfNetworkInstance.cpp:266-303 | the checks before the document is built let an extension through iff it is well-formed, the schema-mount `mount-point`, under a container or list and labelled, and then yield its label |
| ExtData.HandBack | src/IetfNetworkInstance.cpp:407-435 | after the parse the code is success iff a tree is handed back, and a freed tree is the parsed one with an error code |
| ExtData.HandedBackLabel | src/IetfNetworkInstance.cpp:431-435 | a successful hand-back carries the parse of the document for the extension's own label |
| ExtData.ExtDataCallback.Callback | src/IetfNetworkInstance.cpp:246-436 | with the guard up the call returns success with null/0 without parsing; the guard is raised only around the parse, so every nested call returns that way; the guard is left as it was found; with the guard down the outcome is `Resolve` |
| Yang.FlagBits | include/YangContext.hpp:11-84 | each option is a single bit or zero (only `NoFlags`, the source's `None`, is zero), and distinct options have disjoint bits |
| Yang.FlagsExactly | src/Yang.cpp:15-16 | the combined flags carry an option's bit iff the option was given |
| Yang.OrFlags | src/Yang.cpp:15-16 | the loop's result is the bitwise OR of all options |
| Yang.Requested | src/YangContext.cpp:36 | an empty revision requests the module without a revision |
| Yang.SearchDirsMembers | src/Yang.cpp:34-40 | the search paths added are exactly the candidates that are existing directories |
| Yang.LoadedPrefix | src/Yang.cpp:51-57 | the modules loaded before the first failure are a prefix of the list, every one of them loads, and the next one does not |
| Yang.PreparedModules | src/Yang.cpp:42-57 | when preparation succeeds every default module is loaded; with no directory added nothing is loaded |
| Yang.YangContext.constructor | src/YangContext.cpp:8-15 | a new context has the given options, no search paths and no modules |
| Yang.YangContext.AddSearchPath | src/YangContext.cpp:26-30 | appends the path and loads nothing |
| Yang.YangContext.LoadModule | src/YangContext.cpp:32-40 | succeeds iff libyang loads the requested module, which is then recorded as loaded |
| Yang.Yang.GetContext | src/Yang.cpp:14-23 | the first call creates the instance with the OR of its options; every later call returns that same instance and ignores its options |
| Yang.Yang.AddSearchDirs | src/Yang.cpp:32-40 | adds exactly the candidates that are directories, in order, and counts them |
| Yang.Yang.LoadAll | src/Yang.cpp:51-57 | loads modules in order up to the first failure and reports whether all loaded |
| Yang.Yang.GetDefaultContext | src/Yang.cpp:25-61 | once initialized it returns the instance with no side effect; otherwise it fails when no candidate is a directory or a module fails to load; `initialized` becomes true only after every module loads, so a failure leaves it false and a later call adds the search paths again |
| Exceptions.FindFrom | include/Exceptions.hpp:81 | `find(c, from)`: the first occurrence at or after `from`, or none |
| Exceptions.MangledSpan | include/Exceptions.hpp:80-83 | the name to demangle lies strictly between the first '(' and the next '+', and exists iff both are found and the span is non-empty |
| Exceptions.DemangleFrameParts | include/Exceptions.hpp:83-88 | a successful demangle replaces exactly that span and keeps the text before and after it |
| Exceptions.DemangleFrameUnchanged | include/Exceptions.hpp:82-89 | without a span, or when demangling fails, the frame is kept verbatim |
| Exceptions.TraceTextAppend | include/Exceptions.hpp:77-93 | the trace of consecutive frames is the trace of the first ones followed by the trace of the rest, so each frame gives its own line in order |
| Exceptions.CapturedTrace | include/Exceptions.hpp:71-76 | with no frames or no symbols the trace is empty |
| Exceptions.CaptureStackTrace | include/Exceptions.hpp:68-96 | the loop appends each frame, demangled, followed by a newline |
| Exceptions.YangError.constructor | include/Exceptions.hpp:28 | the trace is captured, at most 64 frames deep, when the error is built |
| Exceptions.NoItemWhat | include/Exceptions.hpp:31-35 | `YangError::what` is exactly "[No YANG ctx Available]: " + message + "\nStack trace:\n" + trace, and `YangDataError::what` without an error item is the same text without the prefix |
| Exceptions.Int32Of | include/Exceptions.hpp:164-167 | `static_cast<int>` of the item's line is its value modulo 2^32 in the signed range |
| Exceptions.DataDetails | include/Exceptions.hpp:146-174 | each field comes from the error item when it has one, else from the base defaults (libyang's last message, empty paths and tag, line -1); the module and expression are always empty |
| Exceptions.SectionsPresent | include/Exceptions.hpp:119-136 | each section appears iff its text is non-empty; "Line" appears iff the line is at least 0 |
| Exceptions.DataErrorSections | include/Exceptions.hpp:109-141 | the message is the error, the sections and then the trace; there is never a "[module] " prefix or an "Expr" section, and each other section appears iff the item supplies it |
| Exceptions.LargeLineHidden | include/Exceptions.hpp:164-166 | a line in [2^31, 2^32) wraps negative, so its "Line" section is omitted |
| Exceptions.DataWhatNonEmpty | include/Exceptions.hpp:136 | the message is never empty, so an empty buffer always means not yet built |
| Exceptions.YangDataError.constructor | include/Exceptions.hpp:104-106 | the error item is the one captured, the trace is captured, and the message buffer is empty |
| Exceptions.YangDataError.What | include/Exceptions.hpp:109-141 | the first call builds the message into the buffer; every later call returns that same text, whatever libyang's last message has become |

## Left out

- libyang is not modelled. Its tree is `YangTree.Node`, and `lyd_new_path` is the write log with `Build` as its interpretation. `lyd_parse_data_mem`, `lyd_validate_all` and `ly_ctx_load_module` are oracle parameters. Whether a path is accepted is the `accepts` oracle in the network-instance serializer and the `rootOk` flag for the root creation in the other serializers, which assume their later writes succeed. Schema existence and type validation of values are not modelled.
- `lyd_free_all` and memory ownership of C trees: freeing is recorded only as the `freed` field of `ExtData.Outcome`.
- The `fprintf` diagnostics and `debug_print_ext_data_tree` are output only.
- `std::filesystem` checks become the `isDir` parameter. `backtrace`, `backtrace_symbols` and `__cxa_demangle` become the frame list, a symbols-available flag and the `demangle` parameter.
- The thread-local recursion guard is one field of `ExtData.ExtDataCallback`, because concurrency is not modelled. The calls libyang makes back into the callback during a parse are the `reentries` parameter.
- The `void*` overload of `extDataCallback` (include/IetfNetworkInstance.hpp:81-82) is declared but never defined.
- `yang::kDefaultSearchPaths` and `yang::kDefaultModules` are the `candidates` and `modules` parameters of `Yang.Yang.GetDefaultContext`. Their header is not part of this model. Per-module features are passed as null in the code and are not modelled.
- Yang.Yang.GetDefaultContext: the raw-context null check (src/Yang.cpp:46-49) cannot fire once construction succeeded. A failed `ly_ctx_new` is the `creates` parameter of `GetContext`.
- Exceptions.NoItemWhat: `YangError::what` writes into one static buffer shared by all instances and threads. The model states its text only.
- `ModuleIteratorStopError` and the terminate handler with its installer (include/Exceptions.hpp:181-197) are process-level plumbing.
- `std::string(nullptr)` for a missing libyang log message is not modelled: the last message is a string parameter.
- Numeric.StoI: the scan accepts leading spaces, a sign and trailing text as `std::stoi` does. The contract pins the value only for non-negative inputs in range, and out-of-range values fail.
- Numeric.StoUL: as for `StoI`. `std::stoul` negating a negative input is not pinned down by the contract.
- IetfInterfaces.RoundTrip: it needs distinct interface names and distinct address ips in each family, because each write designates its entry by those keys. Keys are inserted verbatim into the path predicates, and quoting is not modelled.
- The interface `mtu`, `speed`, `link-up-down-trap-enable` and statistics counters are never read or written by the code. The model keeps them as members only.
- IetfIp.Ipv4RoundTrip: it needs distinct address ips and distinct neighbor ips. The operational `origin` is never written, so it is not recovered.
- IetfIp.IetfIpv4.Serialize: the placeholder interface `__tmp_if__` that the container is created under is not part of the returned container. The failure of any of the three creation writes is the one `rootOk` flag.
- IetfIp.IetfIpv6.Serialize: `/ietf-ip:ipv6` is an augment of the interface entry, and `src/IetfIp.cpp:133` creates it as a top-level node, which libyang may refuse on every input (the IPv4 serializer builds a placeholder interface for that reason). Schema resolution is not modelled, so the model leaves this to `rootOk`; `Ipv6RoundTrip` describes the run in which the creation succeeds.
- IetfRouting.RoundTrip: routes are written as keyless entries carrying only their preference. Next hops, route metadata and `default-rib` are never written, so they come back as their defaults.
- IetfNetworkInstance.IetfNetworkInstances.Serialize: a failure to create the root is the `rootOk` parameter. The routing and interfaces sub-models are never written by the code. Which paths libyang resolves below the root is the `InSchema` predicate, a path whose first step is the `network-instance` list; the rest of the schema is not modelled.
- The sub-deserializers called from a mount point are given the document's top-level nodes for their absolute-path lookups, as libyang would search the whole tree.
- `instances_` holds move-only values. It is modelled as a sequence of values, because no instance is ever shared, and the objects themselves are modelled by `NetworkInstance`.
- `lyd_validate_all` may add default nodes to the ext-data tree. The model hands back the tree unchanged.
- The tests that reference APIs absent from the code (`getInterfacesInfo`, the routing `interfaces` expectations, `ensureYangLibraryImplemented`) are not used.

## Findings

| source | as written | input that shows it | evidently intended | confidence | as-written member | corrected member |
|---|---|---|---|---|---|---|
| src/IetfNetworkInstance.cpp:86-87 | each write below the `network-instances` root starts its path with `network-instances/` again, naming a child that container does not have | one instance named "A": the first write `network-instances/network-instance[name='A']/name` does not resolve below the root, so serialize frees the root and returns null; where such writes were carried out, the entries would land in a nested container and read back as no instances | paths relative to the root, `network-instance[name='A']/...`, so that the serialized tree reads back as the instances | high; not executed | IetfNetworkInstance.AsWrittenRefused | IetfNetworkInstance.RoundTrip |
