/**
 * The cluster IP-family classifier: a list of address strings is parsed and folded
 * into an IPv4-only, IPv6-only or dual-stack descriptor.
 *
 * Text-to-address parsing is the standard library's bare-address parser; it is not
 * modelled and enters every operation as the parameter `parse`. A prefix such as
 * "10.0.0.0/16" is not a bare address, so that parser rejects it.
 */
module IPFamily {
  import opened Wrappers
  import opened Lib

  datatype Ipv4Addr = Ipv4Addr(bits: bv32)
  datatype Ipv6Addr = Ipv6Addr(bits: bv128)
  datatype IpAddr = V4(v4: Ipv4Addr) | V6(v6: Ipv6Addr)

  /** A text-to-address parser: `None` for a string that is not an address. */
  type AddrParser = string -> Option<IpAddr>

  datatype ClusterIPFamily =
    | IPv4IPFamily(v4s: seq<Ipv4Addr>)
    | IPv6IPFamily(v6s: seq<Ipv6Addr>)
    | DualStackIPFamily(addrs: seq<IpAddr>)

  /** The family a cluster without configured ranges falls back to. */
  function Default(): (r: ClusterIPFamily)
    ensures r.IPv4IPFamily? && Addresses(r) == [] && Grouped(r)
  {
    IPv4IPFamily([])
  }

  predicate AllV4(ips: seq<IpAddr>) {
    forall i | 0 <= i < |ips| :: ips[i].V4?
  }

  predicate AllV6(ips: seq<IpAddr>) {
    forall i | 0 <= i < |ips| :: ips[i].V6?
  }

  /** The addresses a family holds, in order, as general addresses. */
  function Addresses(f: ClusterIPFamily): (r: seq<IpAddr>)
  {
    match f
    case IPv4IPFamily(v4s) => seq(|v4s|, i requires 0 <= i < |v4s| => V4(v4s[i]))
    case IPv6IPFamily(v6s) => seq(|v6s|, i requires 0 <= i < |v6s| => V6(v6s[i]))
    case DualStackIPFamily(addrs) => addrs
  }

  /** The IPv4 addresses of `ips`, in order (the `filter_map` keeping `V4`). */
  function V4s(ips: seq<IpAddr>): (r: seq<Ipv4Addr>)
    ensures AllV4(ips) ==> |r| == |ips|
    ensures AllV4(ips) ==> forall i | 0 <= i < |ips| :: ips[i] == V4(r[i])
  {
    if ips == [] then []
    else
      assert AllV4(ips) ==> AllV4(ips[1..]) by {
        forall i | 0 <= i < |ips[1..]| ensures ips[1..][i] == ips[i + 1] { }
      }
      match ips[0]
      case V4(a) => [a] + V4s(ips[1..])
      case V6(_) => V4s(ips[1..])
  }

  /** The IPv6 addresses of `ips`, in order (the `filter_map` keeping `V6`). */
  function V6s(ips: seq<IpAddr>): (r: seq<Ipv6Addr>)
    ensures AllV6(ips) ==> |r| == |ips|
    ensures AllV6(ips) ==> forall i | 0 <= i < |ips| :: ips[i] == V6(r[i])
  {
    if ips == [] then []
    else
      assert AllV6(ips) ==> AllV6(ips[1..]) by {
        forall i | 0 <= i < |ips[1..]| ensures ips[1..][i] == ips[i + 1] { }
      }
      match ips[0]
      case V6(a) => [a] + V6s(ips[1..])
      case V4(_) => V6s(ips[1..])
  }

  /** A family `Group` can produce: an IPv6 family is never empty (the empty list is
      IPv4), and a dual-stack family really mixes both kinds. */
  predicate Grouped(f: ClusterIPFamily) {
    match f
    case IPv4IPFamily(_) => true
    case IPv6IPFamily(v6s) => |v6s| > 0
    case DualStackIPFamily(addrs) => !AllV4(addrs) && !AllV6(addrs)
  }

  /** Folds parsed addresses into a family: all-IPv4 wins (so the empty list is IPv4),
      then all-IPv6, and anything else is dual-stack with the list as given. */
  function Group(ips: seq<IpAddr>): (r: ClusterIPFamily)
    ensures r.IPv4IPFamily? <==> AllV4(ips)
    ensures r.IPv6IPFamily? <==> !AllV4(ips) && AllV6(ips)
    ensures r.DualStackIPFamily? ==> r.addrs == ips
    ensures Addresses(r) == ips
    ensures Grouped(r)
    ensures ips == [] ==> r == Default()
  {
    if AllV4(ips) then
      var r := IPv4IPFamily(V4s(ips));
      assert Addresses(r) == ips;
      r
    else if AllV6(ips) then
      var r := IPv6IPFamily(V6s(ips));
      assert Addresses(r) == ips;
      r
    else
      DualStackIPFamily(ips)
  }

  /** Regrouping the addresses of a well-formed family gives it back; with `Group`'s own
      contract this makes `Group` and `Addresses` inverse bijections between address
      lists and well-formed families. */
  lemma GroupAddresses(f: ClusterIPFamily)
    requires Grouped(f)
    ensures Group(Addresses(f)) == f
  {
  }

  /** Parses every string left to right; the first string that does not parse is the
      error, and no partial list is returned. */
  function ParseAll(parse: AddrParser, cidrs: seq<string>): (r: Result<seq<IpAddr>>)
    ensures r.Ok? <==> forall i | 0 <= i < |cidrs| :: parse(cidrs[i]).Some?
    ensures r.Ok? ==> |r.value| == |cidrs|
    ensures r.Ok? ==> forall i | 0 <= i < |cidrs| :: parse(cidrs[i]) == Some(r.value[i])
    ensures r.Err? ==> exists k | 0 <= k < |cidrs| :: FirstUnparsable(parse, cidrs, k)
                        && r.error == IPFamilyUnknown(AddrParseError(cidrs[k]))
  {
    if cidrs == [] then Ok([])
    else match parse(cidrs[0])
      case None =>
        assert FirstUnparsable(parse, cidrs, 0);
        Err(IPFamilyUnknown(AddrParseError(cidrs[0])))
      case Some(a) =>
        var rest := ParseAll(parse, cidrs[1..]);
        if rest.Err? then
          var k :| 0 <= k < |cidrs[1..]| && FirstUnparsable(parse, cidrs[1..], k)
                   && rest.error == IPFamilyUnknown(AddrParseError(cidrs[1..][k]));
          assert FirstUnparsable(parse, cidrs, k + 1);
          Err(rest.error)
        else
          assert forall i | 1 <= i < |cidrs| :: cidrs[i] == cidrs[1..][i - 1];
          Ok([a] + rest.value)
  }

  /** `cidrs[k]` is the first string of `cidrs` that does not parse. */
  predicate FirstUnparsable(parse: AddrParser, cidrs: seq<string>, k: nat)
    requires k < |cidrs|
  {
    && parse(cidrs[k]).None?
    && forall j | 0 <= j < k :: parse(cidrs[j]).Some?
  }

  /** The classifier's constructor: `IPFamilyUnknown` as soon as one string fails to
      parse, otherwise the grouped family of all parsed addresses, in input order. */
  function New(parse: AddrParser, cidrs: seq<string>): (r: Result<ClusterIPFamily>)
    ensures r.Ok? <==> forall i | 0 <= i < |cidrs| :: parse(cidrs[i]).Some?
    ensures r.Err? ==> r.error.IPFamilyUnknown?
    ensures r.Ok? ==> |Addresses(r.value)| == |cidrs|
    ensures r.Ok? ==> forall i | 0 <= i < |cidrs| :: parse(cidrs[i]) == Some(Addresses(r.value)[i])
    ensures r.Ok? ==> Grouped(r.value)
    ensures cidrs == [] ==> r == Ok(Default())
  {
    var ips :- ParseAll(parse, cidrs);
    Ok(Group(ips))
  }

  /** Which family `New` picks is decided by the kinds of the parsed addresses alone. */
  lemma NewFamilyKind(parse: AddrParser, cidrs: seq<string>)
    requires forall i | 0 <= i < |cidrs| :: parse(cidrs[i]).Some?
    ensures New(parse, cidrs).Ok?
    ensures New(parse, cidrs).value.IPv4IPFamily?
        <==> forall i | 0 <= i < |cidrs| :: parse(cidrs[i]).value.V4?
    ensures New(parse, cidrs).value.IPv6IPFamily?
        <==> |cidrs| > 0 && forall i | 0 <= i < |cidrs| :: parse(cidrs[i]).value.V6?
  {
  }
}
