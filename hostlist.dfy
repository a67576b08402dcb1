/**
 * Safe and block lists of the defender: exact addresses plus CIDR networks,
 * and the loader's filtering of an already decoded list file.
 */
module HostLists {
  import opened Wrappers
  import opened IpAddr

  /** The decoded JSON list file: {"addresses": [...], "networks": [...]}. */
  datatype HostListFile = HostListFile(ipAddresses: seq<string>, cidrNetworks: seq<string>)

  /** A loaded list: the accepted address literals and the accepted networks. */
  datatype HostList = HostList(ipAddresses: set<string>, ranges: seq<Network>)

  /** Membership: the literal is one of the addresses, or it parses and lies in a network. */
  predicate IsListed(h: HostList, ip: string)
    ensures ip in h.ipAddresses ==> IsListed(h, ip)
    ensures IsListed(h, ip) && ip !in h.ipAddresses ==> ParseIPv4(ip).Some?
  {
    || ip in h.ipAddresses
    || (ParseIPv4(ip).Some? && exists k :: 0 <= k < |h.ranges| && Contains(h.ranges[k], ParseIPv4(ip).value))
  }

  /** A list that may be absent (nil in Go); an absent list lists nothing. */
  predicate Listed(h: Option<HostList>, ip: string)
    ensures h.None? ==> !Listed(h, ip)
    ensures h.Some? ==> (Listed(h, ip) <==> IsListed(h.value, ip))
  {
    h.Some? && IsListed(h.value, ip)
  }

  /** The networks that parse, in file order. */
  function ParsedNetworks(nets: seq<string>): (r: seq<Network>)
    ensures |r| <= |nets|
  {
    if |nets| == 0 then []
    else
      var rest := ParsedNetworks(nets[1..]);
      match ParseCIDR(nets[0])
      case Some(n) => [n] + rest
      case None => rest
  }

  lemma {:induction false} ParsedNetworksAppend(nets: seq<string>, s: string)
    ensures ParsedNetworks(nets + [s])
         == ParsedNetworks(nets) + (if ParseCIDR(s).Some? then [ParseCIDR(s).value] else [])
    decreases |nets|
  {
    if |nets| == 0 {
      assert nets + [s] == [s];
    } else {
      assert (nets + [s])[1..] == nets[1..] + [s];
      ParsedNetworksAppend(nets[1..], s);
    }
  }

  /**
   * The loader after decoding: invalid address literals and invalid networks
   * are dropped; a file whose two arrays are both empty gives no list at all.
   */
  method LoadHostList(f: HostListFile) returns (r: Option<HostList>)
    ensures r.None? <==> |f.ipAddresses| == 0 && |f.cidrNetworks| == 0
    ensures r.Some? ==> r.value.ipAddresses == set a | a in f.ipAddresses && ParseIPv4(a).Some?
    ensures r.Some? ==> r.value.ranges == ParsedNetworks(f.cidrNetworks)
  {
    if |f.ipAddresses| == 0 && |f.cidrNetworks| == 0 {
      return None;
    }
    var addresses: set<string> := {};
    var i := 0;
    while i < |f.ipAddresses|
      invariant 0 <= i <= |f.ipAddresses|
      invariant addresses == set a | a in f.ipAddresses[..i] && ParseIPv4(a).Some?
    {
      var ip := f.ipAddresses[i];
      if ParseIPv4(ip).Some? {
        addresses := addresses + {ip};
      }
      assert f.ipAddresses[..i + 1] == f.ipAddresses[..i] + [ip];
      i := i + 1;
    }
    assert f.ipAddresses[..i] == f.ipAddresses;
    var ranges: seq<Network> := [];
    var j := 0;
    while j < |f.cidrNetworks|
      invariant 0 <= j <= |f.cidrNetworks|
      invariant ranges == ParsedNetworks(f.cidrNetworks[..j])
    {
      var net := f.cidrNetworks[j];
      ParsedNetworksAppend(f.cidrNetworks[..j], net);
      assert f.cidrNetworks[..j + 1] == f.cidrNetworks[..j] + [net];
      match ParseCIDR(net) {
        case Some(n) => ranges := ranges + [n];
        case None =>
      }
      j := j + 1;
    }
    assert f.cidrNetworks[..j] == f.cidrNetworks;
    return Some(HostList(addresses, ranges));
  }

  /** A loaded list never lists a string that is not an address literal. */
  lemma LoadedListsOnlyAddresses(h: HostList, f: HostListFile, ip: string)
    requires h.ipAddresses == set a | a in f.ipAddresses && ParseIPv4(a).Some?
    requires ParseIPv4(ip).None?
    ensures !IsListed(h, ip)
  {
  }

  /** A file of invalid entries only gives a list that is present but lists nothing. */
  lemma {:induction false} InvalidEntriesListNothing(f: HostListFile, h: HostList, ip: string)
    requires forall k :: 0 <= k < |f.ipAddresses| ==> ParseIPv4(f.ipAddresses[k]).None?
    requires forall k :: 0 <= k < |f.cidrNetworks| ==> ParseCIDR(f.cidrNetworks[k]).None?
    requires h.ipAddresses == set a | a in f.ipAddresses && ParseIPv4(a).Some?
    requires h.ranges == ParsedNetworks(f.cidrNetworks)
    ensures !IsListed(h, ip)
  {
    NoValidNetworks(f.cidrNetworks);
  }

  lemma {:induction false} NoValidNetworks(nets: seq<string>)
    requires forall k :: 0 <= k < |nets| ==> ParseCIDR(nets[k]).None?
    ensures ParsedNetworks(nets) == []
    decreases |nets|
  {
    if |nets| > 0 {
      NoValidNetworks(nets[1..]);
    }
  }
}
