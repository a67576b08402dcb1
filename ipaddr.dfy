/**
 * IPv4 addresses as byte sequences: parsing of dotted-decimal literals and of
 * CIDR networks (prefix notation, section 3.1 of RFC 4632), prefix containment,
 * and the in-place address increment used to walk a network.
 */
module IpAddr {
  import opened Wrappers
  import opened Decimal
  import Strings
  import opened Bytes

  /** One dotted-decimal field: one to three digits, no leading zero, at most 255. */
  predicate IsOctet(f: string)
  {
    && 0 < |f| <= 3
    && (forall i :: 0 <= i < |f| ==> IsDigit(f[i]))
    && (|f| > 1 ==> f[0] != '0')
    && DigitsValue(f) <= 255
  }

  /** The address named by a dotted-decimal literal, or None for any other string. */
  function ParseIPv4(s: string): (r: Option<seq<byte>>)
    ensures r.Some? ==> |r.value| == 4
  {
    var fields := Strings.Split(s, '.');
    if |fields| == 4 && forall i :: 0 <= i < 4 ==> IsOctet(fields[i]) then
      Some(seq(4, i requires 0 <= i < 4 => DigitsValue(fields[i]) as byte))
    else None
  }

  function FormatIPv4(ip: seq<byte>): string
    requires |ip| == 4
  {
    Strings.Join(seq(4, i requires 0 <= i < 4 => NatDigits(ip[i])), '.')
  }

  /** Every four-byte address has a literal that parses back to it. */
  lemma ParseFormat(ip: seq<byte>)
    requires |ip| == 4
    ensures ParseIPv4(FormatIPv4(ip)) == Some(ip)
  {
    var parts := seq(4, i requires 0 <= i < 4 => NatDigits(ip[i]));
    forall i | 0 <= i < 4
      ensures Strings.NoSep(parts[i], '.') && IsOctet(parts[i]) && DigitsValue(parts[i]) == ip[i]
    {
      NatDigitsBelow1000(ip[i]);
      NatDigitsValue(ip[i]);
    }
    Strings.SplitJoin(parts, '.');
    assert seq(4, i requires 0 <= i < 4 => DigitsValue(parts[i]) as byte) == ip;
  }

  /** A literal that parses is the canonical rendering of its address. */
  lemma FormatParse(s: string)
    requires ParseIPv4(s).Some?
    ensures FormatIPv4(ParseIPv4(s).value) == s
  {
    var fields := Strings.Split(s, '.');
    var ip := ParseIPv4(s).value;
    forall i | 0 <= i < 4
      ensures NatDigits(ip[i]) == fields[i]
    {
      NatDigitsOfValue(fields[i]);
    }
    assert seq(4, i requires 0 <= i < 4 => NatDigits(ip[i])) == fields;
    Strings.JoinSplit(s, '.');
  }

  /** A network: a base address and the number of leading bits that identify it. */
  datatype Network = Network(base: seq<byte>, prefixLen: nat)

  /** net.ParseCIDR on an IPv4 literal: "a.b.c.d/n" with 0 <= n <= 32. */
  function ParseCIDR(s: string): (r: Option<Network>)
    ensures r.Some? ==> |r.value.base| == 4 && r.value.prefixLen <= 32
  {
    var parts := Strings.Split(s, '/');
    if |parts| == 2 && ParseIPv4(parts[0]).Some? && 0 < |parts[1]|
       && (forall i :: 0 <= i < |parts[1]| ==> IsDigit(parts[1][i]))
       && DigitsValue(parts[1]) <= 32
    then Some(Network(ParseIPv4(parts[0]).value, DigitsValue(parts[1])))
    else None
  }

  function Pow2(k: nat): (r: nat)
    ensures r > 0
  {
    if k == 0 then 1 else 2 * Pow2(k - 1)
  }

  /** Bit i of an address, counting from the most significant bit of its first byte. */
  function Bit(ip: seq<byte>, i: nat): int
    requires i < 8 * |ip|
  {
    (ip[i / 8] / Pow2(7 - i % 8)) % 2
  }

  /** The address lies in the network: same length, and its first prefixLen bits are the base's. */
  predicate Contains(n: Network, ip: seq<byte>)
  {
    && |ip| == |n.base|
    && n.prefixLen <= 8 * |ip|
    && forall i :: 0 <= i < n.prefixLen ==> Bit(n.base, i) == Bit(ip, i)
  }

  /** For a whole-octet prefix, agreeing on the leading prefixLen/8 bytes is enough. */
  lemma ContainsByOctets(n: Network, ip: seq<byte>)
    requires |ip| == |n.base| && n.prefixLen <= 8 * |ip| && n.prefixLen % 8 == 0
    requires n.base[..n.prefixLen / 8] == ip[..n.prefixLen / 8]
    ensures Contains(n, ip)
  {
    forall i | 0 <= i < n.prefixLen
      ensures Bit(n.base, i) == Bit(ip, i)
    {
      assert i / 8 < n.prefixLen / 8;
      assert n.base[i / 8] == n.base[..n.prefixLen / 8][i / 8];
    }
  }

  /** Big-endian value of a byte sequence. */
  function Value(s: seq<byte>): nat
  {
    if |s| == 0 then 0 else Value(s[..|s| - 1]) * 256 + s[|s| - 1]
  }

  function Pow256(n: nat): (r: nat)
    ensures r > 0
  {
    if n == 0 then 1 else 256 * Pow256(n - 1)
  }

  lemma {:induction false} ValueBound(s: seq<byte>)
    ensures Value(s) < Pow256(|s|)
    decreases |s|
  {
    if |s| > 0 {
      ValueBound(s[..|s| - 1]);
    }
  }

  /** The address after ip, with carry into higher bytes and wrap-around at the top. */
  function Incremented(s: seq<byte>): (r: seq<byte>)
    ensures |r| == |s|
  {
    if |s| == 0 then []
    else if s[|s| - 1] < 255 then s[..|s| - 1] + [s[|s| - 1] + 1]
    else Incremented(s[..|s| - 1]) + [0]
  }

  lemma ModBelow(a: int, m: int)
    requires 0 <= a < m
    ensures a % m == a
  {
  }

  lemma ModSelf(m: int)
    requires m > 0
    ensures m % m == 0
  {
  }

  /** Incrementing adds one, or gives zero when every byte was 255. */
  lemma {:induction false} IncrementedExact(s: seq<byte>)
    ensures Value(s) + 1 < Pow256(|s|) ==> Value(Incremented(s)) == Value(s) + 1
    ensures Value(s) + 1 >= Pow256(|s|) ==> Value(Incremented(s)) == 0
    decreases |s|
  {
    if |s| > 0 {
      var p := s[..|s| - 1];
      var x := s[|s| - 1];
      var r := Incremented(s);
      ValueBound(p);
      if x < 255 {
        assert r[..|r| - 1] == p;
      } else {
        assert r[..|r| - 1] == Incremented(p);
        IncrementedExact(p);
      }
    }
  }

  /** Incrementing adds one to the big-endian value, modulo 256 to the length. */
  lemma {:induction false} IncrementedValue(s: seq<byte>)
    ensures Value(Incremented(s)) == (Value(s) + 1) % Pow256(|s|)
  {
    IncrementedExact(s);
    ValueBound(s);
    var v, m := Value(s), Pow256(|s|);
    if v + 1 < m {
      ModBelow(v + 1, m);
    } else {
      ModSelf(v + 1);
    }
  }

  /** The loop state of Inc: bytes above j are final, bytes up to j untouched. */
  ghost predicate IncState(was: seq<byte>, cur: seq<byte>, j: int)
  {
    && -1 <= j < |cur| == |was|
    && cur[..j + 1] == was[..j + 1]
    && Incremented(was) == Incremented(was[..j + 1]) + cur[j + 1..]
  }

  lemma IncStart(was: seq<byte>)
    ensures IncState(was, was, |was| - 1)
  {
    assert was[..|was|] == was;
  }

  /** A byte of 255 wraps to zero and the carry moves one byte up. */
  lemma IncCarry(was: seq<byte>, cur: seq<byte>, j: int)
    requires IncState(was, cur, j) && j >= 0 && cur[j] == 255
    ensures IncState(was, cur[j := 0], j - 1)
  {
    var next := cur[j := 0];
    assert was[..j + 1][..j] == was[..j];
    assert was[..j + 1] == was[..j] + [255];
    assert next[j..] == [0] + cur[j + 1..];
    assert next[..j] == cur[..j];
  }

  /** A byte below 255 absorbs the carry, and the increment is complete. */
  lemma IncAbsorb(was: seq<byte>, cur: seq<byte>, j: int)
    requires IncState(was, cur, j) && j >= 0 && cur[j] < 255
    ensures cur[j := cur[j] + 1] == Incremented(was)
  {
    var next := cur[j := cur[j] + 1];
    assert was[..j + 1][..j] == was[..j];
    assert was[..j + 1] == was[..j] + [cur[j]];
    assert next == cur[..j] + [cur[j] + 1] + cur[j + 1..];
  }

  lemma IncExhausted(was: seq<byte>, cur: seq<byte>)
    requires IncState(was, cur, -1)
    ensures cur == Incremented(was)
  {
    assert was[..0] == [] && cur[0..] == cur;
  }

  /** The in-place increment of a net.IP (its byte slice) with carry. */
  method Inc(ip: array<byte>)
    modifies ip
    ensures ip[..] == Incremented(old(ip[..]))
  {
    ghost var was := ip[..];
    IncStart(was);
    var j := ip.Length - 1;
    while j >= 0
      invariant IncState(was, ip[..], j)
    {
      ghost var cur := ip[..];
      ip[j] := (ip[j] as int + 1) % 256;
      if ip[j] > 0 {
        IncAbsorb(was, cur, j);
        assert ip[..] == cur[j := cur[j] + 1];
        return;
      }
      IncCarry(was, cur, j);
      assert ip[..] == cur[j := 0];
      j := j - 1;
    }
    IncExhausted(was, ip[..]);
  }
}
