/**
 * Selection of the load-balancer IP from a Gateway's spec.addresses.
 *
 * An address has an optional type and a value; an unset type means IPAddress.
 * The addresses whose effective type is IPAddress are the candidates, and:
 *   - no addresses at all: no IP is requested;
 *   - addresses, but no candidate: error "no valid IP address";
 *   - two or more candidates: error "multiple addresses";
 *   - exactly one candidate: its value, verbatim, when it is an IP literal,
 *     otherwise error "no valid IP address".
 */
module Addresses {
  import opened Wrappers

  /** The Gateway API address types; any other domain-prefixed type is `OtherAddressType`. */
  datatype AddressType =
    | IPAddressType
    | HostnameAddressType
    | NamedAddressType
    | OtherAddressType(name: string)

  /** One entry of a Gateway's spec.addresses: an optional type and a value. */
  datatype GatewayAddress = GatewayAddress(addressType: Option<AddressType>, value: string)

  /** The part of a Gateway that address resolution reads. */
  datatype Gateway = Gateway(name: string, namespace: string, addresses: seq<GatewayAddress>)

  /** The two ways resolution fails. `candidates` is the number of IP-typed addresses seen. */
  datatype AddressError =
    | MultipleAddresses(candidates: nat)
    | NoValidIPAddress

  /** The type an address is treated as: an unset type defaults to IPAddress. */
  function EffectiveType(a: GatewayAddress): (t: AddressType)
    ensures a.addressType.None? ==> t == IPAddressType
    ensures a.addressType.Some? ==> t == a.addressType.value
  {
    a.addressType.GetOr(IPAddressType)
  }

  predicate IsIPTyped(a: GatewayAddress) {
    EffectiveType(a) == IPAddressType
  }

  /** Address `i` is the one and only IP-typed address of `addrs`. */
  predicate SoleIPAddressAt(addrs: seq<GatewayAddress>, i: int) {
    && 0 <= i < |addrs|
    && IsIPTyped(addrs[i])
    && forall j | 0 <= j < |addrs| && j != i :: !IsIPTyped(addrs[j])
  }

  /** At least two distinct entries of `addrs` are IP-typed. */
  predicate TwoIPAddresses(addrs: seq<GatewayAddress>) {
    exists i, j | 0 <= i < j < |addrs| :: IsIPTyped(addrs[i]) && IsIPTyped(addrs[j])
  }

  /** The values of the IP-typed addresses, and nothing else. */
  function IPCandidates(addrs: seq<GatewayAddress>): (r: seq<string>)
    ensures |r| <= |addrs|
    ensures |r| == 0 <==> forall i | 0 <= i < |addrs| :: !IsIPTyped(addrs[i])
    ensures (forall i | 0 <= i < |addrs| :: IsIPTyped(addrs[i])) ==> |r| == |addrs|
    ensures forall k | 0 <= k < |r| :: exists i | 0 <= i < |addrs| :: IsIPTyped(addrs[i]) && addrs[i].value == r[k]
    ensures forall i | 0 <= i < |addrs| && IsIPTyped(addrs[i]) :: addrs[i].value in r
  {
    if addrs == [] then []
    else
      var rest := IPCandidates(addrs[1..]);
      assert forall i | 1 <= i < |addrs| :: addrs[i] == addrs[1..][i - 1];
      if IsIPTyped(addrs[0]) then [addrs[0].value] + rest else rest
  }

  /** Exactly one candidate arises exactly when exactly one address is IP-typed, and it is that address's value. */
  lemma {:induction false} SoleCandidate(addrs: seq<GatewayAddress>)
    ensures |IPCandidates(addrs)| == 1 <==> exists i :: SoleIPAddressAt(addrs, i)
    ensures forall i | SoleIPAddressAt(addrs, i) :: IPCandidates(addrs) == [addrs[i].value]
  {
    if addrs != [] {
      var tail := addrs[1..];
      SoleCandidate(tail);
      assert forall i | 1 <= i < |addrs| :: addrs[i] == tail[i - 1];
      if IsIPTyped(addrs[0]) {
        if |IPCandidates(addrs)| == 1 {
          assert SoleIPAddressAt(addrs, 0);
        }
        forall i | SoleIPAddressAt(addrs, i) ensures i == 0 { }
      } else {
        if |IPCandidates(addrs)| == 1 {
          var i :| SoleIPAddressAt(tail, i);
          assert SoleIPAddressAt(addrs, i + 1);
        }
        forall i | SoleIPAddressAt(addrs, i) ensures SoleIPAddressAt(tail, i - 1) { }
      }
    }
  }

  /** Two or more candidates arise exactly when two distinct addresses are IP-typed. */
  lemma {:induction false} SeveralCandidates(addrs: seq<GatewayAddress>)
    ensures |IPCandidates(addrs)| >= 2 <==> TwoIPAddresses(addrs)
  {
    if addrs != [] {
      var tail := addrs[1..];
      SeveralCandidates(tail);
      assert forall i | 1 <= i < |addrs| :: addrs[i] == tail[i - 1];
      if TwoIPAddresses(tail) {
        var i, j :| 0 <= i < j < |tail| && IsIPTyped(tail[i]) && IsIPTyped(tail[j]);
        assert IsIPTyped(addrs[i + 1]) && IsIPTyped(addrs[j + 1]);
      }
      if TwoIPAddresses(addrs) {
        var i, j :| 0 <= i < j < |addrs| && IsIPTyped(addrs[i]) && IsIPTyped(addrs[j]);
        if i > 0 {
          assert IsIPTyped(tail[i - 1]) && IsIPTyped(tail[j - 1]);
        } else {
          assert IsIPTyped(tail[j - 1]);
        }
      }
    }
  }

  // ---------------------------------------------------------------------------
  // IP literals. The model assumes the production code asks Go's standard IP
  // parser; IPv4 dotted-decimal is written out below, IPv6 text (section 2.2
  // of RFC 4291) is an oracle supplied by the caller.

  predicate IsDigit(c: char) {
    '0' <= c <= '9'
  }

  predicate AllDigits(s: string) {
    forall i | 0 <= i < |s| :: IsDigit(s[i])
  }

  /** The value of a string of decimal digits. */
  function DecimalValue(s: string): nat
    requires AllDigits(s)
  {
    if s == [] then 0 else DecimalValue(s[..|s| - 1]) * 10 + (s[|s| - 1] as int - '0' as int)
  }

  /** The pieces of `s` between occurrences of `sep`; there is always at least one. */
  function Split(s: string, sep: char): (r: seq<string>)
    ensures |r| >= 1
    ensures forall k | 0 <= k < |r| :: sep !in r[k]
  {
    if s == [] then [""]
    else
      var rest := Split(s[1..], sep);
      if s[0] == sep then [""] + rest else [[s[0]] + rest[0]] + rest[1..]
  }

  /** One field of a dotted-decimal address: 1 to 3 digits, at most 255, no leading zero. */
  predicate IsOctet(f: string) {
    && 1 <= |f| <= 3
    && AllDigits(f)
    && (|f| > 1 ==> f[0] != '0')
    && DecimalValue(f) <= 255
  }

  /** An IPv4 address in dotted-decimal form, as Go's IP parser accepts it. */
  predicate IsIPv4Literal(s: string) {
    var fields := Split(s, '.');
    |fields| == 4 && forall k | 0 <= k < 4 :: IsOctet(fields[k])
  }

  /** A string without the separator is a single field. */
  lemma {:induction false} SplitWithoutSeparator(s: string, sep: char)
    requires sep !in s
    ensures Split(s, sep) == [s]
  {
    if s != [] {
      SplitWithoutSeparator(s[1..], sep);
      assert [s[0]] + s[1..] == s;
    }
  }

  /** Splitting `a.b` where `a` has no separator gives `a` followed by the fields of `b`. */
  lemma {:induction false} SplitAfterField(a: string, sep: char, b: string)
    requires sep !in a
    ensures Split(a + [sep] + b, sep) == [a] + Split(b, sep)
  {
    if a == [] {
      assert a + [sep] + b == [sep] + b;
      assert ([sep] + b)[1..] == b;
    } else {
      assert (a + [sep] + b)[1..] == a[1..] + [sep] + b;
      SplitAfterField(a[1..], sep, b);
      assert [a[0]] + a[1..] == a;
    }
  }

  /** The dotted-decimal text `a.b.c.d`. */
  function DottedQuad(a: string, b: string, c: string, d: string): string {
    a + "." + b + "." + c + "." + d
  }

  /** Four octets joined by dots form an IPv4 literal. */
  lemma DottedQuadIsIPv4(a: string, b: string, c: string, d: string)
    requires IsOctet(a) && IsOctet(b) && IsOctet(c) && IsOctet(d)
    ensures IsIPv4Literal(DottedQuad(a, b, c, d))
  {
    assert DottedQuad(a, b, c, d) == a + "." + (b + "." + (c + "." + d));
    SplitWithoutSeparator(d, '.');
    SplitAfterField(c, '.', d);
    SplitAfterField(b, '.', c + "." + d);
    SplitAfterField(a, '.', b + "." + (c + "." + d));
  }

  /** A string without a dot is never an IPv4 literal. */
  lemma NoDotIsNotIPv4(s: string)
    requires '.' !in s
    ensures !IsIPv4Literal(s)
  {
    SplitWithoutSeparator(s, '.');
  }

  /**
   * What the model needs of the IPv6 oracle: every text form of section 2.2
   * of RFC 4291 contains a colon.
   */
  ghost predicate IPv6Oracle(isIPv6: string -> bool) {
    forall s :: isIPv6(s) ==> ':' in s
  }

  /** The IP parser's verdict: an IPv4 or an IPv6 literal. */
  predicate IsIPLiteral(s: string, isIPv6: string -> bool) {
    IsIPv4Literal(s) || isIPv6(s)
  }

  /** A string with neither a dot nor a colon is no IP literal at all. */
  lemma NeitherDotNorColonIsNotIP(s: string, isIPv6: string -> bool)
    requires IPv6Oracle(isIPv6)
    requires '.' !in s && ':' !in s
    ensures !IsIPLiteral(s, isIPv6)
  {
    NoDotIsNotIPv4(s);
  }

  // ---------------------------------------------------------------------------
  // Resolution.

  /** The load-balancer IP requested for a Gateway with addresses `addrs`, or why there is none. */
  function ResolveLoadBalancerIP(addrs: seq<GatewayAddress>, isIPv6: string -> bool): (r: Result<Option<string>, AddressError>)
    // the four outcomes, each one stated on the candidates
    ensures r == Success(None) <==> addrs == []
    ensures (r.Success? && r.value.Some?) <==> |IPCandidates(addrs)| == 1 && IsIPLiteral(IPCandidates(addrs)[0], isIPv6)
    ensures (r.Failure? && r.error.MultipleAddresses?) <==> |IPCandidates(addrs)| >= 2
    ensures r == Failure(NoValidIPAddress) <==>
              addrs != [] && (|IPCandidates(addrs)| == 0 || (|IPCandidates(addrs)| == 1 && !IsIPLiteral(IPCandidates(addrs)[0], isIPv6)))
    // an IP that is requested is an IP literal, taken verbatim from an IP-typed address
    ensures r.Success? && r.value.Some? ==>
              IsIPLiteral(r.value.value, isIPv6) &&
              exists i | 0 <= i < |addrs| :: IsIPTyped(addrs[i]) && addrs[i].value == r.value.value
  {
    var ips := IPCandidates(addrs);
    if |ips| == 0 then
      if |addrs| == 0 then Success(None) else Failure(NoValidIPAddress)
    else if |ips| > 1 then
      Failure(MultipleAddresses(|ips|))
    else if IsIPLiteral(ips[0], isIPv6) then
      Success(Some(ips[0]))
    else
      Failure(NoValidIPAddress)
  }

  /** The error text; only the quoted phrases are part of the contract with callers. */
  function ErrorMessage(e: AddressError): (msg: string)
    ensures e.MultipleAddresses? ==> Contains(msg, "multiple addresses")
    ensures e.NoValidIPAddress? ==> Contains(msg, "no valid IP address")
  {
    match e
    case MultipleAddresses(_) =>
      var phrase := "multiple addresses";
      var msg := phrase + " are not supported for a gateway's load balancer";
      assert phrase <= msg;
      msg
    case NoValidIPAddress =>
      var phrase := "no valid IP address";
      var msg := phrase + " found in the gateway's addresses";
      assert phrase <= msg;
      msg
  }

  /**
   * The outcome of resolution stated on the addresses themselves rather than
   * on the candidate list: each of the four outcomes, in both directions.
   */
  lemma ResolveOutcomes(addrs: seq<GatewayAddress>, isIPv6: string -> bool)
    ensures ResolveLoadBalancerIP(addrs, isIPv6) == Success(None) <==> addrs == []
    ensures (ResolveLoadBalancerIP(addrs, isIPv6).Failure? && ResolveLoadBalancerIP(addrs, isIPv6).error.MultipleAddresses?)
              <==> TwoIPAddresses(addrs)
    ensures forall ip :: ResolveLoadBalancerIP(addrs, isIPv6) == Success(Some(ip))
              <==> exists i :: SoleIPAddressAt(addrs, i) && addrs[i].value == ip && IsIPLiteral(ip, isIPv6)
    ensures ResolveLoadBalancerIP(addrs, isIPv6) == Failure(NoValidIPAddress) <==>
              && addrs != []
              && ((forall i | 0 <= i < |addrs| :: !IsIPTyped(addrs[i])) ||
                  (exists i :: SoleIPAddressAt(addrs, i) && !IsIPLiteral(addrs[i].value, isIPv6)))
  {
    SoleCandidate(addrs);
    SeveralCandidates(addrs);
  }

  /** A list with a single address: the IP when it is IP-typed and an IP literal, otherwise "no valid IP address". */
  lemma SingleAddress(a: GatewayAddress, isIPv6: string -> bool)
    ensures ResolveLoadBalancerIP([a], isIPv6) ==
              if IsIPTyped(a) && IsIPLiteral(a.value, isIPv6) then Success(Some(a.value)) else Failure(NoValidIPAddress)
  {
  }

  /** Lists of IP-typed (or untyped) addresses only: two or more always fail with "multiple addresses". */
  lemma AllIPTypedSeveral(addrs: seq<GatewayAddress>, isIPv6: string -> bool)
    requires |addrs| >= 2
    requires forall i | 0 <= i < |addrs| :: IsIPTyped(addrs[i])
    ensures ResolveLoadBalancerIP(addrs, isIPv6) == Failure(MultipleAddresses(|addrs|))
  {
  }
}
