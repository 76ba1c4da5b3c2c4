/**
 * Which address a request is attributed to: the forwarded-for header read
 * from the right at a configured depth, skipping exempt addresses, or the
 * connection's remote address; and the subnet key derived from it.
 */
module ClientIp {
  import opened Base
  import opened GoStrings

  datatype IpFamily = IPv4 | IPv6

  /** `Header.Get` on a header map keyed by canonical names: the value, or empty. */
  function HeaderGet(header: map<string, string>, name: string): string
  {
    if name in header then header[name] else ""
  }

  function Last<T>(s: seq<T>): T
    requires |s| > 0
  {
    s[|s| - 1]
  }

  function Init<T>(s: seq<T>): seq<T>
    requires |s| > 0
  {
    s[..|s| - 1]
  }

  /** The header's components with surrounding white space trimmed. */
  function Candidates(parts: seq<string>): seq<string>
  {
    seq(|parts|, i requires 0 <= i < |parts| => TrimSpace(parts[i]))
  }

  lemma CandidateAt(parts: seq<string>, i: nat)
    requires i < |parts|
    ensures |Candidates(parts)| == |parts|
    ensures Candidates(parts)[i] == TrimSpace(parts[i])
  {
  }

  /** How many candidates are not exempt. */
  function CountEligible(cands: seq<string>, exempt: string -> bool): nat
  {
    if cands == [] then 0
    else CountEligible(Init(cands), exempt) + (if exempt(Last(cands)) then 0 else 1)
  }

  /**
   * The depth-from-right choice: walking from the last candidate to the
   * first, exempt candidates are skipped, the first `depth` eligible ones
   * are passed over, and the next eligible one is the answer; empty when
   * the candidates run out first (always, for a negative depth).
   */
  function PickFromRight(cands: seq<string>, depth: int, exempt: string -> bool): string
  {
    if cands == [] then ""
    else if exempt(Last(cands)) then PickFromRight(Init(cands), depth, exempt)
    else if depth == 0 then Last(cands)
    else PickFromRight(Init(cands), depth - 1, exempt)
  }

  /** The eligible candidate `i` that has exactly `depth` eligible candidates to its right. */
  predicate ChosenAt(cands: seq<string>, depth: int, exempt: string -> bool, i: int)
  {
    0 <= i < |cands| && !exempt(cands[i]) && CountEligible(cands[i + 1..], exempt) == depth
  }

  /**
   * The choice, stated without the walk: with `depth` in range, the answer
   * is the candidate at the position `ChosenAt` describes; otherwise there
   * is no answer.
   */
  lemma {:induction false} PickFromRightChoosesAtDepth(cands: seq<string>, depth: int, exempt: string -> bool)
    ensures (depth < 0 || depth >= CountEligible(cands, exempt)) ==> PickFromRight(cands, depth, exempt) == ""
    ensures 0 <= depth < CountEligible(cands, exempt) ==>
              exists i :: ChosenAt(cands, depth, exempt, i) && PickFromRight(cands, depth, exempt) == cands[i]
  {
    if cands != [] {
      var n := |cands|;
      var rest := Init(cands);
      var d := if exempt(Last(cands)) then depth else depth - 1;
      if exempt(Last(cands)) || depth != 0 {
        PickFromRightChoosesAtDepth(rest, d, exempt);
        if 0 <= depth < CountEligible(cands, exempt) {
          var i :| ChosenAt(rest, d, exempt, i) && PickFromRight(rest, d, exempt) == rest[i];
          LastCountStep(cands, i, exempt);
          assert ChosenAt(cands, depth, exempt, i);
        }
      } else {
        assert cands[n..] == [];
        assert ChosenAt(cands, depth, exempt, n - 1);
      }
    }
  }

  lemma LastCountStep(cands: seq<string>, i: nat, exempt: string -> bool)
    requires i < |cands| - 1
    ensures CountEligible(cands[i + 1..], exempt)
              == CountEligible(Init(cands)[i + 1..], exempt) + (if exempt(Last(cands)) then 0 else 1)
  {
    assert Init(cands[i + 1..]) == Init(cands)[i + 1..];
  }

  lemma PickStep(cands: seq<string>, i: nat, depth: int, exempt: string -> bool)
    requires i < |cands|
    ensures PickFromRight(cands[..i + 1], depth, exempt)
              == if exempt(cands[i]) then PickFromRight(cands[..i], depth, exempt)
                 else if depth == 0 then cands[i]
                 else PickFromRight(cands[..i], depth - 1, exempt)
  {
    assert Init(cands[..i + 1]) == cands[..i];
  }

  /** The loop of `getClientIP` over the comma-separated header value. */
  method SelectForwarded(headerValue: string, ipDepth: int, exempt: string -> bool) returns (ip: string)
    ensures ip == PickFromRight(Candidates(Split(headerValue, ',')), ipDepth, exempt)
  {
    ip := SelectFromComponents(Split(headerValue, ','), ipDepth, exempt);
  }

  /** The walk from the right over the header's components, trimming each as it goes. */
  method SelectFromComponents(components: seq<string>, ipDepth: int, exempt: string -> bool) returns (ip: string)
    ensures ip == PickFromRight(Candidates(components), ipDepth, exempt)
  {
    ghost var cands := Candidates(components);
    assert |cands| == |components|;
    var depth := ipDepth;
    var i := |components| - 1;
    assert cands[..i + 1] == cands;
    while i >= 0
      invariant -1 <= i < |components|
      invariant PickFromRight(cands[..i + 1], depth, exempt) == PickFromRight(cands, ipDepth, exempt)
      decreases i
    {
      var candidate := TrimSpace(components[i]);
      CandidateAt(components, i);
      PickStep(cands, i, depth, exempt);
      if exempt(candidate) {
        i := i - 1;
        continue;
      }
      if depth == 0 {
        return candidate;
      }
      depth := depth - 1;
      i := i - 1;
    }
    assert cands[..0] == [];
    return "";
  }

  /**
   * `net.SplitHostPort`: the port follows the last colon; the host is
   * everything before it, which may hold no other colon, or, when the
   * address starts with `[`, the text up to the `]` just before that colon.
   * Stray brackets are refused. `None` is the error case.
   */
  function SplitHostPort(hostport: string): (r: Option<(string, string)>)
    ensures r.Some? ==> |hostport| > 0 && ':' !in r.value.1
    ensures r.Some? && hostport[0] != '[' ==> ':' !in r.value.0 && hostport == r.value.0 + ":" + r.value.1
    ensures r.Some? && hostport[0] == '[' ==> hostport == "[" + r.value.0 + "]:" + r.value.1
  {
    var i := LastIndexByte(hostport, ':');
    if i < 0 then None
    else
      var port := hostport[i + 1..];
      assert ':' !in port by {
        forall k | 0 <= k < |port| ensures port[k] != ':' {
          assert port[k] == hostport[i + 1 + k];
        }
      }
      if hostport[0] == '[' then
        var end := IndexByte(hostport, ']');
        if end < 0 || end + 1 != i then None
        else if '[' in hostport[1..] || ']' in hostport[end + 1..] then None
        else
          assert hostport == "[" + hostport[1..end] + "]:" + port;
          Some((hostport[1..end], port))
      else if ':' in hostport[..i] || '[' in hostport || ']' in hostport then None
      else
        assert hostport == hostport[..i] + ":" + port;
        Some((hostport[..i], port))
  }

  /** A host and port without colons or brackets split back into themselves. */
  lemma JoinSplitHostPort(host: string, port: string)
    requires ':' !in host && '[' !in host && ']' !in host
    requires ':' !in port && '[' !in port && ']' !in port
    ensures SplitHostPort(host + ":" + port) == Some((host, port))
  {
    var s := host + ":" + port;
    var i := LastIndexByte(s, ':');
    assert s[|host|] == ':';
    assert forall k :: |host| < k < |s| ==> s[k] == port[k - |host| - 1];
    assert i == |host|;
    assert s[..i] == host && s[i + 1..] == port;
    assert s[0] != '[' by {
      if |host| > 0 { assert s[0] == host[0]; }
    }
    assert '[' !in s && ']' !in s by {
      forall k | 0 <= k < |s| ensures s[k] != '[' && s[k] != ']' {
        if k < |host| { assert s[k] == host[k]; }
        else if k > |host| { assert s[k] == port[k - |host| - 1]; }
      }
    }
  }

  /** A bracketed host (an IPv6 address) with a port, as a remote address is written, splits back into them. */
  lemma JoinSplitBracketedHostPort(host: string, port: string)
    requires '[' !in host && ']' !in host
    requires ':' !in port && '[' !in port && ']' !in port
    ensures SplitHostPort("[" + host + "]:" + port) == Some((host, port))
  {
    var s := "[" + host + "]:" + port;
    var n := |host|;
    assert s[n + 1] == ']' && s[n + 2] == ':';
    var i := LastIndexByte(s, ':');
    assert forall k :: n + 2 < k < |s| ==> s[k] == port[k - n - 3];
    assert i == n + 2;
    var end := IndexByte(s, ']');
    assert forall k :: 1 <= k <= n ==> s[k] == host[k - 1];
    assert end == n + 1;
    assert s[1..end] == host && s[i + 1..] == port;
    assert '[' !in s[1..] by {
      forall k | 1 <= k < |s| ensures s[k] != '[' {
        if k <= n { assert s[k] == host[k - 1]; }
        else if k > n + 2 { assert s[k] == port[k - n - 3]; }
      }
    }
    assert ']' !in s[end + 1..] by {
      forall k | end + 1 <= k < |s| ensures s[k] != ']' {
        if k > n + 2 { assert s[k] == port[k - n - 3]; }
      }
    }
  }

  /** An address shaped like a bare IPv6 address: not bracketed, with two colons or more. */
  predicate BareIpv6(s: string)
  {
    |s| > 0 && s[0] != '[' && exists a, b :: 0 <= a < b < |s| && s[a] == ':' && s[b] == ':'
  }

  /** `net.SplitHostPort` refuses a bare IPv6 address ("too many colons"). */
  lemma BareIpv6DoesNotSplit(s: string)
    requires BareIpv6(s)
    ensures SplitHostPort(s) == None
  {
    var a, b :| 0 <= a < b < |s| && s[a] == ':' && s[b] == ':';
    var i := LastIndexByte(s, ':');
    assert b <= i;
    assert s[..i][a] == ':';
  }

  /**
   * The host `getClientIP` keeps of an address that contains a colon, as the
   * code is written: the host `net.SplitHostPort` returns, which is empty
   * when the split fails.
   */
  function HostAsWritten(ip: string): (h: string)
    ensures ':' !in ip ==> h == ip
    ensures ':' in ip ==> (h == Host(ip) <==> SplitHostPort(ip).Some?)
    ensures ':' in ip && SplitHostPort(ip).None? ==> h == ""
  {
    if ':' in ip then
      match SplitHostPort(ip)
      case Some(hp) => hp.0
      case None => ""
    else ip
  }

  /**
   * The host with its port cut off, keeping an address that carries no port
   * (a bare IPv6 address) whole.
   */
  function Host(ip: string): (h: string)
    ensures SplitHostPort(ip).None? ==> h == ip
    ensures SplitHostPort(ip).Some? ==>
              exists port :: ':' !in port && (ip == h + ":" + port || ip == "[" + h + "]:" + port)
  {
    match SplitHostPort(ip)
    case Some(hp) =>
      assert ':' !in hp.1 && (ip == hp.0 + ":" + hp.1 || ip == "[" + hp.0 + "]:" + hp.1);
      hp.0
    case None => ip
  }

  /**
   * As written, every bare IPv6 address loses its whole text: all clients
   * seen through such an address get the client IP "" and share one key.
   * `Host` keeps them apart.
   */
  lemma BareIpv6KeyCollapses(a: string, b: string)
    requires BareIpv6(a) && BareIpv6(b)
    ensures HostAsWritten(a) == "" && HostAsWritten(b) == ""
    ensures Host(a) == a && Host(b) == b
  {
    BareIpv6DoesNotSplit(a);
    BareIpv6DoesNotSplit(b);
    var x, y :| 0 <= x < y < |a| && a[x] == ':' && a[y] == ':';
    var x', y' :| 0 <= x' < y' < |b| && b[x'] == ':' && b[y'] == ':';
    assert ':' in a && ':' in b;
  }

  /** Two forwarded IPv6 clients, as written, end up as the same (empty) client IP. */
  lemma ForwardedIpv6ClientsMerge()
    ensures HostAsWritten("2001:db8::1") == HostAsWritten("2001:db8::2") == ""
    ensures Host("2001:db8::1") != Host("2001:db8::2")
  {
    var a, b := "2001:db8::1", "2001:db8::2";
    assert a[4] == ':' && a[8] == ':' && b[4] == ':' && b[8] == ':';
    BareIpv6KeyCollapses(a, b);
    assert a[10] != b[10];
  }

  /**
   * The address `getClientIP` settles on before parsing: the forwarded
   * header's candidate that has `ipDepth` non-exempt candidates to its
   * right, when the header is configured and present and that candidate
   * exists and is not empty, else the remote address; then `Host` of it
   * when it contains a colon.
   */
  function ClientAddress(headerName: string, header: map<string, string>, ipDepth: int, remoteAddr: string,
                         exempt: string -> bool): (addr: string)
    ensures var value := HeaderGet(header, headerName);
            var cands := Candidates(Split(value, ','));
            headerName == "" || value == "" || ipDepth < 0 || ipDepth >= CountEligible(cands, exempt) ==>
              addr == HostOf(remoteAddr)
    ensures var value := HeaderGet(header, headerName);
            var cands := Candidates(Split(value, ','));
            headerName != "" && value != "" && 0 <= ipDepth < CountEligible(cands, exempt) ==>
              exists i :: ChosenAt(cands, ipDepth, exempt, i) && addr == HostOf(if cands[i] == "" then remoteAddr else cands[i])
  {
    var value := HeaderGet(header, headerName);
    var cands := Candidates(Split(value, ','));
    PickFromRightChoosesAtDepth(cands, ipDepth, exempt);
    var chosen := if headerName != "" && value != "" then PickFromRight(cands, ipDepth, exempt) else "";
    HostOf(if chosen == "" then remoteAddr else chosen)
  }

  /** The port-stripping step of `getClientIP`: only an address with a colon is split. */
  function HostOf(ip: string): string
  {
    if ':' in ip then Host(ip) else ip
  }

  /**
   * `ParseIp`: the raw address and its subnet key. An address that does not
   * parse is its own key (fail-open); `subnet(ip, family, width)` is the
   * textual form of the address masked to `width` bits.
   */
  function ParseIp(ip: string, parse: string -> Option<IpFamily>, subnet: (string, IpFamily, int) -> string,
                   ipv4Mask: int, ipv6Mask: int): (r: (string, string))
    ensures r.0 == ip
    ensures parse(ip).None? ==> r.1 == ip
    ensures parse(ip) == Some(IPv4) ==> r.1 == subnet(ip, IPv4, ipv4Mask)
    ensures parse(ip) == Some(IPv6) ==> r.1 == subnet(ip, IPv6, ipv6Mask)
  {
    match parse(ip)
    case None => (ip, ip)
    case Some(IPv4) => (ip, subnet(ip, IPv4, ipv4Mask))
    case Some(IPv6) => (ip, subnet(ip, IPv6, ipv6Mask))
  }
}
