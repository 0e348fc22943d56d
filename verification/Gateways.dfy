/**
 When a gateway can be reached, and what its URL tells.
 */
module Gateways {
  import opened Wrappers
  import opened ControlStore
  import opened Platform
  import Text

  // --- Hosts and addresses -----------------------------------------------------------------------

  predicate AllDots(s: string) {
    forall k :: 0 <= k < |s| ==> s[k] == '.'
  }

  /** The same text in lower case. */
  predicate InLower(s: string, low: string) {
    && |s| == |low|
    && forall k :: 0 <= k < |s| ==>
         if 'A' <= s[k] <= 'Z' then 'a' <= low[k] <= 'z' && low[k] - 'a' == s[k] - 'A' else low[k] == s[k]
  }

  /** The address is this core within blanks, and the core without the dots at its end reads as the host. */
  ghost predicate NamedBy(address: string, core: string, n: nat, host: string) {
    && Text.Trims(address, core) && n <= |core| && AllDots(core[n..]) && (n > 0 ==> core[n - 1] != '.')
    && InLower(core[..n], host)
  }

  /** The host an address names: blanks around it, dots behind it and the case of its letters do not matter. */
  ghost predicate NamesHost(address: string, host: string) {
    exists core, n: nat :: NamedBy(address, core, n, host)
  }

  lemma {:induction false} DotsAreStripped(s: string, n: nat)
    requires n <= |s| && AllDots(s[n..]) && (n > 0 ==> s[n - 1] != '.')
    ensures StripDots(s) == s[..n]
    decreases |s|
  {
    if n < |s| {
      var front := s[..|s| - 1];
      assert s[n..][|s| - 1 - n] == s[|s| - 1];
      assert forall k :: 0 <= k < |front[n..]| ==> front[n..][k] == s[n..][k];
      DotsAreStripped(front, n);
      assert front[..n] == s[..n];
    }
  }

  lemma LowerHead(core: string, n: nat, host: string)
    requires n <= |core| && InLower(core[..n], host)
    ensures Text.Lower(core)[..n] == host
  {
    forall k | 0 <= k < n ensures Text.Lower(core)[k] == host[k] {
      assert core[..n][k] == core[k];
    }
  }

  lemma LowerDots(core: string, n: nat)
    requires n <= |core| && AllDots(core[n..]) && (n > 0 ==> core[n - 1] != '.')
    ensures AllDots(Text.Lower(core)[n..]) && (n > 0 ==> Text.Lower(core)[n - 1] != '.')
  {
    forall k | 0 <= k < |core| - n ensures Text.Lower(core)[n..][k] == '.' {
      assert core[n..][k] == core[n + k];
    }
  }

  lemma HostIsRead(address: string, host: string)
    requires NamesHost(address, host)
    ensures StripDots(Text.Lower(Text.Strip(address))) == host
  {
    var core, n: nat :| NamedBy(address, core, n, host);
    Text.TrimsOneWay(address, core);
    LowerDots(core, n);
    DotsAreStripped(Text.Lower(core), n);
    LowerHead(core, n, host);
  }

  /** A host that others can reach: not this machine, and a proper address or name. */
  predicate Reachable(cfg: Config, host: string) {
    && host != "localhost" && host != "0.0.0.0"
    && (cfg.ipKind(host).Ip? ==> !cfg.ipKind(host).loopback && !cfg.ipKind(host).unspecified)
    && (cfg.ipKind(host).NotAnIp? ==> HostnameOk(host))
  }

  /** A gateway has a route iff it runs, is ready, and names a port and a reachable host, however it is written. */
  lemma RoutesLeadToHosts(cfg: Config, g: Snapshot, host: string)
    requires g.address.Some? && g.address.value != "" && NamesHost(g.address.value, host)
    ensures GatewayHasRoute(cfg, g) <==>
            g.state == RJobRunning && g.ready && g.port.Some? && g.port.value != 0 && Reachable(cfg, host)
  {
    HostIsRead(g.address.value, host);
  }

  /** Without an address there is no route. */
  lemma NoRouteWithoutAddress(cfg: Config, g: Snapshot)
    ensures GatewayHasRoute(cfg, g) ==>
              g.address.Some? && g.address.value != "" && exists host :: NamesHost(g.address.value, host)
  {
    if GatewayHasRoute(cfg, g) {
      var host := SomeHost(g.address.value);
    }
  }

  lemma {:induction false} DotsEnd(s: string) returns (n: nat)
    ensures n <= |s| && AllDots(s[n..]) && (n > 0 ==> s[n - 1] != '.')
  {
    if s != "" && s[|s| - 1] == '.' {
      n := DotsEnd(s[..|s| - 1]);
      assert forall k :: 0 <= k < |s[n..]| - 1 ==> s[n..][k] == s[..|s| - 1][n..][k];
    } else {
      n := |s|;
    }
  }

  lemma LowerReads(s: string)
    ensures InLower(s, Text.Lower(s))
  {
  }

  /** Every address names a host. */
  lemma SomeHost(address: string) returns (host: string)
    ensures NamesHost(address, host)
  {
    var core := Text.Strip(address);
    Text.StripTrims(address);
    var n := DotsEnd(core);
    host := Text.Lower(core[..n]);
    LowerReads(core[..n]);
    assert NamedBy(address, core, n, host);
  }

  // --- URLs --------------------------------------------------------------------------------------

  lemma Behind(a: string, p: string, k: nat)
    ensures |a| < k < |a| + 1 + |p| ==> (a + ":" + p)[k] in p
  {
    if |a| < k < |a| + 1 + |p| {
      assert (a + ":" + p)[k] == p[k - |a| - 1];
    }
  }

  lemma LastColon(a: string, p: string, b: string, q: string)
    requires a + ":" + p == b + ":" + q && ':' !in p && ':' !in q
    ensures a == b && p == q
  {
    var s, t := a + ":" + p, b + ":" + q;
    assert s[|a|] == ':' && t[|b|] == ':';
    Behind(a, p, |b|);
    Behind(b, q, |a|);
    assert |a| == |b|;
    assert a == s[..|a|] && b == t[..|b|] && p == s[|a| + 1..] && q == t[|b| + 1..];
  }

  lemma PortsHaveNoColon(port: int)
    ensures ':' !in Text.IntText(port)
  {
    var m: nat := if port < 0 then -port else port;
    assert forall c :: c in Text.NatText(m) ==> Text.IsDigit(c);
  }

  lemma PortsAreRead(p: int, q: int)
    requires Text.IntText(p) == Text.IntText(q)
    ensures p == q
  {
    Text.ReadIntText(p);
    Text.ReadIntText(q);
  }

  lemma {:induction false} SamePrefix(p: string, a: string, b: string)
    requires p + a == p + b
    ensures a == b
  {
    assert (p + a)[|p|..] == a && (p + b)[|p|..] == b;
  }

  lemma Brackets(a: string, b: string)
    requires "[" + a + "]" == "[" + b + "]"
    ensures a == b
  {
    assert ("[" + a + "]")[1..|a| + 1] == a && ("[" + b + "]")[1..|b| + 1] == b;
  }

  /** The host part of a URL: the address, in brackets when it is one of version 6. */
  function HostPart(cfg: Config, address: string): string {
    var kind := cfg.ipKind(address);
    if kind.Ip? && kind.version6 then "[" + address + "]" else address
  }

  lemma UrlParts(cfg: Config, address: string, port: int)
    ensures GatewayUrl(cfg, address, port) ==
            (cfg.scheme + "://") + (HostPart(cfg, address) + ":" + Text.IntText(port))
  {
    var head, host, tail := cfg.scheme + "://", HostPart(cfg, address), Text.IntText(port);
    assert head + host + ":" + tail == head + (host + ":" + tail);
  }

  /** A URL begins with its scheme and ends with its port. */
  lemma UrlsAreWhole(cfg: Config, address: string, port: int)
    ensures var url := GatewayUrl(cfg, address, port);
            cfg.scheme + "://" <= url && exists head :: url == head + ":" + Text.IntText(port)
  {
    UrlParts(cfg, address, port);
    var head := cfg.scheme + "://" + HostPart(cfg, address);
    assert GatewayUrl(cfg, address, port) == head + ":" + Text.IntText(port);
  }

  lemma SameHosts(cfg: Config, a: string, b: string)
    requires HostPart(cfg, a) == HostPart(cfg, b)
    ensures a == b || "[" + a + "]" == b || a == "[" + b + "]"
  {
    if HostPart(cfg, a) != a && HostPart(cfg, b) != b {
      Brackets(a, b);
    }
  }

  /** URLs tell gateways apart: equal URLs have equal ports, and addresses that differ in brackets at most. */
  lemma UrlsTellGateways(cfg: Config, a: string, p: int, b: string, q: int)
    requires GatewayUrl(cfg, a, p) == GatewayUrl(cfg, b, q)
    ensures p == q && (a == b || "[" + a + "]" == b || a == "[" + b + "]")
  {
    UrlParts(cfg, a, p);
    UrlParts(cfg, b, q);
    SamePrefix(cfg.scheme + "://", HostPart(cfg, a) + ":" + Text.IntText(p), HostPart(cfg, b) + ":" + Text.IntText(q));
    PortsHaveNoColon(p);
    PortsHaveNoColon(q);
    LastColon(HostPart(cfg, a), Text.IntText(p), HostPart(cfg, b), Text.IntText(q));
    PortsAreRead(p, q);
    SameHosts(cfg, a, b);
  }
}
