/**
 What the RJob platform and the health service report, and the two judgements the
 orchestrator makes about a report: whether a gateway is reachable, and whether a
 controller's results are complete.
 */
module Platform {
  import opened Wrappers
  import opened ControlStore
  import Text

  /** How the IP-address library classifies a host text. */
  datatype IpKind = NotAnIp | Ip(version6: bool, loopback: bool, unspecified: bool)

  datatype Snapshot = Snapshot(
    state: RJobState,
    ready: bool,
    address: Option<string>,
    port: Option<int>,
    summary: map<string, int>)

  datatype Config = Config(
    keepRJobs: bool,
    gatewayReadyTimeout: nat,
    controllerTimeout: nat,
    scheme: string,
    ipKind: string -> IpKind)

  const MAX_HOSTNAME: nat := 253
  const MAX_LABEL: nat := 63

  function StripDots(s: string): string {
    if s != "" && s[|s| - 1] == '.' then StripDots(s[..|s| - 1]) else s
  }

  /** The labels of a host name: its text cut at every dot. */
  function Labels(s: string): (r: seq<string>)
    ensures |r| >= 1
  {
    if s == "" then [""]
    else
      var rest := Labels(s[1..]);
      if s[0] == '.' then [""] + rest else [[s[0]] + rest[0]] + rest[1..]
  }

  predicate LabelOk(part: string) {
    && part != ""
    && |part| <= MAX_LABEL
    && Text.IsAlnum(part[0])
    && Text.IsAlnum(part[|part| - 1])
    && forall c :: c in part ==> Text.IsAlnum(c) || c == '-'
  }

  predicate HostnameOk(hostname: string) {
    |hostname| <= MAX_HOSTNAME && forall part :: part in Labels(hostname) ==> LabelOk(part)
  }

  // Section 2.3.4 of RFC 1035 bounds a label by 63 octets and a name by 255 octets on the wire.
  const MAX_WIRE_NAME: nat := 255

  /** Octets of a name on the wire: each label behind its length, and the root label at the end. */
  function WireLength(labels: seq<string>): nat {
    if labels == [] then 1 else 1 + |labels[0]| + WireLength(labels[1..])
  }

  lemma {:induction false} LabelsFillTheWire(s: string)
    ensures WireLength(Labels(s)) == |s| + 2
  {
    if s == "" {
      assert [""][1..] == [];
    } else {
      LabelsFillTheWire(s[1..]);
      var rest := Labels(s[1..]);
      if s[0] == '.' {
        assert ([""] + rest)[1..] == rest;
      } else {
        assert ([[s[0]] + rest[0]] + rest[1..])[1..] == rest[1..];
      }
    }
  }

  /** A label of 1 to 63 characters, as its length octet allows, between letters or digits. */
  lemma LabelsFitTheWire(part: string)
    ensures LabelOk(part) ==> 0 < |part| < 64 && '.' !in part && '-' !in [part[0], part[|part| - 1]]
    ensures 0 < |part| < 64 && (forall c :: c in part ==> Text.IsAlnum(c)) ==> LabelOk(part)
  {
  }

  /** The limit of 253 characters is exactly the limit of the standard on the encoded name. */
  lemma HostnamesFitTheWire(hostname: string)
    ensures HostnameOk(hostname) <==>
            WireLength(Labels(hostname)) <= MAX_WIRE_NAME && forall part :: part in Labels(hostname) ==> LabelOk(part)
  {
    LabelsFillTheWire(hostname);
  }

  predicate GatewayHasRoute(cfg: Config, g: Snapshot) {
    && g.state == RJobRunning
    && g.ready
    && g.address.Some? && g.address.value != ""
    && g.port.Some? && g.port.value != 0
    && var hostname := StripDots(Text.Lower(Text.Strip(g.address.value)));
       && hostname != "localhost" && hostname != "0.0.0.0"
       && match cfg.ipKind(hostname)
          case Ip(_, loopback, unspecified) => !loopback && !unspecified
          case NotAnIp => HostnameOk(hostname)
  }

  function GatewayUrl(cfg: Config, address: string, port: int): string {
    var kind := cfg.ipKind(address);
    var host := if kind.Ip? && kind.version6 then "[" + address + "]" else address;
    cfg.scheme + "://" + host + ":" + Text.IntText(port)
  }

  /** The URL of a gateway that reports an address and a port. */
  function UrlOf(cfg: Config, g: Snapshot): string {
    if g.address.Some? && g.port.Some? then GatewayUrl(cfg, g.address.value, g.port.value) else ""
  }

  function Entry(summary: map<string, int>, key: string, default: int): int {
    if key in summary then summary[key] else default
  }

  predicate ResultsComplete(binding: Binding, c: Snapshot) {
    || c.summary == map[]
    || (&& "total" in c.summary && c.summary["total"] == binding.totalEpisodes
        && "succeeded" in c.summary && c.summary["succeeded"] == binding.totalEpisodes
        && "collected" in c.summary && c.summary["collected"] == binding.totalEpisodes
        && Entry(c.summary, "failed", 0) == 0
        && Entry(c.summary, "running", 0) == 0)
  }

  function MergeCounts(e: Episodes, summary: map<string, int>): Episodes {
    Episodes(Entry(summary, "total", e.total), Entry(summary, "running", e.running),
             Entry(summary, "succeeded", e.succeeded), Entry(summary, "failed", e.failed),
             Entry(summary, "collected", e.collected))
  }

  /** A count that a report names is taken from it, and any other stays as it was. */
  lemma ReportsOverwriteWhatTheyName(e: Episodes, summary: map<string, int>)
    ensures var m := MergeCounts(e, summary);
            && m.total == (if "total" in summary then summary["total"] else e.total)
            && m.running == (if "running" in summary then summary["running"] else e.running)
            && m.succeeded == (if "succeeded" in summary then summary["succeeded"] else e.succeeded)
            && m.failed == (if "failed" in summary then summary["failed"] else e.failed)
            && m.collected == (if "collected" in summary then summary["collected"] else e.collected)
  {
  }

  /** A report is complete iff, merged into unknown counts, it says that every episode succeeded and none is left. */
  lemma CompleteIffAllCounted(binding: Binding, c: Snapshot)
    ensures var n := binding.totalEpisodes;
            ResultsComplete(binding, c) <==>
              c.summary == map[] || MergeCounts(Episodes(-1, 0, -1, 0, -1), c.summary) == Episodes(n, 0, n, 0, n)
  {
  }

  predicate TimedOut(cfg: Config, job: ControlJob, now: Time) {
    now - job.createdAt > cfg.gatewayReadyTimeout * MICROS_PER_SECOND
  }

  predicate ControllerTimedOut(cfg: Config, job: ControlJob, now: Time) {
    job.startedAt.Some? && now - job.startedAt.value > cfg.controllerTimeout * MICROS_PER_SECOND
  }
}
