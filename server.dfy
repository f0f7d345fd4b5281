/**
  The request gate of the local API server: the client address is read from
  the `x-forwarded-for` header or the socket, IPv4-mapped IPv6 addresses are
  reduced to their IPv4 form, every request is recorded in the activity log,
  and, when whitelisting is on, addresses outside the whitelist are refused.
  Also the settings and uptime views of the dashboard, as values.
*/
module Server {
  import opened Wrappers
  import opened Arith
  import opened Text

  /** The server settings; the defaults apply when no settings file is read. */
  datatype ServerConfig = ServerConfig(ipWhitelist: bool, whitelistedIps: seq<string>, dashboard: bool, port: int)

  const DefaultConfig := ServerConfig(false, [], true, 3000)

  /** `config.Port || 3000`. */
  function ListenPort(cfg: ServerConfig): (p: int)
    ensures cfg.port != 0 ==> p == cfg.port
    ensures cfg.port == 0 ==> p == 3000
  {
    if cfg.port != 0 then cfg.port else 3000
  }

  /** An address as the formatter receives it: a string, or some other value. */
  datatype IpValue = Text(s: string) | NotText(id: nat)

  const MappedPrefix := "::ffff:"

  /** `formatIP`: a string that starts with "::ffff:" loses those seven characters; anything else is returned as it is. */
  function FormatIP(ip: IpValue): (r: IpValue)
    ensures ip.NotText? ==> r == ip
    ensures ip.Text? && |ip.s| >= 7 && ip.s[..7] == MappedPrefix ==> r == Text(ip.s[7..])
    ensures ip.Text? && !(|ip.s| >= 7 && ip.s[..7] == MappedPrefix) ==> r == ip
    ensures r.Text? == ip.Text?
  {
    match ip
    case NotText(_) => ip
    case Text(s) => if |s| >= 7 && s[..7] == MappedPrefix then Text(s[7..]) else ip
  }

  /** An IPv4-mapped address comes out as the address after the prefix. */
  lemma FormatMapped(a: string)
    ensures FormatIP(Text(MappedPrefix + a)) == Text(a)
  {
    assert (MappedPrefix + a)[..7] == MappedPrefix;
    assert (MappedPrefix + a)[7..] == a;
  }

  /** Only the first prefix goes: the formatter is not idempotent. */
  lemma FormatOnce()
    ensures FormatIP(Text("::ffff:::ffff:1")) == Text("::ffff:1")
    ensures FormatIP(FormatIP(Text("::ffff:::ffff:1"))) == Text("1")
  {
    FormatMapped("::ffff:1");
    FormatMapped("1");
    assert MappedPrefix + "::ffff:1" == "::ffff:::ffff:1";
    assert MappedPrefix + "1" == "::ffff:1";
  }

  /** The parts of a request the middleware reads; a missing header or socket address is `None`. */
  datatype Request = Request(forwardedFor: Option<string>, remoteAddress: Option<string>, verb: string, originalUrl: string)

  /** `req.headers["x-forwarded-for"] || req.socket.remoteAddress || ""`. */
  function RawIp(req: Request): (ip: string)
    ensures req.forwardedFor.Some? && req.forwardedFor.value != "" ==> ip == req.forwardedFor.value
    ensures !(req.forwardedFor.Some? && req.forwardedFor.value != "") && req.remoteAddress.Some? ==> ip == req.remoteAddress.value
    ensures ip == "" ==> (req.forwardedFor.None? || req.forwardedFor.value == "") && (req.remoteAddress.None? || req.remoteAddress.value == "")
  {
    if req.forwardedFor.Some? && req.forwardedFor.value != "" then req.forwardedFor.value
    else if req.remoteAddress.Some? && req.remoteAddress.value != "" then req.remoteAddress.value
    else ""
  }

  /** The address the gate checks and the log records. */
  function ClientIp(req: Request): (ip: string)
    ensures FormatIP(Text(RawIp(req))) == Text(ip)
    ensures |ip| <= |RawIp(req)|
  {
    FormatIP(Text(RawIp(req))).s
  }

  /** The fields of one activity-log line: time, method, path and address. */
  datatype LogEntry = LogEntry(timestamp: string, verb: string, path: string, ip: string)

  /** The middleware's verdict: refuse with a status and JSON error, or pass the request on. */
  datatype Verdict = Refused(status: int, error: string) | Next

  /** The whitelist check: refused exactly when whitelisting is on and the address is not listed. */
  function Gate(cfg: ServerConfig, ip: string): (v: Verdict)
    ensures v.Refused? <==> cfg.ipWhitelist && ip !in cfg.whitelistedIps
    ensures v.Refused? ==> v == Refused(403, "Forbidden")
  {
    if cfg.ipWhitelist && ip !in cfg.whitelistedIps then Refused(403, "Forbidden") else Next
  }

  /** With whitelisting off, or for a listed address, every request passes. */
  lemma GateAdmits(cfg: ServerConfig, req: Request)
    requires !cfg.ipWhitelist || ClientIp(req) in cfg.whitelistedIps
    ensures Gate(cfg, ClientIp(req)) == Next
  {
  }

  /** A whitelisted IPv4 address is admitted when it arrives in its IPv4-mapped IPv6 form. */
  lemma MappedAddressAdmitted(cfg: ServerConfig, a: string, req: Request)
    requires a in cfg.whitelistedIps
    requires req.forwardedFor == Some(MappedPrefix + a)
    ensures ClientIp(req) == a
    ensures Gate(cfg, ClientIp(req)) == Next
  {
    FormatMapped(a);
  }

  /** The server process with its settings and its in-memory activity log. */
  class ApiServer {
    const config: ServerConfig
    var activityLog: seq<LogEntry>

    constructor (config: ServerConfig)
      ensures this.config == config && activityLog == []
    {
      this.config := config;
      activityLog := [];
    }

    /**
      The middleware run on every request at `timestamp`: the request is
      logged first, whatever the verdict, and then the gate decides.
    */
    method Handle(req: Request, timestamp: string) returns (v: Verdict)
      modifies this
      ensures activityLog == old(activityLog) + [LogEntry(timestamp, req.verb, req.originalUrl, ClientIp(req))]
      ensures v == Gate(config, ClientIp(req))
    {
      var ip := ClientIp(req);
      activityLog := activityLog + [LogEntry(timestamp, req.verb, req.originalUrl, ip)];
      if config.ipWhitelist && ip !in config.whitelistedIps {
        return Refused(403, "Forbidden");
      }
      v := Next;
    }
  }

  /** `WhitelistedIPs.join(", ") || "None"`. */
  function WhitelistText(ips: seq<string>): (t: string)
    ensures |ips| == 0 || ips == [""] ==> t == "None"
    ensures !(|ips| == 0 || ips == [""]) ==> t == Join(ips, ", ")
    ensures t != ""
  {
    JoinEmptyIff(ips, ", ");
    var j := Join(ips, ", ");
    if j != "" then j else "None"
  }

  /** The uptime split `${days}d ${hours}h ${minutes}m ${seconds}s`. */
  datatype Uptime = Uptime(days: nat, hours: nat, minutes: nat, seconds: nat)

  /** The split of a whole number of seconds into days, hours, minutes and seconds. */
  function UptimeParts(u: nat): (t: Uptime)
    ensures t.days * 86400 + t.hours * 3600 + t.minutes * 60 + t.seconds == u
    ensures t.hours < 24 && t.minutes < 60 && t.seconds < 60
  {
    var t := Uptime(u / (24 * 3600), (u % (24 * 3600)) / 3600, (u % 3600) / 60, u % 60);
    NestedMod(u, 3600, 24);
    NestedMod(u, 60, 60);
    t
  }

  /** The split is the only one within those bounds. */
  lemma UptimeUnique(u: nat, t: Uptime)
    requires t.days * 86400 + t.hours * 3600 + t.minutes * 60 + t.seconds == u
    requires t.hours < 24 && t.minutes < 60 && t.seconds < 60
    ensures t == UptimeParts(u)
  {
    var r := t.hours * 3600 + t.minutes * 60 + t.seconds;
    DivModOfSum(t.days, 86400, r);
    var r2 := t.minutes * 60 + t.seconds;
    DivModOfSum(t.hours, 3600, r2);
    DivModOfSum(t.days * 24 + t.hours, 3600, r2);
    DivModOfSum(t.minutes, 60, t.seconds);
    DivModOfSum(t.days * 1440 + t.hours * 60 + t.minutes, 60, t.seconds);
  }

  /** The uptime line of the performance view. */
  function UptimeText(u: nat): string
  {
    var t := UptimeParts(u);
    NatToString(t.days) + "d " + NatToString(t.hours) + "h " + NatToString(t.minutes) + "m " + NatToString(t.seconds) + "s"
  }
}
