/**
 * The dashboard commands of `cfurl` and the resolver that maps each of them to
 * the dashboard URL it opens. The resolver is a total function: once a command
 * has been parsed it has exactly one URL and no error path.
 */
module Commands {

  import opened Wrappers
  import opened Urls

  /**
   * One constructor per subcommand. Zone-scoped commands carry the zone name,
   * account resources an optional resource name, `Security` an optional
   * section. `Logs` calls its optional zone `logZone` because every other
   * `zone` field is a plain string.
   */
  datatype Command =
    | Dns(zone: string)
    | Workers(name: Option<string>)
    | Pages(name: Option<string>)
    | R2(bucket: Option<string>)
    | D1(database: Option<string>)
    | Kv(namespace: Option<string>)
    | Analytics(zone: string)
    | Security(zone: string, section: Option<string>)
    | Ssl(zone: string)
    | Caching(zone: string)
    | Rules(zone: string)
    | Speed(zone: string)
    | Email(zone: string)
    | Spectrum(zone: string)
    | Network(zone: string)
    | Traffic(zone: string)
    | Scrape(zone: string)
    | ZeroTrust
    | Access
    | Tunnels
    | Stream
    | Images
    | Queues
    | Ai
    | Vectorize
    | Hyperdrive
    | DurableObjects
    | Account
    | Billing
    | AuditLog
    | ApiTokens
    | Registrar
    | Turnstile
    | Zaraz(zone: string)
    | WebAnalytics
    | Logs(logZone: Option<string>)
    | Zone(zone: string)
    | Dash

  /** The sections of the security page that have a page of their own. */
  const SecuritySections: set<string> := {"waf", "events", "ddos", "bots"}

  /** The destination of the bare API-tokens command, outside the account tree. */
  const ApiTokensUrl: string := DashBase + "/profile/api-tokens"

  /**
   * The security page for an optional section: a known section gets its own
   * sub-page, any other section and no section fall back to the security
   * overview.
   */
  function SecurityPath(section: Option<string>): (p: string)
    ensures p == if section.Some? && section.value in SecuritySections
                 then "security/" + section.value
                 else "security"
  {
    match section
    case Some("waf") => "security/waf"
    case Some("events") => "security/events"
    case Some("ddos") => "security/ddos"
    case Some("bots") => "security/bots"
    case _ => "security"
  }

  /** The zone a command is scoped to, if it is zone-scoped. */
  function ZoneOf(c: Command): Option<string>
  {
    match c
    case Dns(z) => Some(z)
    case Analytics(z) => Some(z)
    case Security(z, _) => Some(z)
    case Ssl(z) => Some(z)
    case Caching(z) => Some(z)
    case Rules(z) => Some(z)
    case Speed(z) => Some(z)
    case Email(z) => Some(z)
    case Spectrum(z) => Some(z)
    case Network(z) => Some(z)
    case Traffic(z) => Some(z)
    case Scrape(z) => Some(z)
    case Zaraz(z) => Some(z)
    case Zone(z) => Some(z)
    case Logs(oz) => oz
    case _ => None
  }

  /** The URL a command opens (the `match` of `main`). */
  function Resolve(c: Command): (url: string)
    ensures DashBase <= url
    ensures !(c.Dash? || c.ApiTokens?) ==> AccountRoot <= url
  {
    match c
    case Dns(zone) => ZoneUrl(zone, "dns")
    case Analytics(zone) => ZoneUrl(zone, "analytics")
    case Security(zone, section) => ZoneUrl(zone, SecurityPath(section))
    case Ssl(zone) => ZoneUrl(zone, "ssl-tls")
    case Caching(zone) => ZoneUrl(zone, "caching")
    case Rules(zone) => ZoneUrl(zone, "rules")
    case Speed(zone) => ZoneUrl(zone, "speed")
    case Email(zone) => ZoneUrl(zone, "email")
    case Spectrum(zone) => ZoneUrl(zone, "spectrum")
    case Network(zone) => ZoneUrl(zone, "network")
    case Traffic(zone) => ZoneUrl(zone, "traffic")
    case Scrape(zone) => ZoneUrl(zone, "content-protection")
    case Zaraz(zone) => ZoneUrl(zone, "zaraz")
    case Zone(zone) => ZoneUrl(zone, "")
    case Logs(Some(zone)) => ZoneUrl(zone, "analytics/logs")

    case Workers(name) =>
      if name.None? then AccountUrl("workers-and-pages")
      else AccountUrl("workers/services/view/" + name.value)
    case Pages(name) =>
      if name.None? then AccountUrl("workers-and-pages")
      else AccountUrl("pages/view/" + name.value)
    case R2(bucket) =>
      if bucket.None? then AccountUrl("r2")
      else AccountUrl("r2/default/buckets/" + bucket.value)
    case D1(database) =>
      if database.None? then AccountUrl("workers/d1")
      else AccountUrl("workers/d1/databases/" + database.value)
    case Kv(namespace) =>
      if namespace.None? then AccountUrl("workers/kv")
      else AccountUrl("workers/kv/namespaces/" + namespace.value)
    case ZeroTrust => AccountUrl("access")
    case Access => AccountUrl("access")
    case Tunnels => AccountUrl("access/tunnels")
    case Stream => AccountUrl("stream")
    case Images => AccountUrl("images")
    case Queues => AccountUrl("queues")
    case Ai => AccountUrl("ai")
    case Vectorize => AccountUrl("vectorize")
    case Hyperdrive => AccountUrl("hyperdrive")
    case DurableObjects => AccountUrl("workers/durable-objects")
    case Account => AccountUrl("")
    case Billing => AccountUrl("billing")
    case AuditLog => AccountUrl("audit-log")
    case ApiTokens => ApiTokensUrl
    case Registrar => AccountUrl("domains")
    case Turnstile => AccountUrl("turnstile")
    case WebAnalytics => AccountUrl("web-analytics")
    case Logs(None) => AccountUrl("logs")
    case Dash => DashBase
  }

}
