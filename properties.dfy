/**
 * What the resolver promises about the URLs it builds: where they are rooted,
 * where the zone goes, how optional arguments are dispatched, which commands
 * share a destination, and that no argument is lost on the way.
 */
module ResolverProperties {

  import opened Wrappers
  import opened Urls
  import opened Commands

  /** The API-tokens page is not under the redirect-query root. */
  lemma ApiTokensOutsideAccountRoot()
    ensures !(AccountRoot <= ApiTokensUrl)
  {
    assert AccountRoot[|DashBase| + 1] == '?';
    assert ApiTokensUrl[|DashBase| + 1] == 'p';
  }

  /**
   * Every URL starts at the dashboard origin. `Dash` is the origin itself,
   * `ApiTokens` the profile page, and they are the only two commands whose
   * URL is not under the redirect-query root.
   */
  lemma ResolveRoots(c: Command)
    ensures DashBase <= Resolve(c)
    ensures Resolve(c) == DashBase <==> c.Dash?
    ensures Resolve(c) == ApiTokensUrl <==> c.ApiTokens?
    ensures AccountRoot <= Resolve(c) <==> !(c.Dash? || c.ApiTokens?)
  {
    ApiTokensOutsideAccountRoot();
    assert |DashBase| < |AccountRoot|;
  }

  /**
   * The page of a zone-scoped command: the empty page for `Zone`, the page
   * picked by the section for `Security`, a fixed page otherwise.
   */
  function ZonePage(c: Command): (page: string)
    requires ZoneOf(c).Some?
    ensures page == "" <==> c.Zone?
  {
    match c
    case Dns(_) => "dns"
    case Analytics(_) => "analytics"
    case Security(_, section) => SecurityPath(section)
    case Ssl(_) => "ssl-tls"
    case Caching(_) => "caching"
    case Rules(_) => "rules"
    case Speed(_) => "speed"
    case Email(_) => "email"
    case Spectrum(_) => "spectrum"
    case Network(_) => "network"
    case Traffic(_) => "traffic"
    case Scrape(_) => "content-protection"
    case Zaraz(_) => "zaraz"
    case Zone(_) => ""
    case Logs(_) => "analytics/logs"
  }

  /** Every zone-scoped command resolves to the zone URL of its zone and page. */
  lemma ResolveZoneScoped(c: Command)
    requires ZoneOf(c).Some?
    ensures Resolve(c) == ZoneUrl(ZoneOf(c).value, ZonePage(c))
  {
  }

  /**
   * The zone of a zone-scoped command comes right after the redirect-query
   * root and is followed by a slash and the page, except for `Zone`, whose
   * URL ends with the zone itself.
   */
  lemma ZoneSegment(c: Command)
    requires ZoneOf(c).Some?
    ensures !c.Zone? ==> AccountRoot + "/" + ZoneOf(c).value + "/" <= Resolve(c)
    ensures !c.Zone? ==> EndsWith(Resolve(c), "/" + ZoneOf(c).value + "/" + ZonePage(c))
    ensures c.Zone? ==> Resolve(c) == AccountRoot + "/" + c.zone
    ensures c.Zone? ==> EndsWith(Resolve(c), c.zone)
  {
    ResolveZoneScoped(c);
    var url := Resolve(c);
    if c.Zone? {
      assert url == AccountRoot + "/" + c.zone;
      assert url[|url| - |c.zone|..] == c.zone;
    } else {
      ZoneUrlEnds(ZoneOf(c).value, ZonePage(c));
    }
  }

  /** The same command for another zone. */
  function WithZone(c: Command, z: string): (d: Command)
    requires ZoneOf(c).Some?
    ensures ZoneOf(d) == Some(z)
    ensures ZonePage(d) == ZonePage(c)
  {
    if c.Logs? then Logs(Some(z)) else c.(zone := z)
  }

  /** Changing the zone changes nothing else: putting the old zone back restores the command. */
  lemma WithZoneRestores(c: Command, z: string)
    requires ZoneOf(c).Some?
    ensures WithZone(WithZone(c, z), ZoneOf(c).value) == c
  {
  }

  /** A zone-scoped command's URL determines the zone it was given. */
  lemma ResolveDeterminesZone(c: Command, z1: string, z2: string)
    requires ZoneOf(c).Some?
    ensures Resolve(WithZone(c, z1)) == Resolve(WithZone(c, z2)) ==> z1 == z2
  {
    ResolveZoneScoped(WithZone(c, z1));
    ResolveZoneScoped(WithZone(c, z2));
    ZoneUrlInjective(z1, z2, ZonePage(c));
  }

  /** A known security section opens its own sub-page of the zone. */
  lemma SecuritySubpage(zone: string, section: string)
    requires section in SecuritySections
    ensures Resolve(Security(zone, Some(section))) == ZoneUrl(zone, "security/" + section)
  {
    assert Resolve(Security(zone, Some(section))) == ZoneUrl(zone, SecurityPath(Some(section)));
  }

  /**
   * Any other section, and no section, silently falls back to the security
   * overview of the zone: there is no error case.
   */
  lemma SecurityFallback(zone: string, section: Option<string>)
    requires section.None? || section.value !in SecuritySections
    ensures Resolve(Security(zone, section)) == Resolve(Security(zone, None))
    ensures Resolve(Security(zone, section)) == ZoneUrl(zone, "security")
  {
    assert SecurityPath(section) == SecurityPath(None) == "security";
    assert Resolve(Security(zone, section)) == ZoneUrl(zone, SecurityPath(section));
    assert Resolve(Security(zone, None)) == ZoneUrl(zone, SecurityPath(None));
  }

  /** `ZeroTrust` and `Access` are two names for one page. */
  lemma ZeroTrustIsAccess()
    ensures Resolve(ZeroTrust) == Resolve(Access) == AccountUrl("access")
  {
  }

  /** Without a zone, logs are the account's; with one, they are the zone's. */
  lemma LogsDispatch(zone: Option<string>)
    ensures zone.Some? ==> Resolve(Logs(zone)) == ZoneUrl(zone.value, "analytics/logs")
    ensures zone.None? ==> Resolve(Logs(zone)) == AccountUrl("logs")
    ensures Resolve(Logs(zone)) == AccountUrl("logs") <==> zone.None?
  {
    match zone
    case Some(z) =>
      var url := ZoneUrl(z, "analytics/logs");
      assert Resolve(Logs(zone)) == url;
      ZoneUrlShape(z, "analytics/logs");
      AccountUrlShape("logs");
      assert |AccountUrl("logs")| < |url|;
    case None =>
  }

  /** The account resources that take an optional resource name. */
  predicate IsNamedResource(c: Command) {
    c.Workers? || c.Pages? || c.R2? || c.D1? || c.Kv?
  }

  /** The same resource command with resource name `n`. */
  function WithName(c: Command, n: Option<string>): (d: Command)
    requires IsNamedResource(c)
    ensures d.Workers? == c.Workers? && d.Pages? == c.Pages? && d.R2? == c.R2?
    ensures d.D1? == c.D1? && d.Kv? == c.Kv?
    ensures match d
      case Workers(x) => x == n
      case Pages(x) => x == n
      case R2(x) => x == n
      case D1(x) => x == n
      case Kv(x) => x == n
      case _ => false
  {
    match c
    case Workers(_) => Workers(n)
    case Pages(_) => Pages(n)
    case R2(_) => R2(n)
    case D1(_) => D1(n)
    case Kv(_) => Kv(n)
  }

  /** Without a name, Workers and Pages both open the combined overview. */
  lemma WorkersPagesOverview()
    ensures Resolve(Workers(None)) == Resolve(Pages(None)) == AccountUrl("workers-and-pages")
  {
  }

  /**
   * A resource name is put at the end of the URL after a slash, verbatim:
   * the URL is a fixed prefix that does not depend on the name, followed by
   * the name itself; whatever characters it holds, slashes included, the URL
   * ends with it and different names give different URLs.
   */
  lemma NamedResourceVerbatim(c: Command, n: string)
    requires IsNamedResource(c)
    ensures Resolve(WithName(c, Some(n))) == Resolve(WithName(c, Some(""))) + n
    ensures EndsWith(Resolve(WithName(c, Some(n))), "/" + n)
    ensures forall m: string ::
      Resolve(WithName(c, Some(m))) == Resolve(WithName(c, Some(n))) ==> m == n
  {
    var prefix :=
      match c
      case Workers(_) => "workers/services/view/"
      case Pages(_) => "pages/view/"
      case R2(_) => "r2/default/buckets/"
      case D1(_) => "workers/d1/databases/"
      case Kv(_) => "workers/kv/namespaces/";
    forall m: string ensures Resolve(WithName(c, Some(m))) == AccountUrl(prefix + m) {
    }
    assert prefix + "" == prefix;
    AccountUrlAppend(prefix, n);
    AccountUrlLastSegment(prefix, n);
  }

  /**
   * A named R2 bucket, D1 database or KV namespace sits under the page that
   * lists them, and a named resource never opens the overview page.
   */
  lemma NamedResourceUnderOverview(c: Command, n: string)
    requires IsNamedResource(c)
    ensures !(c.Workers? || c.Pages?) ==>
      Resolve(WithName(c, None)) + "/" <= Resolve(WithName(c, Some(n)))
    ensures Resolve(WithName(c, Some(n))) != Resolve(WithName(c, None))
  {
    match c
    case Workers(_) =>
      var named, overview := "workers/services/view/" + n, "workers-and-pages";
      assert named[7] == '/' && overview[7] == '-';
      AccountUrlInjective(named, overview);
    case Pages(_) =>
      var named, overview := "pages/view/" + n, "workers-and-pages";
      assert named[0] == 'p' && overview[0] == 'w';
      AccountUrlInjective(named, overview);
    case R2(_) =>
      assert "r2/default/buckets/" == "r2" + "/" + "default/buckets/";
      assert "r2/default/buckets/" + n == "r2" + "/" + ("default/buckets/" + n);
      AccountUrlUnder("r2", "default/buckets/" + n);
    case D1(_) =>
      assert "workers/d1/databases/" == "workers/d1" + "/" + "databases/";
      assert "workers/d1/databases/" + n == "workers/d1" + "/" + ("databases/" + n);
      AccountUrlUnder("workers/d1", "databases/" + n);
    case Kv(_) =>
      assert "workers/kv/namespaces/" == "workers/kv" + "/" + "namespaces/";
      assert "workers/kv/namespaces/" + n == "workers/kv" + "/" + ("namespaces/" + n);
      AccountUrlUnder("workers/kv", "namespaces/" + n);
  }

  /**
   * The zone overview of a zone is the account page of the same name: a zone
   * called "billing" opens the billing page.
   */
  lemma ZoneOverviewIsAccountPage(zone: string)
    requires zone != ""
    ensures Resolve(Zone(zone)) == AccountUrl(zone)
  {
    assert Resolve(Zone(zone)) == ZoneUrl(zone, "");
    ZoneOverviewUrl(zone);
  }

  /** For one: the overview of the zone "billing" is the billing page. */
  lemma ZoneNamedBillingIsBilling()
    ensures Resolve(Zone("billing")) == Resolve(Billing)
  {
    ZoneOverviewIsAccountPage("billing");
  }

}
