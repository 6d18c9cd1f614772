# cfurl command resolver, in Dafny

`cfurl` is a small command-line tool. It turns a dashboard command and its
optional arguments (a zone name, a resource name, a security section) into a
deep link into the Cloudflare dashboard, then opens the browser there. This
project models the part that decides the URL: the closed set of commands, the
two URL builders `zone_url` and `account_url`, the dashboard origin
`DASH_BASE`, and the `match` in `main` that maps each command to its URL.
That `match` is lifted into a function of its own, `Resolve`.

Layout:

- `wrappers.dfy`: `Option`, the optional argument type.
- `urls.dfy` (module `Urls`): `DashBase`, the redirect-query root
  `AccountRoot`, `ZoneUrl`, `AccountUrl`, and an inverse parser for each builder
  (`ZoneFromUrl`, `AccountPathOf`) with round-trip and injectivity lemmas.
- `commands.dfy` (module `Commands`): the `Command` datatype (one constructor per
  subcommand), `SecurityPath` and `Resolve`.
- `properties.dfy` (module `ResolverProperties`): lemmas about `Resolve`. They
  cover where URLs are rooted, where the zone sits, how `Security` picks a
  section, how optional arguments are dispatched, and which commands share a
  destination.

`Resolve` is a Dafny function, so resolving the same command twice gives the
same URL by construction.

Two consequences of the URL scheme are stated as lemmas:

- `ZoneOverviewIsAccountPage`: the redirect query does not mark which
  segment is a zone. So the overview of a zone whose name matches an account page
  opens that account page. `ZoneNamedBillingIsBilling` is one instance of it: the
  zone `billing` opens the billing page.
- `ZoneOverviewUrl` and `ZonePageUrl`: every zone page URL, and the overview of every non-empty zone, is also an account URL. The overview of the empty zone, the root followed by a bare slash, is the one zone URL that `AccountUrl` never builds.

Strings are `seq<char>`. The resolver only concatenates, so this is exact.

## Declarations

The data and constants of the model. Each is given with the source lines it
stands for; the properties about them are stated by the members in the table
below.

- `Commands.Command` (src/main.rs:19-204): the `Commands` enum. It has one constructor per
  subcommand with the same payloads: a `string` zone, an `Option<string>`
  resource name, `Security`'s zone and optional section, and `Logs`'s optional
  zone.
- `Urls.DashBase` (src/main.rs:8): `DASH_BASE`, `"https://dash.cloudflare.com"`.
- `Urls.AccountRoot` (src/main.rs:298, 306, 308): the `{DASH_BASE}/?to=/:account` prefix
  that both builders write.
- `Commands.ApiTokensUrl` (src/main.rs:267): `{DASH_BASE}/profile/api-tokens`.
- `Commands.SecuritySections` (src/main.rs:214-217): the four sections `waf`,
  `events`, `ddos` and `bots` that have a page of their own.
- `Commands.ZoneOf` (src/main.rs:210-233): the zone of a zone-scoped command,
  including `Logs` with a zone.

## Model

| member | source | states |
|---|---|---|
| `Urls.ZoneUrl` | src/main.rs:296-302 | every zone URL starts with the dashboard origin and the redirect-query root |
| `Urls.ZoneUrlShape` | src/main.rs:296-302 | a zone URL starts with the root and `/<zone>`; with an empty page that is the whole URL (the zone overview); with a page it continues `/<zone>/`, ends in `/<page>` and has no other characters |
| `Urls.AccountUrl` | src/main.rs:304-310 | every account URL starts with the dashboard origin and the redirect-query root |
| `Urls.AccountUrlShape` | src/main.rs:304-310 | an account URL is the bare root exactly when the path is empty; otherwise it is the root, a slash and the path verbatim, with nothing else |
| `Urls.ZoneUrlRoundTrip` | src/main.rs:296-302 | parsing a zone URL of a known page gives back the zone, for every zone and page |
| `Urls.ZoneFromUrlSound` | src/main.rs:296-302 | any URL that the zone parser accepts is exactly the zone URL of the zone it returns |
| `Urls.ZoneUrlInjective` | src/main.rs:296-302 | two zones give the same URL for a page only if they are the same zone |
| `Urls.ZoneUrlEnds` | src/main.rs:300 | a zone page URL ends in `/<zone>/<page>` |
| `Urls.AccountUrlRoundTrip` | src/main.rs:304-310 | parsing an account URL gives back its path, including the empty path |
| `Urls.AccountPathOfSound` | src/main.rs:304-310 | any URL the account parser accepts is exactly the account URL of the path it returns |
| `Urls.AccountUrlInjective` | src/main.rs:304-310 | distinct account paths give distinct URLs |
| `Urls.ZoneOverviewUrl` | src/main.rs:296-310 | the overview of a non-empty zone is the account URL whose path is the zone |
| `Urls.ZonePageUrl` | src/main.rs:296-310 | a zone page is the account URL whose path is `<zone>/<page>` |
| `Urls.AccountUrlAppend` | src/main.rs:308 | appending text to a non-empty account path appends the same text to its URL |
| `Urls.AccountUrlUnder` | src/main.rs:304-310 | for every path, including the empty one, the account URL of `<path>/<rest>` extends the URL of `<path>` by a slash and is a different URL |
| `Urls.AccountUrlLastSegment` | src/main.rs:304-310 | a name appended to a path that ends in a slash is the URL's last segment, verbatim, and the URL determines the name |
| `Commands.SecurityPath` | src/main.rs:213-219 | a section in the set {waf, events, ddos, bots} gives `security/<section>`; any other section, and no section, gives `security` |
| `Commands.Resolve` | src/main.rs:209-273 | every resolved URL starts with the dashboard origin; every command other than `Dash` and `ApiTokens` resolves under the redirect-query root |
| `ResolverProperties.ApiTokensOutsideAccountRoot` | src/main.rs:267 | the API-tokens page is not under the redirect-query root |
| `ResolverProperties.ResolveRoots` | src/main.rs:209-273 | `Dash` resolves to the origin, and only it does; `ApiTokens` resolves to `<origin>/profile/api-tokens`, and only it does; a URL is under the redirect-query root exactly when the command is neither of the two |
| `ResolverProperties.ZonePage` | src/main.rs:210-233 | the page of a zone-scoped command is empty exactly for `Zone` |
| `ResolverProperties.ResolveZoneScoped` | src/main.rs:210-233 | every zone-scoped command, including `Security` and `Logs` with a zone, resolves to the zone URL of its zone and its page; this table is independent of the resolver's `match` |
| `ResolverProperties.ZoneSegment` | src/main.rs:210-233 | for every zone-scoped command except `Zone`, `/<zone>/` follows the redirect-query root immediately and the URL ends in `/<zone>/<page>`; `Zone` resolves to the root followed by `/<zone>` and ends with the zone |
| `ResolverProperties.WithZone` | src/main.rs:210-233 | replacing the zone of a zone-scoped command gives a command scoped to the new zone with the same page |
| `ResolverProperties.WithZoneRestores` | src/main.rs:210-233 | putting the old zone back gives the original command: only the zone was changed |
| `ResolverProperties.ResolveDeterminesZone` | src/main.rs:210-233 | for each zone-scoped command, including `Security` with any section and `Logs` with a zone, two zones resolve to the same URL only if they are equal |
| `ResolverProperties.SecuritySubpage` | src/main.rs:212-221 | a known section resolves to the zone URL of `security/<section>` |
| `ResolverProperties.SecurityFallback` | src/main.rs:212-221 | an unknown section and no section both resolve to the zone URL of `security`; there is no error case |
| `ResolverProperties.ZeroTrustIsAccess` | src/main.rs:255 | `ZeroTrust` and `Access` resolve to the same URL, the account page `access` |
| `ResolverProperties.LogsDispatch` | src/main.rs:233-271 | `Logs` with a zone resolves to that zone's `analytics/logs`; without one it resolves to the account page `logs`; the account page comes out exactly when no zone is given |
| `ResolverProperties.WithName` | src/main.rs:235-254 | replacing the resource name keeps the command's kind (Workers, Pages, R2, D1 or KV), and the new name is the one given |
| `ResolverProperties.WorkersPagesOverview` | src/main.rs:235-242 | `Workers` and `Pages` without a name both resolve to the account page `workers-and-pages` |
| `ResolverProperties.NamedResourceVerbatim` | src/main.rs:235-254 | for Workers, Pages, R2, D1 and KV, the URL with a resource name is a fixed prefix, independent of the name, followed by the name verbatim (the prefix is the URL for the empty name); it ends in `/<name>` for every string including ones with slashes; different names give different URLs |
| `ResolverProperties.NamedResourceUnderOverview` | src/main.rs:235-254 | a named R2 bucket, D1 database or KV namespace URL extends its listing page's URL with a slash; for all five resources, a named URL never equals the unnamed one |
| `ResolverProperties.ZoneOverviewIsAccountPage` | src/main.rs:232 | the overview of a non-empty zone is the account page of the same name |

## Left out

- Argument parsing (`Cli::parse`, the derive attributes and the command aliases `zt`, `do`, `audit`, `tokens`, `domains`, `wa`, `home`). It belongs to the clap library and runs before the resolver. The model starts from an already parsed `Command`.
- The progress spinner (src/main.rs:275-283). It is cosmetic terminal output driven by a background thread.
- The browser launch (`open::that`), the one-second pause, the success and failure messages and the exit status (src/main.rs:285-293). These are an OS call, timing, console I/O and process control.
- URL validity: names and zones are concatenated unescaped, as in the source. The model does not claim that every result is a syntactically valid URL.
