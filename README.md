# Student Benefits Hub — a Dafny model of its core

Student Benefits Hub is a single-page catalogue of free tools and discounts
for students. The page filters the offers by category and by a search
query. It ranks them by the GitHub star count of their repository, which a
hook looks up and caches in the browser for an hour, and then by a
hand-assigned popularity score. Each offer is shown as a card with a compact
star badge and a "Show more" toggle. A companion Python script publishes a
local service through a Cloudflare tunnel. It finds or creates the tunnel,
rewrites the tunnel's ingress rules to route one hostname, and keeps a
proxied CNAME record pointing at the tunnel.

This project models that core and proves what it promises:

- `benefits.dfy`: the `Benefit` record, and the JavaScript truthiness of its
  optional `repo`.
- `github_stars.dfy`: the star hook.
  - The effect splits the repositories into counts shown at once and
    lookups to start.
  - A settled lookup is merged into the shown map and written back to the
    store.
  - The hook is a class whose methods update its two fields: the shown map
    and the store.
- `app.dfy`: the page.
  - The category and search filters and the comparator sort.
  - The keydown shortcut, the result-count noun and the clear button.
  - The count handed to each card.
- `benefit_card.dfy`: the compact star formatting, the badge and the
  description toggle.
- `tunnel_manager.dfy`: the decisions of the tunnel script.
  - Configuration decoding and the ingress rewrite of `create_route`.
  - `get_tunnel_by_name`, the token extraction of `create_tunnel` and
    `get_tunnel_token`, the keep/update/create decision of
    `ensure_dns_record`, and `get_zone_id`.
  - Python exceptions are the `Raised` values of a `Result`.
- `text.dfy`: the string built-ins these use.
  - Lower-casing and `includes`.
  - Decimal rendering and reading back.
- `wrappers.dfy`: `Option` and `Result`.

The model follows the code as written:

- Lookups are not de-duplicated. A repository named by several offers is
  looked up once per occurrence (`GitHubStars.StaleReposCount`).
- The map shown after the effect holds only fresh entries. A stale cached
  count is neither shown nor used for ranking until its lookup lands
  (`GitHubStars.StarsHook.RunEffect`, `App.RankAfterEffect`).
- A failed lookup is not retried until the effect runs again.
- A `stargazers_count` of 0 is falsy, so it is dropped like a failure
  (`GitHubStars.StarsFrom`).
- `create_route` raises `AttributeError` in two cases: the decoded
  configuration is a JSON value other than an object or `null`, or an
  ingress rule is not an object (`TunnelManager.RoutedConfig`).
- `create_tunnel` raises where `get_tunnel_token` falls back to `""`
  (`TunnelManager.CreateTunnel`).

I/O is passed in as parameters:

- The browser store is a `Stored` value.
- The clock is an `int` argument in milliseconds.
- Each network response is the decoded JSON it carries.
- JSON text decoding is a `parse` function parameter.
- The binary rounding of `toFixed` at an exact half is a `tieUp` flag.

## Model

| member | source | states |
|---|---|---|
| GitHubStars.ReadCache | src/hooks/useGitHubStars.ts:8-14 | a parsed store gives its cache; a missing, empty or unparsable store gives the empty cache |
| GitHubStars.Partition | src/hooks/useGitHubStars.ts:24-32 | the loop builds exactly the fresh-entry map `FreshStars` and the list of stale lookups `StaleRepos` |
| GitHubStars.StaleReposCount | src/hooks/useGitHubStars.ts:24-32 | a repository is looked up once per occurrence in the list when it is non-blank and has no fresh entry, and never otherwise (no de-duplication) |
| GitHubStars.PartitionExact | src/hooks/useGitHubStars.ts:24-34 | a repository is in the initial map iff it is named in the list and fresh, and then at its cached count; it is in the lookups iff named and not fresh; the blank name is in neither |
| GitHubStars.StarsFrom | src/hooks/useGitHubStars.ts:37-41 | a lookup delivers a count iff the response was ok and its `stargazers_count` is present and non-zero; the count is that field |
| GitHubStars.Complete | src/hooks/useGitHubStars.ts:39-50 | a delivered count sets that repository in the shown map and in the re-read store (with the completion time), leaving every other key alone; a failed or zero lookup changes nothing |
| GitHubStars.CompletionsCommute | src/hooks/useGitHubStars.ts:36-51 | lookups for different repositories settling in either order give the same state |
| GitHubStars.LastDeliveredWins | src/hooks/useGitHubStars.ts:36-51 | after any sequence of settled lookups a repository shows and caches the count of the last lookup that delivered for it; with none it is as before |
| GitHubStars.DeliveredIsServedFresh | src/hooks/useGitHubStars.ts:27-28 | once a count is delivered and written, the next effect within the hour shows it at once and does not look it up again |
| GitHubStars.StarsHook.constructor | src/hooks/useGitHubStars.ts:17 | the hook starts with an empty shown map |
| GitHubStars.StarsHook.RunEffect | src/hooks/useGitHubStars.ts:19-34 | the shown map is replaced by the fresh counts of the stored cache, the returned lookups are the stale repositories, the store is not written |
| GitHubStars.StarsHook.Settle | src/hooks/useGitHubStars.ts:39-46 | the callback changes the hook's fields exactly as `Complete` says |
| Text.CaseInsensitiveIncludes | src/App.tsx:31-33 | `toLowerCase().includes` holds iff some window of the field equals the query letter by letter up to case |
| Text.DecimalRoundTrip | src/components/BenefitCard.tsx:13 | the decimal text of an integer reads back as that integer |
| App.Repos | src/App.tsx:7 | the hook receives each offer's optional repository, one per offer, in list order |
| App.MatchesSearchIff | src/App.tsx:31-33 | an offer matches the search iff its name, description or a tag has a case-insensitive occurrence of the query |
| App.EmptyQueryMatchesAll | src/App.tsx:31-33 | the empty query matches every offer |
| App.FilterBenefits | src/App.tsx:28-35 | each offer is kept as often as it occurs iff it passes the category and search filters, and dropped otherwise |
| App.CompareMeaning | src/App.tsx:36-42 | the comparator puts `a` first iff it has more stars, or equal stars and at least the popularity; it is antisymmetric |
| App.Sort | src/App.tsx:36-42 | the sort result is a permutation of its input, ranked pairwise by the comparator |
| App.FilteredBenefits | src/App.tsx:27-43 | the list shown is a permutation of the offers passing both filters, ranked by the comparator |
| App.FilteredBenefitsOrder | src/App.tsx:27-43 | every listed offer passes the filters; stars never increase down the list, and at equal stars popularity never increases |
| App.RankAfterEffect | src/App.tsx:12 | right after the effect an offer ranks by its fresh cached count, and by 0 without a fresh entry |
| App.CardStars | src/App.tsx:105 | a card gets a count iff its repository is non-blank and has an entry in the star map, and that entry is the count |
| App.CardBadgeShowsRank | src/App.tsx:105 | a card's badge is shown iff its repository has a map entry, and shows the count the list is ranked by |
| App.FocusesSearch | src/App.tsx:16-21 | a key press focuses the search box iff it is one ASCII letter or digit, with no modifier held, outside inputs and text areas |
| App.PerkNoun | src/App.tsx:85 | the noun is "perk" iff exactly one offer is found, "perks" otherwise |
| App.InitialPage | src/App.tsx:10-11 | the page starts on category `'All'` with an empty query, so without a clear button |
| App.InitialPageListsAll | src/App.tsx:10-11 | the first render lists every offer, each as often as it occurs |
| App.ClearSearch | src/App.tsx:87-89 | clearing empties the query, keeps the category and hides the clear button |
| App.ClearedSearchListsWholeCategory | src/App.tsx:87-89 | after clearing, the list holds every offer of the active category, each as often as it occurs |
| BenefitCard.WholeCompact | src/components/BenefitCard.tsx:11 | a whole number of thousands renders without a point and reads back as that many thousands |
| BenefitCard.FractionCompact | src/components/BenefitCard.tsx:11 | thousands with a tenth render with one point, third from the end, and read back as that many tenths |
| BenefitCard.CompactShape | src/components/BenefitCard.tsx:11 | the compact text ends in `k`, never in `.0k`, has at most one decimal digit, and reads back as the rounded count of tenths |
| BenefitCard.FormatStars | src/components/BenefitCard.tsx:9-14 | below 1000 the text is the decimal rendering, which has no leading zero and reads back as the count; from 1000 on it is the count in thousands to the nearest tenth, starting with a non-zero digit, without `.0`, followed by `k` |
| BenefitCard.StarBadge | src/components/BenefitCard.tsx:29-40 | the badge is shown iff a count is given and the repository is non-blank; it links to the repository on GitHub and shows the formatted count |
| BenefitCard.ToggleButton | src/components/BenefitCard.tsx:64-70 | the button exists iff the description is longer than 120 characters, and reads "Show less" iff the card is expanded |
| BenefitCard.InitialToggle | src/components/BenefitCard.tsx:17 | a freshly rendered card offers "Show more" for a long description and no button for a short one |
| BenefitCard.Click | src/components/BenefitCard.tsx:60 | a click flips the expanded state |
| BenefitCard.ClickTwiceRestores | src/components/BenefitCard.tsx:60-70 | two clicks restore the state and the button label |
| TunnelManager.Index | scripts/cloudflare_tunnel_manager.py:41 | indexing a dict by a present key gives its value; a missing key raises `KeyError`, a non-dict `TypeError` |
| TunnelManager.DecodeConfig | scripts/cloudflare_tunnel_manager.py:81-101 | a missing or odd-typed result and undecodable text give `{}`; decodable text gives its value; a dict gives its `config` field (decoded again when it is text) or itself when it has none; a decoded `null` gives `{}` |
| TunnelManager.LoadConfig | scripts/cloudflare_tunnel_manager.py:81-103 | reading the configuration succeeds iff the decoded value is an object, and fails with `AttributeError` otherwise |
| TunnelManager.IngressOf | scripts/cloudflare_tunnel_manager.py:103-105 | the rules are the `ingress` list, or empty when it is missing or not a list |
| TunnelManager.SurvivorsMember | scripts/cloudflare_tunnel_manager.py:108-110 | an old rule survives iff it neither routes the hostname nor is a catch-all |
| TunnelManager.SurvivorsConcat | scripts/cloudflare_tunnel_manager.py:108-110 | the survivors keep their relative order |
| TunnelManager.FiltersSelectSurvivors | scripts/cloudflare_tunnel_manager.py:108-110 | the hostname filter and then the catch-all filter together select exactly the survivors |
| TunnelManager.RewriteSteps | scripts/cloudflare_tunnel_manager.py:107-111 | filter, insert first, filter, append gives the new rule, the survivors, then one catch-all |
| TunnelManager.RoutedIngressShape | scripts/cloudflare_tunnel_manager.py:107-111 | after the rewrite the catch-all is last and only last; the only rule for the hostname is the new one, first; it is first iff its service is not the catch-all |
| TunnelManager.RoutedIngressIdempotent | scripts/cloudflare_tunnel_manager.py:107-111 | routing the same hostname to the same service twice gives the same rules as once |
| TunnelManager.RoutedConfig | scripts/cloudflare_tunnel_manager.py:81-113 | the written configuration keeps every key but `ingress`, which holds the rewritten rules; it fails with `AttributeError` iff the configuration or a rule is not an object |
| TunnelManager.CreateRoute | scripts/cloudflare_tunnel_manager.py:81-113 | the script's step-by-step rewrite writes exactly `RoutedConfig` |
| TunnelManager.RouteTwice | scripts/cloudflare_tunnel_manager.py:81-113 | reading back a configuration the script wrote and routing the same hostname again writes the same configuration |
| TunnelManager.FindByName | scripts/cloudflare_tunnel_manager.py:39-41 | the search from a position finds the first tunnel with the name, gives none iff every tunnel has another name, and raises at the first tunnel without one |
| TunnelManager.TunnelByName | scripts/cloudflare_tunnel_manager.py:39-41 | `get_tunnel_by_name` returns the first tunnel with the name, none iff every tunnel has a different name, and raises only at the first tunnel without a `name` before any match |
| TunnelManager.GetTunnelToken | scripts/cloudflare_tunnel_manager.py:64-72 | the token is a dict payload's `token` field (default `""`), a string payload itself, and `""` for anything else |
| TunnelManager.CreateTunnel | scripts/cloudflare_tunnel_manager.py:43-62 | with the new id found, creation succeeds iff the token `get_tunnel_token` would return is truthy, and returns the id and that token; a missing id raises `KeyError` or `TypeError` |
| TunnelManager.RStripDots | scripts/cloudflare_tunnel_manager.py:138-139 | stripping removes a suffix made only of dots and leaves no trailing dot |
| TunnelManager.DecideDns | scripts/cloudflare_tunnel_manager.py:118-167 | a create iff there is no record; the first record is kept iff it points at the tunnel (trailing dots aside) through the proxy, and otherwise updated by its `id`; `AttributeError` iff the record is not a dict or its content not text, `KeyError` iff the update finds no `id`; both writes send the proxied CNAME body with TTL 1 |
| TunnelManager.TrailingDots | scripts/cloudflare_tunnel_manager.py:138 | stripping dots from a text without a trailing dot, followed by any number of dots, gives the text back |
| TunnelManager.WrittenRecordIsKept | scripts/cloudflare_tunnel_manager.py:136-153 | once the written record is in place, with or without trailing dots on its content, the next run keeps it |
| TunnelManager.ZoneId | scripts/cloudflare_tunnel_manager.py:169-179 | no zone raises; otherwise the result is the first zone's `id` |

## Left out

- Network calls are left out: `fetch`, `requests` and the Cloudflare `_request` wrapper with its success check. The responses are inputs and the requests to send are outputs.
- React scheduling is left out: effect timing, the `[repos]` dependency, re-renders and state batching. Settled lookups are a sequence of events.
- JSON text is left out. A `parse` function stands for `json.loads`, and the store is an already parsed `Stored` value.
- A stored cache that parses to a non-object, such as `null`, is not modelled.
- Dict key order is not modelled, since JSON objects are maps.
- GitHubStars.Partition: reads the clock once per pass, where the source calls `Date.now()` once per list entry (useGitHubStars.ts:27). A repository named twice whose entry expires between the two readings, or a clock that steps back, would then be both shown and looked up; the model does not capture that.
- GitHubStars.PartitionExact: states that no name is both shown and looked up. This holds for the single clock reading above, not for per-entry readings that straddle the expiry.
- GitHubStars.Complete: always writes the store. In the source `localStorage.setItem` may throw (quota exceeded, storage blocked); the count is then shown but the store is not written, and the model does not capture that.
- GitHubStars.StarsHook.Settle: follows `Complete`, so a failing store write is not modelled either.
- Text.Lower: folds ASCII letters only. The model leaves out Unicode case mapping and UTF-16 string length.
- BenefitCard.FormatStars: the half-way case is a `tieUp` parameter rather than IEEE-754 double rounding. Exponential notation above 1e21, precision lost above 2^53, and `NaN` are left out.
- App.Sort: the contract states permutation and rank order but not stability. Stability holds only by the definition of the insertion sort.
- App.FilteredBenefits: the contract states permutation and rank order but not stability. Ties keep list order only by the definition of the insertion sort.
- The API's `result` lists are taken as lists. A non-list tunnel, record or zone result is not modelled.
- `create_route` returns the PUT response's `result` when it is a dict (cloudflare_tunnel_manager.py:114-116). This is network output and is left out.
- `ensure_dns_record` returns what the API sends back after a write, which is left out. The model returns the decided action.
- The class fields set in `__init__` (token, account id, headers) are left out. They are constant per instance and only shape requests.
- FilterBar, the `redditMentions` badge, the dataset contents and the setup scripts are not part of this model.
