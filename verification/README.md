# Helius RPC proxy — decision model

A Dafny model of the decision path inside the Cloudflare Worker that fronts the
Helius RPC service (`src/index.ts`). For each inbound request the worker:

1. computes CORS headers from the `CORS_ALLOW_ORIGIN` setting and the request's `Origin`;
2. applies a per-client quota keyed by `cf-connecting-ip`, held in a KV namespace
   as a decimal count with a one-hour TTL. A stored count strictly above 1000 gets
   `429 Rate limit exceeded`, built without CORS headers. Otherwise the count plus one is written in
   the background;
3. answers an `OPTIONS` preflight itself with 200, no body and the CORS headers;
4. passes any request carrying a non-empty `Upgrade` header straight through to
   `https://mainnet.helius-rpc.com/?api-key=KEY`;
5. otherwise rewrites the request. The host is `mainnet.helius-rpc.com` for path `/`
   and `api.helius.xyz` for any other path. The path is kept. The query is
   `api-key=KEY`, followed by the caller's query when there is one. The JSON and
   marker headers are added, the CORS map is spread over them, and an empty body
   is dropped. A `GET` or `HEAD` request with a non-empty body makes the Fetch
   `Request` constructor throw, so the handler fails instead of forwarding.

The model puts all of this into pure functions. The KV read is an input and the
KV write is a returned intent (`RateLimit.Write`). Every network call becomes an
`Action` value.

Modules:

- `Wrappers` holds `Option`.
- `Http` holds header maps and JavaScript truthiness of header values.
- `Decimal` models the count as the store holds it: `Number#toString` output read back as a number.
- `AllowList` models `String#split(',')` together with its inverse `Join`.
- `Cors` models the CORS header map.
- `RateLimit` models the quota decision and a sequential store model.
- `Router` models the upstream URLs, with a parser that reads them back.
- `Proxy` models the handler as `Dispatch`, plus `Handle`/`Serve` over a sequential store.

The quota boundary follows from src/index.ts:34. The count read from the store is
compared with a strict `> 1000` before it is incremented. Starting from no counter,
the worker therefore admits 1001 requests (stored values absent, 1, …, 1000) and
refuses the 1002nd (`RateLimit.FirstDenialIsRequest1002`, `Proxy.ThousandAndOneAdmitted`).

## Model

| member | source | states |
|---|---|---|
| `AllowList.Split` | src/index.ts:16 | `split(',')` yields at least one piece and no piece contains a comma. Its meaning as the unique comma-free decomposition is given by `AllowList.JoinSplit` and `AllowList.SplitJoin`. |
| `AllowList.Parse` | src/index.ts:16 | No list when the setting is absent or empty. Otherwise a non-empty list of comma-free entries that joins back to the setting with `,` (no trimming, empty entries kept). |
| `AllowList.JoinSplit` | src/index.ts:16 | Joining the pieces of `split(',')` with `,` gives back the original string. |
| `AllowList.SplitJoin` | src/index.ts:16 | Splitting a join of comma-free entries gives back exactly those entries. Together with `JoinSplit`, this makes `Split` the unique comma-free decomposition. |
| `Cors.CorsHeaders` | src/index.ts:16-28 | Always `Allow-Methods: GET, HEAD, POST, PUT, OPTIONS` and `Allow-Headers: *`, and no header names besides the three CORS ones. `Allow-Origin: *` when no list is configured. With a list, `Allow-Origin` is present exactly when the origin is non-empty and equal to an entry, and its value is then that origin. |
| `Cors.ListedOriginGranted` | src/index.ts:21-25 | Any non-empty entry written in the configured list is granted back verbatim as `Allow-Origin`. |
| `Cors.UnlistedOriginRefused` | src/index.ts:21-25 | Under an allow-list, an absent origin or one that is not an entry gets no `Allow-Origin`. |
| `Cors.CommaOriginRefused` | src/index.ts:16-23 | An origin containing a comma is never granted by an allow-list. |
| `Cors.TwoEntryGrant` | src/index.ts:16-28 | The list `https://a.example,https://b.example` grants `https://a.example`. |
| `Cors.TwoEntryRefusal` | src/index.ts:16-28 | The same list refuses `https://c.example`. Without a list, `*` is granted. |
| `Decimal.Show` | src/index.ts:37 | The written count is a non-empty string of digits with no leading zero. |
| `Decimal.ParseShow` | src/index.ts:33-37 | The numeric read of a written count returns that same count. |
| `Decimal.ShowInjective` | src/index.ts:37 | Distinct counts are written as distinct strings. |
| `RateLimit.Decide` | src/index.ts:30-40 | No address (absent or empty) means admitted with no write. With an address, refused exactly when a stored count exists and exceeds 1000. An admitted request with an address writes, under that address and with TTL 3600, a value that reads back as (stored or 0) + 1. |
| `RateLimit.Persist` | src/index.ts:38 | A completed write sets exactly its key to its value and leaves every other key alone. No write leaves the store unchanged. |
| `RateLimit.Step` | src/index.ts:30-39 | One request agrees with `Decide` on the stored counter. Other clients' entries are untouched, and no key other than the client's address is created. An admitted request leaves the counter one higher. A refused request, or one without an address, leaves the store unchanged. |
| `RateLimit.ReplayAdmitsWhileUnderThreshold` | src/index.ts:33-38 | The k-th of consecutive requests from one client is admitted exactly when the starting counter plus k is at most 1000. |
| `RateLimit.FirstDenialIsRequest1002` | src/index.ts:34-38 | From no counter, requests 1 to 1001 are admitted and every later one is refused. |
| `RateLimit.NoAddressNeverLimited` | src/index.ts:30-32 | Requests without a client address are never refused and never write. |
| `Router.IsUpgrade` | src/index.ts:49-50 | The test "header truthy, or equal to `websocket`" holds exactly when the header is present and non-empty. |
| `Router.Host` | src/index.ts:58 | The host is `mainnet.helius-rpc.com` exactly when the path is `/`, and `api.helius.xyz` exactly otherwise. |
| `Router.Query` | src/index.ts:59 | The upstream query starts with `api-key=KEY`, and is exactly that when the caller sent no query. |
| `Router.QueryRoundTrip` | src/index.ts:59 | The caller's query (empty or `?…`) can be recovered from the upstream query. Only its leading `?` is dropped, and it is replaced by `&`. |
| `Router.UpstreamUrl` | src/index.ts:57-59 | The HTTP upstream URL. What it contains is stated by `Router.UpstreamUrlParts`: it parses back to the chosen host, the unchanged path and the spliced query. |
| `Router.UpstreamUrlParts` | src/index.ts:57-59 | The HTTP upstream URL parses back to the chosen host, the caller's path unchanged, and the spliced query. |
| `Router.WebSocketUrl` | src/index.ts:51 | The upgrade target. What it contains is stated by `Router.WebSocketUrlParts`. |
| `Router.WebSocketUrlParts` | src/index.ts:51 | The upgrade target parses back to host `mainnet.helius-rpc.com`, path `/`, and query `api-key=KEY` only. |
| `Router.RootRouteExample` | src/index.ts:57-59 | Path `/` with no query goes to `https://mainnet.helius-rpc.com/?api-key=KEY`. |
| `Router.ApiRouteExample` | src/index.ts:57-59 | `/v0/transactions?limit=10` goes to `https://api.helius.xyz/v0/transactions?api-key=KEY&limit=10`. |
| `Proxy.ForwardHeaders` | src/index.ts:64-68 | The outbound headers are `Content-Type` and the proxy marker plus exactly the CORS names. CORS values win on a clash, and the fixed values are kept otherwise. |
| `Proxy.Body` | src/index.ts:63 | No body exactly when the payload is empty. Otherwise the payload unchanged. |
| `Proxy.Dispatch` | src/index.ts:8-69 | The steps run in order: quota refusal (429 with an empty init header map, so no CORS headers, and no write), then `OPTIONS` (200, no body, CORS headers), then non-empty `Upgrade` (passthrough to the fixed endpoint), then forward. The forward step fails exactly when the method is `GET` or `HEAD` and the payload is non-empty. Otherwise it uses the built URL, the unchanged method, the JSON, marker and CORS headers, and the payload as body (none when empty). The scheduled write is the quota's write whatever branch follows. |
| `Proxy.RefusalComesFirst` | src/index.ts:32-35 | An over-quota request gets 429 `Rate limit exceeded`, with no CORS headers and no write, even when it is a preflight or upgrade. |
| `Proxy.AdmittedPreflight` | src/index.ts:42-47 | An admitted `OPTIONS` gets 200, a null body and the CORS method/header grants. |
| `Proxy.OwnRepliesAreRefusalOrPreflight` | src/index.ts:35-46 | The worker makes only two responses itself: the 429 exactly when refused, and otherwise the preflight. |
| `Proxy.UpgradeIgnoresPathQueryAndBody` | src/index.ts:49-52 | For an upgrade request, the inbound path, query and body have no effect on the outcome. |
| `Proxy.ForwardedHeaders` | src/index.ts:61-69 | A request past the preflight and upgrade checks is forwarded unless its body is rejected. When forwarded, it carries `Content-Type: application/json`, `X-Helius-Cloudflare-Proxy: true` and the CORS methods grant. |
| `Proxy.Handle` | src/index.ts:30-40 | End to end, a request with a client address refuses and updates the store exactly as the quota step does. Without one, the store is untouched and there is no refusal. |
| `Proxy.ServeFollowsReplay` | src/index.ts:30-40 | Over a run of requests from one client, the worker's 429s fall exactly where the quota replay refuses. |
| `Proxy.ThousandAndOneAdmitted` | src/index.ts:34-38 | For a client with no counter, request k (counting from 0) gets 429 exactly when k > 1000. |

## Left out

- The upstream `fetch` calls and the passthrough of their responses or failures (src/index.ts:51, 71) are network I/O. The model stops at the computed `Action`.
- `Proxy.BodyRejected` stands for the `TypeError` thrown by the Fetch `Request` constructor. How the runtime turns that exception into a response to the caller is not modelled.
- `Reply.headers` is the header map the worker passes to `new Response`. Headers the runtime adds itself, such as the default `Content-Type` of a text body, are not modelled.
- `UpgradePassthrough` records only the target URL. The worker forwards the inbound request object itself, so its method, headers and body are not represented.
- `event.waitUntil` scheduling, TTL expiry and concurrent read-increment-write races on the KV counter are left out. The sequential store model (`RateLimit.Replay`, `Proxy.Serve`) assumes no expiry and one request at a time.
- `RateLimit.Read`: a stored value that is not a non-empty string of digits reads as absent. The worker never writes such values. JavaScript's numeric coercion would read some of them differently: `""`, `" 12"` and `"1e3"` as numbers, `"Infinity"` as over the limit, and other text as `NaN`.
- `Decimal.Show`: writes plain decimal digits for every count. `Number#toString` switches to exponent notation at 10^21, which is far beyond any reachable count.
- `RateLimit.Replay`: its own contract states only the length of the result. Its meaning is stated by `RateLimit.ReplayAdmitsWhileUnderThreshold`.
- `new URL(request.url)` parsing and `request.text()` are taken as inputs: `pathname`, `search` (empty or starting with `?`) and the payload string. Method names are taken as already normalised by the runtime.
- Header-name case-insensitivity of `Headers.get` is not modelled. The `Origin`, `cf-connecting-ip` and `Upgrade` values are inputs.
- Loading the environment (src/index.ts:1-5) is left out. The allow-list setting and the API key are parameters (`Proxy.Config`).
