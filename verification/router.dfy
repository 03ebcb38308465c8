/**
 Upstream targets (src/index.ts lines 49-69): the fixed WebSocket endpoint for
 upgrade requests, and for plain HTTP a host chosen by the path, the path kept,
 and the API key spliced in front of the caller's query.
 */
module Router {
  import opened Wrappers
  import opened Http

  const Scheme: string := "https://"
  const RpcHost: string := "mainnet.helius-rpc.com"
  const ApiHost: string := "api.helius.xyz"
  const KeyParam: string := "api-key="

  /** The `Upgrade` test as written: `upgradeHeader || upgradeHeader === 'websocket'`. */
  predicate IsUpgrade(upgrade: Option<string>)
    ensures IsUpgrade(upgrade) <==> upgrade.Some? && upgrade.value != ""
  {
    Truthy(upgrade) || upgrade == Some("websocket")
  }

  /** The upstream for an upgrade request; `WebSocketUrlParts` reads it back into its parts. */
  function WebSocketUrl(key: string): string {
    Scheme + RpcHost + "/?" + KeyParam + key
  }

  /** The upstream host for an HTTP request with path `pathname`. */
  function Host(pathname: string): (host: string)
    ensures host == RpcHost <==> pathname == "/"
    ensures host == ApiHost <==> pathname != "/"
  {
    if pathname == "/" then RpcHost else ApiHost
  }

  /** `search` as `URL#search` gives it: empty, or `?` followed by the query. */
  predicate WellFormedSearch(search: string) {
    search == "" || search[0] == '?'
  }

  /** The upstream query: the key parameter, then the caller's query without its leading `?`. */
  function Query(key: string, search: string): (q: string)
    ensures |q| >= |KeyParam + key| && q[..|KeyParam + key|] == KeyParam + key
    ensures search == "" ==> q == KeyParam + key
  {
    KeyParam + key + (if search != "" then "&" + search[1..] else "")
  }

  /** Undoes `Query`: the caller's original `search`, if `q` starts with the key parameter. */
  function OriginalSearch(key: string, q: string): (search: Option<string>)
  {
    var prefix := KeyParam + key;
    if |q| < |prefix| || q[..|prefix|] != prefix then None
    else
      var rest := q[|prefix|..];
      if rest == "" then Some("")
      else if rest[0] == '&' then Some("?" + rest[1..])
      else None
  }

  /** The caller's query survives the splice: it can be read back from the upstream query. */
  lemma QueryRoundTrip(key: string, search: string)
    requires WellFormedSearch(search)
    ensures OriginalSearch(key, Query(key, search)) == Some(search)
  {
    var prefix := KeyParam + key;
    var q := Query(key, search);
    if search != "" {
      assert q == prefix + ("&" + search[1..]);
      assert q[|prefix|..] == "&" + search[1..];
      assert "?" + search[1..] == search;
    } else {
      assert q[|prefix|..] == "";
    }
  }

  /** The upstream URL of an ordinary HTTP request; `UpstreamUrlParts` reads it back into its parts. */
  function UpstreamUrl(pathname: string, search: string, key: string): string {
    Scheme + Host(pathname) + pathname + "?" + Query(key, search)
  }

  // ---------------------------------------------------------------------------
  // Reading an upstream URL back into its parts.

  datatype UrlParts = UrlParts(host: string, path: string, query: string)

  /** Splits `s` at the first `c`: what precedes it and what follows it. */
  function SplitAt(s: string, c: char): (r: Option<(string, string)>)
    ensures r.None? <==> c !in s
    ensures r.Some? ==> c !in r.value.0 && s == r.value.0 + [c] + r.value.1
    decreases |s|
  {
    if |s| == 0 then None
    else if s[0] == c then Some(("", s[1..]))
    else match SplitAt(s[1..], c)
      case None => None
      case Some((before, after)) =>
        assert s == [s[0]] + before + [c] + after;
        Some(([s[0]] + before, after))
  }

  /** The split point is unique: any `a + [c] + b` with `c` not in `a` splits at that `c`. */
  lemma {:induction false} SplitAtFirst(a: string, b: string, c: char)
    requires c !in a
    ensures SplitAt(a + [c] + b, c) == Some((a, b))
    decreases |a|
  {
    var s := a + [c] + b;
    if |a| > 0 {
      assert s[1..] == a[1..] + [c] + b;
      SplitAtFirst(a[1..], b, c);
      assert [a[0]] + a[1..] == a;
    } else {
      assert s == [c] + b;
    }
  }

  /** Parses `https://HOST/PATH?QUERY`, the host ending at the first `/`, the path at the first `?`. */
  function ParseUrl(url: string): Option<UrlParts> {
    if |url| < |Scheme| || url[..|Scheme|] != Scheme then None
    else match SplitAt(url[|Scheme|..], '/')
      case None => None
      case Some((host, rest)) =>
        match SplitAt("/" + rest, '?')
        case None => None
        case Some((path, query)) => Some(UrlParts(host, path, query))
  }

  /** `ParseUrl` undoes the assembly of a URL from a slash-free host, a path and a query. */
  lemma ParseUrlAssembled(host: string, path: string, query: string)
    requires '/' !in host
    requires |path| >= 1 && path[0] == '/' && '?' !in path
    ensures ParseUrl(Scheme + host + path + "?" + query) == Some(UrlParts(host, path, query))
  {
    var url := Scheme + host + path + "?" + query;
    var rest := path[1..] + "?" + query;
    var after := host + ['/'] + rest;
    assert url == Scheme + after by {
      assert path == ['/'] + path[1..];
    }
    assert url[..|Scheme|] == Scheme && url[|Scheme|..] == after;
    SplitAtFirst(host, rest, '/');
    assert SplitAt(url[|Scheme|..], '/') == Some((host, rest));
    assert "/" + rest == path + ['?'] + query by {
      assert path == ['/'] + path[1..];
    }
    SplitAtFirst(path, query, '?');
  }

  /**
   The HTTP upstream URL has exactly the chosen host, the caller's path
   unchanged, and the spliced query (a path from `URL#pathname` starts with
   `/` and holds no `?`).
   */
  lemma UpstreamUrlParts(pathname: string, search: string, key: string)
    requires |pathname| >= 1 && pathname[0] == '/' && '?' !in pathname
    ensures ParseUrl(UpstreamUrl(pathname, search, key))
         == Some(UrlParts(Host(pathname), pathname, Query(key, search)))
  {
    assert '/' !in RpcHost && '/' !in ApiHost;
    ParseUrlAssembled(Host(pathname), pathname, Query(key, search));
  }

  /**
   The upgrade endpoint is the root of the RPC host with only the key as
   query; the caller's path and query play no part.
   */
  lemma WebSocketUrlParts(key: string)
    ensures ParseUrl(WebSocketUrl(key)) == Some(UrlParts(RpcHost, "/", KeyParam + key))
  {
    assert '/' !in RpcHost;
    assert WebSocketUrl(key) == Scheme + RpcHost + "/" + "?" + (KeyParam + key) by {
      assert Scheme + RpcHost + "/?" == Scheme + RpcHost + "/" + "?";
    }
    ParseUrlAssembled(RpcHost, "/", KeyParam + key);
  }

  /** The root path with no query goes to the RPC host with only the key. */
  lemma RootRouteExample(key: string)
    ensures UpstreamUrl("/", "", key) == "https://mainnet.helius-rpc.com/?api-key=" + key
  {
    assert Query(key, "") == KeyParam + key;
  }

  /** Any other path goes to the API host, the caller's query after the key. */
  lemma ApiRouteExample(key: string)
    ensures UpstreamUrl("/v0/transactions", "?limit=10", key)
         == "https://api.helius.xyz/v0/transactions?api-key=" + key + "&limit=10"
  {
    var q := Query(key, "?limit=10");
    assert "?limit=10"[1..] == "limit=10";
    assert q == KeyParam + key + "&limit=10";
    assert Host("/v0/transactions") == ApiHost;
    var lead := Scheme + ApiHost + "/v0/transactions" + "?";
    assert lead + KeyParam == "https://api.helius.xyz/v0/transactions?api-key=";
    calc {
      UpstreamUrl("/v0/transactions", "?limit=10", key);
      lead + q;
      (lead + KeyParam) + key + "&limit=10";
    }
  }
}
