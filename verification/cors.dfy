/** The CORS headers the worker computes once per request (src/index.ts lines 16-28). */
module Cors {
  import opened Wrappers
  import opened Http
  import AllowList

  const AllowMethods: string := "Access-Control-Allow-Methods"
  const AllowHeaders: string := "Access-Control-Allow-Headers"
  const AllowOrigin: string := "Access-Control-Allow-Origin"

  const PermittedMethods: string := "GET, HEAD, POST, PUT, OPTIONS"
  const AnyValue: string := "*"

  /** The origin is granted by a configured allow-list: non-empty and equal to one entry. */
  predicate Listed(list: seq<string>, origin: Option<string>) {
    Truthy(origin) && origin.value in list
  }

  /**
   The CORS header map for the configured allow-list setting `config` and the
   request's `Origin` header `origin`.
   */
  function CorsHeaders(config: Option<string>, origin: Option<string>): (h: Headers)
    ensures AllowMethods in h && h[AllowMethods] == PermittedMethods
    ensures AllowHeaders in h && h[AllowHeaders] == AnyValue
    ensures h.Keys <= {AllowMethods, AllowHeaders, AllowOrigin}
    ensures !Truthy(config) ==> AllowOrigin in h && h[AllowOrigin] == AnyValue
    ensures Truthy(config) ==>
      (AllowOrigin in h <==> Truthy(origin) && origin.value in AllowList.Split(config.value, AllowList.Separator))
    ensures Truthy(config) && AllowOrigin in h ==> h[AllowOrigin] == origin.value
  {
    var base := map[AllowMethods := PermittedMethods, AllowHeaders := AnyValue];
    match AllowList.Parse(config)
    case None => base[AllowOrigin := AnyValue]
    case Some(list) => if Listed(list, origin) then base[AllowOrigin := origin.value] else base
  }

  /** Every entry written in the configured list is granted back verbatim when it is the request's origin. */
  lemma ListedOriginGranted(entries: seq<string>, i: nat)
    requires |entries| >= 1 && AllowList.SeparatorFree(entries, AllowList.Separator)
    requires i < |entries| && entries[i] != ""
    ensures AllowOrigin in CorsHeaders(Some(AllowList.Join(entries, AllowList.Separator)), Some(entries[i]))
    ensures CorsHeaders(Some(AllowList.Join(entries, AllowList.Separator)), Some(entries[i]))[AllowOrigin] == entries[i]
  {
    var config := AllowList.Join(entries, AllowList.Separator);
    AllowList.SplitJoin(entries, AllowList.Separator);
    assert entries[i] in AllowList.Split(config, AllowList.Separator);
    assert config != "";
  }

  /** An origin that is not one of the written entries gets no grant under an allow-list. */
  lemma UnlistedOriginRefused(entries: seq<string>, origin: Option<string>)
    requires |entries| >= 1 && AllowList.SeparatorFree(entries, AllowList.Separator)
    requires AllowList.Join(entries, AllowList.Separator) != ""
    requires origin.None? || origin.value !in entries
    ensures AllowOrigin !in CorsHeaders(Some(AllowList.Join(entries, AllowList.Separator)), origin)
  {
    AllowList.SplitJoin(entries, AllowList.Separator);
  }

  /** An origin containing a comma can never be granted by an allow-list. */
  lemma CommaOriginRefused(config: string, origin: string)
    requires config != ""
    requires AllowList.Separator in origin
    ensures AllowOrigin !in CorsHeaders(Some(config), Some(origin))
  {
  }

  /** A two-entry allow-list grants its first entry. */
  lemma TwoEntryGrant()
    ensures AllowOrigin in CorsHeaders(Some("https://a.example,https://b.example"), Some("https://a.example"))
    ensures CorsHeaders(Some("https://a.example,https://b.example"), Some("https://a.example"))[AllowOrigin]
         == "https://a.example"
  {
    var entries := ["https://a.example", "https://b.example"];
    assert AllowList.Join(entries, AllowList.Separator) == "https://a.example,https://b.example";
    ListedOriginGranted(entries, 0);
  }

  /** The same list refuses a third origin; with no list every origin gets `*`. */
  lemma TwoEntryRefusal()
    ensures AllowOrigin !in CorsHeaders(Some("https://a.example,https://b.example"), Some("https://c.example"))
    ensures AllowOrigin in CorsHeaders(None, Some("https://c.example"))
    ensures CorsHeaders(None, Some("https://c.example"))[AllowOrigin] == AnyValue
  {
    var entries := ["https://a.example", "https://b.example"];
    assert AllowList.Join(entries, AllowList.Separator) == "https://a.example,https://b.example";
    assert "https://c.example" != entries[0] && "https://c.example" != entries[1];
    UnlistedOriginRefused(entries, Some("https://c.example"));
  }
}
