/** Where the bot's webhook lives, derived from the configured base URL. */
module Webhook {

  /** The host, path and full URL the webhook is registered under. */
  datatype WebhookTarget = WebhookTarget(domain: string, path: string, url: string)

  predicate EndsWithSlash(s: string) {
    |s| > 0 && s[|s| - 1] == '/'
  }

  /** The base URL's path with a trailing slash. */
  function NormalizePathname(pathname: string): (r: string)
    ensures EndsWithSlash(r)
    ensures EndsWithSlash(pathname) ==> r == pathname
    ensures !EndsWithSlash(pathname) ==> r == pathname + "/"
  {
    if EndsWithSlash(pathname) then pathname else pathname + "/"
  }

  /** Normalising twice is normalising once. */
  lemma NormalizeIdempotent(pathname: string)
    ensures NormalizePathname(NormalizePathname(pathname)) == NormalizePathname(pathname)
  {
  }

  /**
   * `getWebhookPath`, with the parsed base URL given as its host, origin and
   * path name.
   */
  function GetWebhookPath(host: string, origin: string, pathname: string, hookEndpoint: string)
    : (t: WebhookTarget)
    ensures t.domain == host
    ensures pathname <= t.path
    ensures t.url == origin + t.path
    ensures t.path == NormalizePathname(pathname) + hookEndpoint
  {
    var path := NormalizePathname(pathname) + hookEndpoint;
    WebhookTarget(host, path, origin + path)
  }

  /** The endpoint always sits right after a slash, and the base path is kept in front of it. */
  lemma WebhookPathShape(host: string, origin: string, pathname: string, hookEndpoint: string)
    ensures var t := GetWebhookPath(host, origin, pathname, hookEndpoint);
            var cut := |t.path| - |hookEndpoint|;
            && cut > 0 && t.path[cut - 1] == '/'
            && t.path[..cut] == NormalizePathname(pathname)
            && t.path[cut..] == hookEndpoint
            && (cut == |pathname| || cut == |pathname| + 1)
  {
  }
}
