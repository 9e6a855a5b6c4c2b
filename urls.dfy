/** `URL`: scheme://domain|ip:port/path?query#fragment. */
module Urls {

  import opened Wrappers
  import opened Ints

  /** `net::IP` is not part of this model; an address number stands for it. */
  datatype IP = IP(address: nat)

  datatype Url = Url(
    scheme: Option<string>,
    domain: Option<string>,
    ip: Option<IP>,
    port: Option<uint16>,
    path: string,
    query: map<string, string>,
    fragment: Option<string>)

  /** `URL()`: every optional part absent, an empty path and query. */
  function EmptyUrl(): (u: Url)
    ensures u.scheme == None && u.domain == None && u.ip == None && u.port == None
    ensures u.path == "" && u.query == map[] && u.fragment == None
  {
    Url(None, None, None, None, "", map[], None)
  }

  /** `URL(scheme, domain, port = 80, path = "/", query = {}, fragment = None)`. */
  function UrlWithDomain(scheme: string, domain: string, port: uint16 := 80, path: string := "/",
                         query: map<string, string> := map[], fragment: Option<string> := None): (u: Url)
    ensures u.scheme == Some(scheme) && u.domain == Some(domain) && u.ip == None
    ensures u.port == Some(port) && u.path == path && u.query == query && u.fragment == fragment
  {
    Url(Some(scheme), Some(domain), None, Some(port), path, query, fragment)
  }

  /** `URL(scheme, ip, port = 80, path = "/", query = {}, fragment = None)`. */
  function UrlWithIp(scheme: string, ip: IP, port: uint16 := 80, path: string := "/",
                     query: map<string, string> := map[], fragment: Option<string> := None): (u: Url)
    ensures u.scheme == Some(scheme) && u.domain == None && u.ip == Some(ip)
    ensures u.port == Some(port) && u.path == path && u.query == query && u.fragment == fragment
  {
    Url(Some(scheme), None, Some(ip), Some(port), path, query, fragment)
  }

  /** Left out, the port is 80 whatever the scheme, and the path is "/". */
  lemma UrlDefaults(scheme: string, domain: string, ip: IP)
    ensures UrlWithDomain(scheme, domain).port == Some(80) && UrlWithDomain(scheme, domain).path == "/"
    ensures UrlWithIp(scheme, ip).port == Some(80) && UrlWithIp(scheme, ip).path == "/"
    ensures UrlWithDomain(scheme, domain).query == map[] && UrlWithIp(scheme, ip).fragment == None
  {
  }
}
