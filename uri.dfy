/** The address of the command channel: get_connection_uri (main.py:89-90).
    The scheme is `wss`, the secured WebSocket scheme of section 3 of
    RFC 6455 (`"wss:" "//" host [":" port] path`).  Host and user name are
    pasted in without any escaping. */
module Uri {
  import opened Wrappers

  const Scheme: string := "wss://"
  const SubscribePath: string := "/api/v1/users/subscribe/"

  /** get_connection_uri: the scheme, the configured host, the subscription
      path and the user name, concatenated. */
  function ConnectionUri(baseUrl: string, username: string): (uri: string)
    ensures |uri| == |Scheme| + |baseUrl| + |SubscribePath| + |username|
    ensures uri[..|Scheme|] == Scheme
    ensures uri[|Scheme|..|Scheme| + |baseUrl|] == baseUrl
    ensures uri[|Scheme| + |baseUrl|..|uri| - |username|] == SubscribePath
    ensures uri[|uri| - |username|..] == username
  {
    Scheme + baseUrl + SubscribePath + username
  }

  /** The index of the first '/' in `s`, or |s| when there is none. */
  function FirstSlash(s: string): (n: nat)
    ensures n <= |s|
    ensures forall i :: 0 <= i < n ==> s[i] != '/'
    ensures n < |s| ==> s[n] == '/'
  {
    if s == [] || s[0] == '/' then 0 else 1 + FirstSlash(s[1..])
  }

  /** Reads a channel address back as (host, user name): after the scheme the
      host runs up to the first '/', the subscription path must follow, and
      the rest is the user name.  It is the inverse of ConnectionUri for
      hosts without '/' (ConnectionUriSplits, SplitUriBuilds). */
  function SplitUri(uri: string): (r: Option<(string, string)>)
    ensures r.Some? ==> '/' !in r.value.0
  {
    if |uri| < |Scheme| || uri[..|Scheme|] != Scheme then None
    else
      var rest := uri[|Scheme|..];
      var n := FirstSlash(rest);
      var path := rest[n..];
      if |path| < |SubscribePath| || path[..|SubscribePath|] != SubscribePath then None
      else
        assert forall c :: c in rest[..n] ==> c != '/';
        Some((rest[..n], path[|SubscribePath|..]))
  }

  lemma {:induction false} FirstSlashOfConcat(host: string, tail: string)
    requires '/' !in host
    requires |tail| > 0 && tail[0] == '/'
    ensures FirstSlash(host + tail) == |host|
  {
    if host != [] {
      assert (host + tail)[1..] == host[1..] + tail;
      FirstSlashOfConcat(host[1..], tail);
    }
  }

  /** A host without '/' and any user name are recovered from the address. */
  lemma ConnectionUriSplits(baseUrl: string, username: string)
    requires '/' !in baseUrl
    ensures SplitUri(ConnectionUri(baseUrl, username)) == Some((baseUrl, username))
  {
    var uri := ConnectionUri(baseUrl, username);
    var rest := uri[|Scheme|..];
    assert rest == baseUrl + (SubscribePath + username);
    FirstSlashOfConcat(baseUrl, SubscribePath + username);
    assert rest[..|baseUrl|] == baseUrl;
    assert rest[|baseUrl|..] == SubscribePath + username;
  }

  /** Cutting a string in four pieces and pasting them back gives it again. */
  lemma Reassemble(s: string, k: nat, n: nat, m: nat)
    requires k <= |s| && n <= |s| - k && m <= |s| - k - n
    ensures s == s[..k] + s[k..][..n] + s[k..][n..][..m] + s[k..][n..][m..]
  {
    assert s[k..][n..] == s[k..][n..][..m] + s[k..][n..][m..];
    assert s[k..] == s[k..][..n] + s[k..][n..];
    assert s == s[..k] + s[k..];
  }

  /** Every address that splits is the address of its own parts. */
  lemma SplitUriBuilds(uri: string)
    requires SplitUri(uri).Some?
    ensures ConnectionUri(SplitUri(uri).value.0, SplitUri(uri).value.1) == uri
  {
    var rest := uri[|Scheme|..];
    var n := FirstSlash(rest);
    Reassemble(uri, |Scheme|, n, |SubscribePath|);
  }

  /** With no escaping, a host that contains the subscription path makes two
      different configurations share one address. */
  lemma ConnectionUriAmbiguous()
    ensures ConnectionUri("h" + SubscribePath + "a", "b") == ConnectionUri("h", "a" + SubscribePath + "b")
  {
  }
}
