/** The origin the client talks to: how the hub URL is reduced to an origin
    string, how inbound message origins are compared with it, and which
    target origin outbound messages are restricted to. */
module Origin {

  /** The two fields of a parsed URL (an anchor element, or window.location)
      that the origin is built from; protocol keeps its trailing ':'. */
  datatype Location = Location(protocol: string, host: string)

  const FILE_ORIGIN := "file://"
  const ANY_TARGET := "*"

  predicate EndsWith(s: string, suffix: string) {
    |suffix| <= |s| && s[|s| - |suffix|..] == suffix
  }

  /** origin.replace(/:80$|:443$/, ''): at most one trailing ":80" or ":443"
      is removed, whatever the scheme, so "h:80:80" becomes "h:80". */
  function StripDefaultPort(origin: string): (r: string)
    ensures |r| <= |origin| && r == origin[..|r|]
    ensures origin == r || origin == r + ":80" || origin == r + ":443"
    ensures r == origin <==> !EndsWith(origin, ":80") && !EndsWith(origin, ":443")
  {
    if EndsWith(origin, ":80") then origin[..|origin| - 3]
    else if EndsWith(origin, ":443") then origin[..|origin| - 4]
    else origin
  }

  /** The origin of the hub URL, from the anchor the URL was parsed into and
      from window.location. A URL without a host falls back to the document's
      location; an empty or bare ':' protocol falls back to the document's. */
  function GetOrigin(anchor: Location, window: Location): string {
    var uri := if anchor.host == "" then window else anchor;
    var protocol := if uri.protocol == "" || uri.protocol == ":" then window.protocol else uri.protocol;
    StripDefaultPort(protocol + "//" + uri.host)
  }

  /** The origin an inbound message is compared with: postMessage reports
      "null" for file:// documents. */
  function ListenerOrigin(messageOrigin: string): (r: string)
    ensures r == FILE_ORIGIN <==> messageOrigin == "null" || messageOrigin == FILE_ORIGIN
    ensures messageOrigin != "null" ==> r == messageOrigin
  {
    if messageOrigin == "null" then FILE_ORIGIN else messageOrigin
  }

  /** The target origin of postMessage: "*" for a file:// hub, the hub's
      origin otherwise. */
  function TargetOrigin(origin: string): (r: string)
    ensures r == ANY_TARGET <==> origin == FILE_ORIGIN || origin == ANY_TARGET
    ensures r != ANY_TARGET ==> r == origin
  {
    if origin == FILE_ORIGIN then ANY_TARGET else origin
  }

  /** The host is kept verbatim except for a trailing default port, and the
      protocol is the anchor's unless it is missing. */
  lemma GetOriginOfAbsoluteUrl(anchor: Location, window: Location)
    requires anchor.host != "" && anchor.protocol != "" && anchor.protocol != ":"
    ensures var full := anchor.protocol + "//" + anchor.host;
            GetOrigin(anchor, window) == StripDefaultPort(full)
    ensures !EndsWith(anchor.host, ":80") && !EndsWith(anchor.host, ":443") ==>
              GetOrigin(anchor, window) == anchor.protocol + "//" + anchor.host
  {
    var full := anchor.protocol + "//" + anchor.host;
    var slash := |anchor.protocol| + 1;
    assert full[slash] == '/';
    if !EndsWith(anchor.host, ":80") && !EndsWith(anchor.host, ":443") {
      assert full[|full| - |anchor.host|..] == anchor.host;
    }
  }

  /** A URL without a host (a relative path) yields the document's own
      origin; a URL with a host but without a usable protocol takes the
      document's protocol. */
  lemma GetOriginFallbacks(anchor: Location, window: Location)
    ensures anchor.host == "" ==> GetOrigin(anchor, window) == GetOrigin(window, window)
    ensures anchor.host != "" && (anchor.protocol == "" || anchor.protocol == ":") ==>
              GetOrigin(anchor, window) == StripDefaultPort(window.protocol + "//" + anchor.host)
  {
  }

  /** A resolved origin always keeps the "//" after the protocol, so the
      wildcard target is chosen exactly for the file:// origin. */
  lemma TargetOriginOfResolved(anchor: Location, window: Location)
    ensures TargetOrigin(GetOrigin(anchor, window)) == ANY_TARGET <==>
            GetOrigin(anchor, window) == FILE_ORIGIN
  {
    var uri := if anchor.host == "" then window else anchor;
    var protocol := if uri.protocol == "" || uri.protocol == ":" then window.protocol else uri.protocol;
    StripKeepsSeparator(protocol, uri.host);
  }

  /** The port suffix is never cut out of the "//" after the protocol. */
  lemma StripKeepsSeparator(protocol: string, host: string)
    ensures |StripDefaultPort(protocol + "//" + host)| >= |protocol| + 2
  {
    var full := protocol + "//" + host;
    var n := |full|;
    assert full[n - |host| - 1] == '/';
  }
}
