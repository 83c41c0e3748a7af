/** How every page picks the server's base URL. */
module ServerConfig {
  import opened Common

  const DefaultPort: string := "8001"

  /** A development host. */
  predicate IsLocalHost(hostname: string)
  {
    hostname == "localhost" || hostname == "127.0.0.1"
  }

  /** `window.SERVER_URL`: on a development host, `localhost` on the page's
      port (8001 when the page has none), whichever of the two names was
      used; elsewhere, the page's own origin. */
  function ServerUrl(hostname: string, port: string, origin: string): (url: string)
    ensures IsLocalHost(hostname) ==>
      && StartsWith(url, "http://localhost:")
      && url[|"http://localhost:"|..] == (if port == [] then "8001" else port)
    ensures !IsLocalHost(hostname) ==> url == origin
  {
    if IsLocalHost(hostname) then "http://localhost:" + (if port == [] then DefaultPort else port)
    else origin
  }

  /** The loopback address and the name `localhost` give the same URL. */
  lemma LoopbackIsLocalhost(port: string, origin: string, otherOrigin: string)
    ensures ServerUrl("127.0.0.1", port, origin) == ServerUrl("localhost", port, otherOrigin)
  {
  }
}
