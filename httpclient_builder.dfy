/**
 * Building the orchestrator's HTTP client (pkg/server/httpclient/builder.go): the server address
 * gets a scheme when it lacks one, and each route's transport gets its method and full URL.
 */
module HttpClientBuilder {

  const Protocol := "http"
  const MethodPost := "POST"
  const UriFilePlay := "/player/file/play"
  const UriFileStop := "/player/file/stop"

  /** `strings.HasPrefix`. */
  predicate HasPrefix(s: string, prefix: string)
  {
    |prefix| <= |s| && s[..|prefix|] == prefix
  }

  /** What one transport is built with. */
  datatype Transport = Transport(httpMethod: string, url: string)

  /** The client NewClient returns: the file-play and file-stop transports. */
  datatype Client = Client(filePlay: Transport, fileStop: Transport)

  /** The address as NewClient uses it (builder.go:50-52). */
  function BaseUrl(serverAddr: string): (url: string)
    ensures HasPrefix(url, Protocol)
    ensures HasPrefix(serverAddr, Protocol) ==> url == serverAddr
    ensures !HasPrefix(serverAddr, Protocol) ==> HasPrefix(url, "http://") && url[7..] == serverAddr
  {
    if HasPrefix(serverAddr, Protocol) then serverAddr else Protocol + "://" + serverAddr
  }

  /** NewClient (builder.go:49-58): both routes are POSTs under the same base URL. */
  function NewClient(serverAddr: string): (c: Client)
    ensures c.filePlay.httpMethod == MethodPost && c.fileStop.httpMethod == MethodPost
    ensures c.filePlay.url == BaseUrl(serverAddr) + UriFilePlay
    ensures c.fileStop.url == BaseUrl(serverAddr) + UriFileStop
  {
    Client(
      Transport(MethodPost, BaseUrl(serverAddr) + UriFilePlay),
      Transport(MethodPost, BaseUrl(serverAddr) + UriFileStop))
  }

  /** Normalising twice is normalising once. */
  lemma BaseUrlIdempotent(serverAddr: string)
    ensures BaseUrl(BaseUrl(serverAddr)) == BaseUrl(serverAddr)
  {
  }

  /** The two URLs differ exactly in their route, so the server can tell the requests apart. */
  lemma {:induction false} RoutesDiffer(serverAddr: string)
    ensures NewClient(serverAddr).filePlay.url != NewClient(serverAddr).fileStop.url
  {
    var base := BaseUrl(serverAddr);
    var c := NewClient(serverAddr);
    assert c.filePlay.url[|base|..] == UriFilePlay;
    assert c.fileStop.url[|base|..] == UriFileStop;
  }

  /**
   * The test is for the letters "http", not for a scheme: a host whose name starts with them
   * is kept as it is, and its URLs have no scheme.
   */
  lemma SchemelessHostKept()
    ensures BaseUrl("httpd:8080") == "httpd:8080"
    ensures !HasPrefix(NewClient("httpd:8080").filePlay.url, "http://")
  {
    assert NewClient("httpd:8080").filePlay.url[..7] == "httpd:8";
  }

  /** The address with the test for a scheme the code evidently means. */
  function BaseUrlIntended(serverAddr: string): (url: string)
    ensures HasPrefix(url, "http://") || HasPrefix(url, "https://")
    ensures HasPrefix(serverAddr, "http://") || HasPrefix(serverAddr, "https://") ==> url == serverAddr
  {
    if HasPrefix(serverAddr, "http://") || HasPrefix(serverAddr, "https://") then serverAddr
    else Protocol + "://" + serverAddr
  }

  /** On addresses that carry a scheme both tests agree. */
  lemma BaseUrlIntendedAgrees(serverAddr: string)
    requires HasPrefix(serverAddr, "http://") || HasPrefix(serverAddr, "https://")
    ensures BaseUrlIntended(serverAddr) == BaseUrl(serverAddr) == serverAddr
  {
    assert serverAddr[..4] == serverAddr[..|serverAddr|][..4];
    if HasPrefix(serverAddr, "http://") {
      assert serverAddr[..4] == "http://"[..4];
    } else {
      assert serverAddr[..4] == "https://"[..4];
    }
  }

  /** The intended test gives the host named "httpd:8080" a scheme. */
  lemma BaseUrlIntendedRepairs()
    ensures BaseUrlIntended("httpd:8080") == "http://httpd:8080"
  {
    assert !HasPrefix("httpd:8080", "http://") by { assert "httpd:8080"[..7] == "httpd:8"; }
    assert !HasPrefix("httpd:8080", "https://") by { assert "httpd:8080"[..8] == "httpd:80"; }
    assert Protocol + "://" + "httpd:8080" == "http://httpd:8080";
  }

  /** Normalising twice with the intended test is normalising once. */
  lemma BaseUrlIntendedIdempotent(serverAddr: string)
    ensures BaseUrlIntended(BaseUrlIntended(serverAddr)) == BaseUrlIntended(serverAddr)
  {
  }
}
