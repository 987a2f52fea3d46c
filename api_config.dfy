/** The client's API configuration and its URL helpers. */
module ApiConfig {
  import opened JsString

  const BaseUrl: string := "http://192.168.1.21:3000"
  const ApiPath: string := "/api"
  const LanguagesEndpoint: string := "/api/languages"

  /** `getApiBaseUrl()`. */
  function GetApiBaseUrl(): (r: string)
    ensures StartsWith(r, BaseUrl) && r[|BaseUrl|..] == ApiPath
  {
    BaseUrl + ApiPath
  }

  /** `getApiUrl(endpoint)`: an endpoint starting with `/` is taken as a
      path from the server root, anything else as a path under `/api/`. */
  function GetApiUrl(endpoint: string): (r: string)
    ensures StartsWith(r, BaseUrl)
    ensures StartsWith(endpoint, "/") ==> r[|BaseUrl|..] == endpoint
    ensures !StartsWith(endpoint, "/") ==> r == GetApiBaseUrl() + "/" + endpoint
  {
    var fullEndpoint := if StartsWith(endpoint, "/") then endpoint else ApiPath + "/" + endpoint;
    BaseUrl + fullEndpoint
  }

  /** The path part of a URL is what follows the base. */
  lemma {:induction false} PathOf(endpoint: string)
    ensures GetApiUrl(endpoint)[|BaseUrl|..] == if StartsWith(endpoint, "/") then endpoint else "/api/" + endpoint
  {
    if !StartsWith(endpoint, "/") {
      assert GetApiUrl(endpoint) == BaseUrl + ("/api/" + endpoint);
    }
  }

  /** Two endpoints give the same URL exactly when they are equal or one is
      the relative form of the other: `e` and `/api/e` collide. */
  lemma {:induction false} SameUrlIff(a: string, b: string)
    ensures GetApiUrl(a) == GetApiUrl(b) <==>
      || a == b
      || (!StartsWith(a, "/") && b == "/api/" + a)
      || (!StartsWith(b, "/") && a == "/api/" + b)
  {
    PathOf(a);
    PathOf(b);
    if GetApiUrl(a) == GetApiUrl(b) {
      var pa := GetApiUrl(a)[|BaseUrl|..];
      assert pa == GetApiUrl(b)[|BaseUrl|..];
      if !StartsWith(a, "/") && !StartsWith(b, "/") {
        assert a == pa[5..] == b;
      }
    }
    if !StartsWith(a, "/") && b == "/api/" + a {
      assert StartsWith(b, "/");
      assert GetApiUrl(b) == BaseUrl + b;
      assert GetApiUrl(a) == BaseUrl + ("/api/" + a);
    }
    if !StartsWith(b, "/") && a == "/api/" + b {
      assert StartsWith(a, "/");
      assert GetApiUrl(a) == BaseUrl + a;
      assert GetApiUrl(b) == BaseUrl + ("/api/" + b);
    }
  }

  /** The configured languages endpoint is the relative `languages` path. */
  lemma {:induction false} LanguagesUrl()
    ensures GetApiUrl(LanguagesEndpoint) == GetApiUrl("languages") == GetApiBaseUrl() + "/languages"
  {
    assert LanguagesEndpoint[..1] == "/";
    assert "languages"[..1] == "l";
    assert ApiPath + "/" + "languages" == LanguagesEndpoint;
    assert GetApiBaseUrl() + "/languages" == BaseUrl + LanguagesEndpoint;
  }
}
