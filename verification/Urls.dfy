/**
 * The request URLs (src/main.rs:91-96, 116-121, 140-143): plain string
 * formatting of the host, the fixed port 7080, the API version 2.0 path and
 * the key as the `apiKey` query parameter. Nothing is percent-encoded.
 */
module Urls {
  import opened Wrappers
  import opened Configuration

  const Scheme := "http://"
  /** Port and path of the camera collection. */
  const CollectionPath := ":7080/api/2.0/camera"
  const KeyQuery := "?apiKey="

  /** The list endpoint: `http://{host}:7080/api/2.0/camera?apiKey={key}`. */
  function ListUrl(cfg: Config): string {
    Scheme + cfg.host + CollectionPath + KeyQuery + cfg.apiKey
  }

  /** The per-camera endpoint, shared by the GET and the PUT: `.../camera/{id}?apiKey={key}`. */
  function CameraUrl(cfg: Config, id: string): string {
    Scheme + cfg.host + CollectionPath + "/" + id + KeyQuery + cfg.apiKey
  }

  /**
   * Reads the camera id back out of a per-camera URL for the given
   * configuration; `None` when the URL does not have that shape.
   */
  function CameraIdOf(cfg: Config, url: string): (r: Option<string>)
    ensures r.Some? ==> |r.value| <= |url|
  {
    var prefix := Scheme + cfg.host + CollectionPath + "/";
    var suffix := KeyQuery + cfg.apiKey;
    if |prefix| + |suffix| <= |url| && url[..|prefix|] == prefix && url[|url| - |suffix|..] == suffix
    then Some(url[|prefix|..|url| - |suffix|])
    else None
  }

  /** The id a per-camera URL was built from can be read back from it. */
  lemma CameraIdRoundTrip(cfg: Config, id: string)
    ensures CameraIdOf(cfg, CameraUrl(cfg, id)) == Some(id)
  {
    var prefix := Scheme + cfg.host + CollectionPath + "/";
    var suffix := KeyQuery + cfg.apiKey;
    var url := CameraUrl(cfg, id);
    assert url == prefix + id + suffix;
    assert url[..|prefix|] == prefix;
    assert url[|url| - |suffix|..] == suffix;
    assert url[|prefix|..|url| - |suffix|] == id;
  }

  /**
   * Distinct camera ids give distinct URL strings. This is about the strings
   * only: an id holding `#` or `?` changes how the URL is parsed when sent.
   */
  lemma CameraUrlInjective(cfg: Config, id1: string, id2: string)
    requires CameraUrl(cfg, id1) == CameraUrl(cfg, id2)
    ensures id1 == id2
  {
    CameraIdRoundTrip(cfg, id1);
    CameraIdRoundTrip(cfg, id2);
  }

  /** The list URL never addresses a single camera. */
  lemma ListUrlIsNotCameraUrl(cfg: Config, id: string)
    ensures ListUrl(cfg) != CameraUrl(cfg, id)
  {
  }

  /** Both URLs start with the host and end with the key. */
  lemma UrlsCarryHostAndKey(cfg: Config, id: string)
    ensures var prefix := Scheme + cfg.host;
            && ListUrl(cfg)[..|prefix|] == prefix
            && CameraUrl(cfg, id)[..|prefix|] == prefix
    ensures var suffix := KeyQuery + cfg.apiKey;
            && ListUrl(cfg)[|ListUrl(cfg)| - |suffix|..] == suffix
            && CameraUrl(cfg, id)[|CameraUrl(cfg, id)| - |suffix|..] == suffix
  {
  }
}
