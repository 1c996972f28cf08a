/**
  The configuration the program reads once at start-up, the checks that may
  stop it before anything runs, and the choice between one scan and scanning
  forever.
 */
module Startup {
  import opened Wrappers
  import opened Json

  /** The fields of `config.json` the program destructures; each may be any JSON value or missing. */
  datatype Config = Config(
    channelId: Value,
    scanInterval: Value,
    apiKey: Value,
    relevanceLanguage: Value,
    regionCode: Value,
    outputDir: Value,
    useHtml: Value)

  /** Why the program stops before scanning, one per start-up message. */
  datatype StopReason = NoChannelId | NoApiKey | NoOutputDir

  /** How the program runs: it stops at once, scans and rips once, or scans every `interval` milliseconds forever. */
  datatype Mode = Exit(reason: StopReason) | SingleShot | Continuous(interval: Value)

  /** The detection strategy: the Data API search, or the channel's live page in a headless browser. */
  datatype Strategy = ViaApi | ViaHtml

  /** The three required settings are present: a channel, an API key unless the page is scraped, an output directory. */
  predicate Runnable(cfg: Config) {
    Truthy(cfg.channelId) && (Truthy(cfg.useHtml) || Truthy(cfg.apiKey)) && Truthy(cfg.outputDir)
  }

  /** The start-up checks in the program's order, then the choice of run mode. */
  function RunMode(cfg: Config): (m: Mode)
    ensures m.Continuous? ==> Truthy(m.interval)
  {
    if !Truthy(cfg.channelId) then Exit(NoChannelId)
    else if !Truthy(cfg.useHtml) && !Truthy(cfg.apiKey) then Exit(NoApiKey)
    else if !Truthy(cfg.outputDir) then Exit(NoOutputDir)
    else if Truthy(cfg.scanInterval) then Continuous(cfg.scanInterval)
    else SingleShot
  }

  function StrategyOf(cfg: Config): (s: Strategy)
    ensures s == ViaHtml <==> Truthy(cfg.useHtml)
  {
    if Truthy(cfg.useHtml) then ViaHtml else ViaApi
  }

  /** Nothing runs unless the required settings are present. */
  lemma RunModeGate(cfg: Config)
    ensures RunMode(cfg).Exit? <==> !Runnable(cfg)
  {
  }

  /**
    Once the settings are present, a falsy interval means exactly one cycle and
    a truthy one means cycles forever, paced by that interval.
   */
  lemma RunModeCycles(cfg: Config)
    ensures RunMode(cfg) == SingleShot <==> Runnable(cfg) && !Truthy(cfg.scanInterval)
    ensures RunMode(cfg).Continuous? <==> Runnable(cfg) && Truthy(cfg.scanInterval)
    ensures RunMode(cfg).Continuous? ==> RunMode(cfg).interval == cfg.scanInterval
  {
  }

  /**
    The stop message names the first missing setting: the channel before the
    key, the key before the directory. A missing key stops the program only
    when the API is the strategy.
   */
  lemma StopReasonIsFirstMissing(cfg: Config)
    ensures !Truthy(cfg.channelId) ==> RunMode(cfg) == Exit(NoChannelId)
    ensures RunMode(cfg) == Exit(NoApiKey) <==>
              Truthy(cfg.channelId) && StrategyOf(cfg) == ViaApi && !Truthy(cfg.apiKey)
    ensures RunMode(cfg) == Exit(NoOutputDir) <==>
              Truthy(cfg.channelId) && (Truthy(cfg.useHtml) || Truthy(cfg.apiKey)) && !Truthy(cfg.outputDir)
  {
  }

  /** Whenever the program goes on to scan with the API, it has a key to query with. */
  lemma ApiScanHasKey(cfg: Config)
    requires !RunMode(cfg).Exit? && StrategyOf(cfg) == ViaApi
    ensures Truthy(cfg.apiKey)
  {
  }

  /** Some setting that `getApiUrl` writes into the URL cannot be converted to a string. */
  predicate ApiUrlThrows(cfg: Config) {
    || ToStringThrows(cfg.channelId) || ToStringThrows(cfg.apiKey)
    || ToStringThrows(cfg.regionCode) || ToStringThrows(cfg.relevanceLanguage)
  }

  /**
    `getApiUrl()`: the Data API search for live videos of the channel, with the
    key, region and language as query parameters; `None` when building the
    template throws.
   */
  function ApiUrl(cfg: Config): (u: Option<string>)
    ensures u.None? <==> ApiUrlThrows(cfg)
    ensures u.Some? ==>
              u.value == ApiUrlText(ToJsString(cfg.channelId).value, ToJsString(cfg.apiKey).value,
                                    ToJsString(cfg.regionCode).value, ToJsString(cfg.relevanceLanguage).value)
  {
    var c, k := ToJsString(cfg.channelId), ToJsString(cfg.apiKey);
    var region, language := ToJsString(cfg.regionCode), ToJsString(cfg.relevanceLanguage);
    if c.Some? && k.Some? && region.Some? && language.Some? then
      Some(ApiUrlText(c.value, k.value, region.value, language.value))
    else None
  }

  /**
    The text of the template once every setting has its string: the search
    endpoint with `part=snippet`, the channel id, the live video filter and the
    key, then region and language.
   */
  function ApiUrlText(c: string, k: string, region: string, language: string): (u: string)
    ensures var head := ApiEndpoint + c + LiveVideoQuery + k;
            |u| >= |head| && u[..|head|] == head
  {
    var head := ApiEndpoint + c + LiveVideoQuery + k;
    var u := head + ("&regionCode=" + region + "&relevanceLanguage=" + language);
    assert u[..|head|] == head;
    u
  }

  const ApiEndpoint := "https://www.googleapis.com/youtube/v3/search?part=snippet&channelId="
  const LiveVideoQuery := "&eventType=live&type=video&key="

  /** The value of a query parameter: the characters up to the next `&` or the end. */
  function QueryValue(s: string): (r: string)
    ensures |r| <= |s| && r == s[..|r|] && '&' !in r
    ensures |r| == |s| || s[|r|] == '&'
  {
    if s == [] || s[0] == '&' then [] else [s[0]] + QueryValue(s[1..])
  }

  /** A value without `&` reads back from a query string where it is followed by the next parameter or the end. */
  lemma {:induction false} QueryValueOf(v: string, rest: string)
    requires '&' !in v && (rest == [] || rest[0] == '&')
    ensures QueryValue(v + rest) == v
  {
    if v != [] {
      assert (v + rest)[0] == v[0] && (v + rest)[1..] == v[1..] + rest;
      QueryValueOf(v[1..], rest);
    }
  }

  /** The same, for a value that starts right after `prefix`. */
  lemma QueryValueAfter(prefix: string, v: string, rest: string)
    requires '&' !in v && (rest == [] || rest[0] == '&')
    ensures QueryValue((prefix + v + rest)[|prefix|..]) == v
  {
    assert (prefix + v + rest)[|prefix|..] == v + rest;
    QueryValueOf(v, rest);
  }

  /** A channel id and a key without `&` read back out of the URL text as the `channelId` and `key` values. */
  lemma ApiUrlTextCarriesChannelAndKey(c: string, k: string, region: string, language: string)
    requires '&' !in c && '&' !in k
    ensures var u := ApiUrlText(c, k, region, language);
            && QueryValue(u[|ApiEndpoint|..]) == c
            && QueryValue(u[|ApiEndpoint + c + LiveVideoQuery|..]) == k
  {
    var e, q := ApiEndpoint, LiveVideoQuery;
    var tail := "&regionCode=" + region + "&relevanceLanguage=" + language;
    assert tail[0] == '&';
    assert q[0] == '&';
    var u := e + c + q + k + tail;
    assert ApiUrlText(c, k, region, language) == u;
    assert u == e + c + (q + k + tail);
    QueryValueAfter(e, c, q + k + tail);
    QueryValueAfter(e + c + q, k, tail);
  }

  /**
    A channel id and a key that are strings without `&` read back out of the
    request URL: `channelId` right after the endpoint, `key` after the live
    video filter.
   */
  lemma ApiUrlCarriesChannelAndKey(cfg: Config, c: string, k: string)
    requires cfg.channelId == Str(c) && cfg.apiKey == Str(k) && '&' !in c && '&' !in k
    requires !ToStringThrows(cfg.regionCode) && !ToStringThrows(cfg.relevanceLanguage)
    ensures ApiUrl(cfg).Some?
    ensures QueryValue(ApiUrl(cfg).value[|ApiEndpoint|..]) == c
    ensures QueryValue(ApiUrl(cfg).value[|ApiEndpoint + c + LiveVideoQuery|..]) == k
  {
    ApiUrlTextCarriesChannelAndKey(c, k, ToJsString(cfg.regionCode).value, ToJsString(cfg.relevanceLanguage).value);
  }
}
