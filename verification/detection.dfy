/**
  Live detection, reduced to its decisions: what the two strategies make of
  what the API answered or what the live page showed. The HTTP request, the
  browser session and `path.resolve` stay outside; their results come in as
  values.
 */
module Detection {
  import opened Wrappers
  import opened Json
  import opened Text
  import opened Emptiness
  import opened Startup

  /** What a detection hands to the ripper: stream URL, quality, output directory, file name. */
  datatype Capture = Capture(url: string, quality: string, outdir: string, filename: string)

  /** What the API request gave: the parsed `response.data`, or an error (network, HTTP status, provider error body). */
  datatype ApiObservation = Response(data: Value) | RequestFailed

  /**
    What the browser saw on the channel's live page: whether a live-chat frame
    is there, and the text of the title element when the title container and
    its text node were both found; or an error from the browser session.
   */
  datatype PageObservation = Page(chatPresent: bool, title: Option<string>) | BrowserFailed

  const WatchPrefix := "https://www.youtube.com/watch?v="
  const ChannelPrefix := "https://www.youtube.com/channel/"

  /** `getVideoUrl(videoId)`: the watch page of the video, `None` when `${videoId}` throws. */
  function VideoUrl(videoId: Value): (u: Option<string>)
    ensures u.None? <==> ToStringThrows(videoId)
    ensures u.Some? ==>
              |u.value| >= |WatchPrefix| && u.value[..|WatchPrefix|] == WatchPrefix
              && u.value[|WatchPrefix|..] == ToJsString(videoId).value
  {
    match ToJsString(videoId)
    case None => None
    case Some(id) => Some(WatchPrefix + id)
  }

  /** `getChannelLiveUrl()`: the channel's `/live` page, `None` when `${channelId}` throws. */
  function ChannelLiveUrl(channelId: Value): (u: Option<string>)
    ensures u.None? <==> ToStringThrows(channelId)
    ensures u.Some? ==>
              var c := ToJsString(channelId).value;
              |u.value| == |ChannelPrefix| + |c| + 5 && u.value[..|ChannelPrefix|] == ChannelPrefix
              && u.value[|ChannelPrefix|..|u.value| - 5] == c && u.value[|u.value| - 5..] == "/live"
  {
    match ToJsString(channelId)
    case None => None
    case Some(c) => Some(ChannelPrefix + c + "/live")
  }

  predicate EndsWithTs(s: string) {
    |s| >= 3 && s[|s| - 3..] == ".ts"
  }

  /** `response.data.items`, where missing data counts as `{}`. */
  function Items(data: Value): (items: Value)
    ensures !Truthy(data) ==> items == Undefined
    ensures data.Obj? ==> items == Lookup(data.props, "items")
  {
    GetProp(Or(data, Obj([], true)), "items")
  }

  /** `items[0]`, the search result the program looks at. */
  function FirstItem(data: Value): Value {
    FirstElement(Items(data))
  }

  /** `id` and `snippet` of the first result, `videoId` of the former and `title` of the latter. */
  function ItemId(data: Value): Value { GetProp(FirstItem(data), "id") }
  function ItemSnippet(data: Value): Value { GetProp(FirstItem(data), "snippet") }
  function VideoId(data: Value): Value { GetProp(ItemId(data), "videoId") }
  function Title(data: Value): Value { GetProp(ItemSnippet(data), "title") }

  /**
    The `.then` body of the API strategy. An empty `items` gives nothing;
    destructuring a `null` or `undefined` first item throws, which the
    strategy's `.catch` turns into nothing; an empty `id` or `snippet` gives
    nothing; so does a `videoId` or file name whose `${…}` throws. Otherwise the
    watch URL of `id.videoId`, quality "best", and the title (or the video id
    when the title is falsy) with ".ts" appended.
   */
  function ApiCapture(data: Value, outdir: string): (r: Option<Capture>)
    ensures r.None? <==>
              || Empty(Items(data)) || FirstItem(data).Null? || FirstItem(data).Undefined?
              || Empty(ItemId(data)) || Empty(ItemSnippet(data))
              || ToStringThrows(VideoId(data)) || ToStringThrows(Or(Title(data), VideoId(data)))
    ensures r.Some? ==>
              && r.value.url == VideoUrl(VideoId(data)).value && r.value.quality == "best" && r.value.outdir == outdir
              && r.value.filename == ToJsString(Or(Title(data), VideoId(data))).value + ".ts"
    ensures r.Some? ==> EndsWithTs(r.value.filename)
    ensures r.Some? ==> |r.value.url| >= |WatchPrefix| && r.value.url[..|WatchPrefix|] == WatchPrefix
  {
    var items := Items(data);
    if Empty(items) then None
    else
      var live := FirstElement(items);
      if live.Null? || live.Undefined? then None
      else
        var id := GetProp(live, "id");
        var snippet := GetProp(live, "snippet");
        if Empty(id) || Empty(snippet) then None
        else
          var videoId := GetProp(id, "videoId");
          var title := GetProp(snippet, "title");
          match VideoUrl(videoId)
          case None => None
          case Some(url) =>
            match ToJsString(Or(title, videoId))
            case None => None
            case Some(name) =>
              var filename := name + ".ts";
              assert filename[|filename| - 3..] == ".ts";
              Some(Capture(url, "best", outdir, filename))
  }

  /**
    The decision inside the HTML strategy: `${channelId}` throwing (it is
    written into a log line and into the page URL before the browser starts),
    no chat frame, or no truthy title, means nothing; otherwise the channel's
    live URL, quality "best", and the title with ".ts" appended.
   */
  function HtmlCapture(channelId: Value, chatPresent: bool, title: Option<string>, outdir: string): (r: Option<Capture>)
    ensures r.Some? <==> !ToStringThrows(channelId) && chatPresent && title.Some? && title.value != ""
    ensures r.Some? ==>
              && Some(r.value.url) == ChannelLiveUrl(channelId) && r.value.quality == "best"
              && r.value.outdir == outdir && r.value.filename == title.value + ".ts"
  {
    match ChannelLiveUrl(channelId)
    case None => None
    case Some(url) =>
      if !chatPresent then None
      else match title
        case Some(t) => if t != "" then Some(Capture(url, "best", outdir, t + ".ts")) else None
        case None => None
  }

  /**
    The strategy chosen by `useHtml`, applied to what it observed. Any error
    means nothing was detected: a failed request or browser session, for the
    API strategy a request URL that cannot be built, and an `outputDir` that
    is not a string, on which `path.resolve` throws once a broadcast is found.
   */
  function Detect(cfg: Config, api: ApiObservation, page: PageObservation, outdir: string): (r: Option<Capture>)
    ensures !cfg.outputDir.Str? ==> r == None
    ensures cfg.outputDir.Str? && Truthy(cfg.useHtml) ==>
              r == if page.Page? then HtmlCapture(cfg.channelId, page.chatPresent, page.title, outdir) else None
    ensures cfg.outputDir.Str? && !Truthy(cfg.useHtml) ==>
              r == if ApiUrl(cfg).Some? && api.Response? then ApiCapture(api.data, outdir) else None
  {
    if !cfg.outputDir.Str? then None
    else match StrategyOf(cfg)
      case ViaHtml =>
        (match page
         case Page(chat, title) => HtmlCapture(cfg.channelId, chat, title, outdir)
         case BrowserFailed => None)
      case ViaApi =>
        if ApiUrl(cfg).None? then None
        else match api
          case Response(data) => ApiCapture(data, outdir)
          case RequestFailed => None
  }

  /**
    Both strategies hand over the same shape: quality "best", the given output
    directory, a ".ts" file, and either a watch URL (API) or the channel's live
    URL (HTML). A failed request or browser session, an API URL that cannot be
    built, or an output directory that is not a string, detects nothing.
   */
  lemma DetectShape(cfg: Config, api: ApiObservation, page: PageObservation, outdir: string)
    ensures api.RequestFailed? && !Truthy(cfg.useHtml) ==> Detect(cfg, api, page, outdir) == None
    ensures ApiUrlThrows(cfg) && !Truthy(cfg.useHtml) ==> Detect(cfg, api, page, outdir) == None
    ensures page.BrowserFailed? && Truthy(cfg.useHtml) ==> Detect(cfg, api, page, outdir) == None
    ensures !cfg.outputDir.Str? ==> Detect(cfg, api, page, outdir) == None
    ensures var r := Detect(cfg, api, page, outdir);
            r.Some? ==>
              && r.value.quality == "best" && r.value.outdir == outdir && EndsWithTs(r.value.filename)
              && (if Truthy(cfg.useHtml) then Some(r.value.url) == ChannelLiveUrl(cfg.channelId)
                  else |r.value.url| >= |WatchPrefix| && r.value.url[..|WatchPrefix|] == WatchPrefix)
  {
    var r := Detect(cfg, api, page, outdir);
    if r.Some? && Truthy(cfg.useHtml) {
      var t := page.title.value;
      assert r.value.filename == t + ".ts";
      assert r.value.filename[|r.value.filename| - 3..] == ".ts";
    }
  }

  /** One search result as the Data API returns it: an `id` with the video id and a `snippet` with channel and title. */
  function SearchItem(videoId: string, channelId: string, title: string): Value {
    Obj([
      Prop("kind", Str("youtube#searchResult")),
      Prop("id", Obj([Prop("kind", Str("youtube#video")), Prop("videoId", Str(videoId))], true)),
      Prop("snippet", Obj([Prop("channelId", Str(channelId)), Prop("title", Str(title))], true))
    ], true)
  }

  /** The parts of a search result the API strategy reads. */
  lemma SearchItemLookups(videoId: string, channelId: string, title: string)
    ensures var item := SearchItem(videoId, channelId, title);
            && GetProp(item, "id") == Obj([Prop("kind", Str("youtube#video")), Prop("videoId", Str(videoId))], true)
            && GetProp(item, "snippet") == Obj([Prop("channelId", Str(channelId)), Prop("title", Str(title))], true)
            && GetProp(GetProp(item, "id"), "videoId") == Str(videoId)
            && GetProp(GetProp(item, "snippet"), "title") == Str(title)
  {
    var item := SearchItem(videoId, channelId, title);
    var id := Obj([Prop("kind", Str("youtube#video")), Prop("videoId", Str(videoId))], true);
    var snippet := Obj([Prop("channelId", Str(channelId)), Prop("title", Str(title))], true);
    assert item.props[1..] == [Prop("id", id), Prop("snippet", snippet)];
    assert item.props[1..][1..] == [Prop("snippet", snippet)];
    assert id.props[1..] == [Prop("videoId", Str(videoId))];
    assert snippet.props[1..] == [Prop("title", Str(title))];
    assert "kind" != "id" && "id" != "snippet" && "kind" != "snippet";
    assert "kind" != "videoId" && "channelId" != "title";
    assert GetProp(item, "id") == Lookup(item.props[1..], "id") == id;
    assert GetProp(item, "snippet") == Lookup(item.props[1..], "snippet") == Lookup(item.props[1..][1..], "snippet") == snippet;
    assert GetProp(id, "videoId") == Lookup(id.props[1..], "videoId") == Str(videoId);
    assert GetProp(snippet, "title") == Lookup(snippet.props[1..], "title") == Str(title);
  }

  /** An object with one non-blank string property is not empty. */
  lemma ObjectWithTextIsNotEmpty(props: seq<Prop>, i: nat, s: string)
    requires i < |props| && props[i].val == Str(s) && !AllWhitespace(s)
    ensures !Empty(Obj(props, true))
  {
    EmptyStringIffWhitespace(s);
  }

  /**
    Whether `isEmpty` rejects the parts of a search result the API strategy
    reads: `id` always has its `kind`, so it is never empty; `snippet` is not
    empty as soon as the channel id or the title is not blank.
   */
  lemma SearchItemParts(videoId: string, channelId: string, title: string)
    requires !AllWhitespace(channelId) || !AllWhitespace(title)
    ensures var item := SearchItem(videoId, channelId, title);
            && !Empty(GetProp(item, "id")) && !Empty(GetProp(item, "snippet"))
            && GetProp(GetProp(item, "id"), "videoId") == Str(videoId)
            && GetProp(GetProp(item, "snippet"), "title") == Str(title)
  {
    SearchItemLookups(videoId, channelId, title);
    var kind := "youtube#video";
    assert !IsWhitespace(kind[0]);
    ObjectWithTextIsNotEmpty([Prop("kind", Str(kind)), Prop("videoId", Str(videoId))], 0, kind);
    if !AllWhitespace(channelId) {
      ObjectWithTextIsNotEmpty([Prop("channelId", Str(channelId)), Prop("title", Str(title))], 0, channelId);
    } else {
      ObjectWithTextIsNotEmpty([Prop("channelId", Str(channelId)), Prop("title", Str(title))], 1, title);
    }
  }

  /**
    A search answer whose first result has a channel id or a title that is not
    blank: the capture is the video's watch URL, quality "best", and the title,
    or the video id when the title is "", with ".ts" appended. Later results
    are ignored.
   */
  lemma ApiCaptureOfFirstResult(videoId: string, channelId: string, title: string, rest: seq<Value>, outdir: string)
    requires !AllWhitespace(channelId) || !AllWhitespace(title)
    ensures ApiCapture(Obj([Prop("items", Arr([SearchItem(videoId, channelId, title)] + rest))], true), outdir)
            == Some(Capture(WatchPrefix + videoId, "best", outdir, (if title != "" then title else videoId) + ".ts"))
  {
    var item := SearchItem(videoId, channelId, title);
    var items := Arr([item] + rest);
    var data := Obj([Prop("items", items)], true);
    assert Items(data) == items;
    assert FirstElement(items) == item;
    SearchItemParts(videoId, channelId, title);
    assert ToJsString(Or(Str(title), Str(videoId))) == Some(if title != "" then title else videoId);
  }

  /**
    The `kind` field keeps `id` from ever being empty, so a result without a
    video id is still captured: the URL is the bare watch prefix and the file
    is named after the title.
   */
  lemma ApiCaptureBlankVideoId(channelId: string, title: string, outdir: string)
    requires !AllWhitespace(title)
    ensures ApiCapture(Obj([Prop("items", Arr([SearchItem("", channelId, title)]))], true), outdir)
            == Some(Capture(WatchPrefix, "best", outdir, title + ".ts"))
  {
    assert title != [];
    ApiCaptureOfFirstResult("", channelId, title, [], outdir);
    assert [SearchItem("", channelId, title)] + [] == [SearchItem("", channelId, title)];
    assert WatchPrefix + "" == WatchPrefix;
  }

  /**
    A title that is an object with its own `toString` property makes
    `${title || videoId}` throw; the strategy's `.catch` swallows the error, so
    nothing is detected although `id` and `snippet` are not empty.
   */
  lemma ApiCaptureThrowingTitle(videoId: string, outdir: string)
    requires !AllWhitespace(videoId)
    ensures var item := Obj([
              Prop("id", Obj([Prop("videoId", Str(videoId))], true)),
              Prop("snippet", Obj([Prop("title", Obj([Prop("toString", Number(1))], true))], true))], true);
            ApiCapture(Obj([Prop("items", Arr([item]))], true), outdir) == None
  {
    var title := Obj([Prop("toString", Number(1))], true);
    var snippet := Obj([Prop("title", title)], true);
    var item := Obj([Prop("id", Obj([Prop("videoId", Str(videoId))], true)), Prop("snippet", snippet)], true);
    var data := Obj([Prop("items", Arr([item]))], true);
    assert "id" != "snippet";
    assert GetProp(item, "snippet") == Lookup(item.props[1..], "snippet") == snippet;
    assert Title(data) == title;
    assert title.props[0].key == "toString";
    assert ToStringThrows(Or(Title(data), VideoId(data)));
  }

  /**
    An answer without results, or without an `items` list at all, or with no
    data, detects nothing.
   */
  lemma ApiCaptureWithoutItems(props: seq<Prop>, outdir: string)
    requires forall i :: 0 <= i < |props| ==> props[i].key != "items"
    ensures ApiCapture(Obj([Prop("items", Arr([]))], true), outdir) == None
    ensures ApiCapture(Obj(props, true), outdir) == None
    ensures ApiCapture(Null, outdir) == None
  {
    LookupAbsent(props, "items");
  }

  /**
    A first result whose `snippet` holds nothing but a blank title counts as
    empty, so a live video with a valid id is not detected.
   */
  lemma ApiCaptureBlankSnippet(videoId: string, blank: string, outdir: string)
    requires AllWhitespace(blank)
    ensures var item := Obj([
              Prop("id", Obj([Prop("videoId", Str(videoId))], true)),
              Prop("snippet", Obj([Prop("title", Str(blank))], true))], true);
            ApiCapture(Obj([Prop("items", Arr([item]))], true), outdir) == None
  {
    var snippet := Obj([Prop("title", Str(blank))], true);
    var item := Obj([Prop("id", Obj([Prop("videoId", Str(videoId))], true)), Prop("snippet", snippet)], true);
    assert "id" != "snippet";
    assert GetProp(item, "snippet") == Lookup(item.props[1..], "snippet") == snippet;
    EmptyStringIffWhitespace(blank);
    assert Empty(snippet);
  }
}
