/** Page metadata (`generateMetadata`) and schema.org structured data
    (`generateStructuredData`). The site URL comes from `NEXT_PUBLIC_SITE_URL`, passed in
    as `siteUrlEnv`. */
module Seo {
  import opened Js
  import opened Text

  const SiteName := "Injai Channel"
  const DefaultSiteUrl := "https://injai-channel.com"

  /** `process.env.NEXT_PUBLIC_SITE_URL || 'https://injai-channel.com'` */
  function SiteUrl(siteUrlEnv: Option<string>): (r: string)
    ensures Given(siteUrlEnv) ==> r == siteUrlEnv.value
    ensures !Given(siteUrlEnv) ==> r == DefaultSiteUrl
  {
    if Given(siteUrlEnv) then siteUrlEnv.value else DefaultSiteUrl
  }

  /** `s.startsWith('http')` */
  predicate IsAbsolute(s: string)
  {
    "http" <= s
  }

  /** The page title: kept when it already names the site, else suffixed with it. */
  function FullTitle(title: string): (r: string)
    ensures Contains(title, SiteName) ==> r == title
    ensures !Contains(title, SiteName) ==> r == title + " | " + SiteName
  {
    if Contains(title, SiteName) then title else title + " | " + SiteName
  }

  /** Every full title names the site, so suffixing twice never happens. */
  lemma FullTitleIdempotent(title: string)
    ensures Contains(FullTitle(title), SiteName)
    ensures FullTitle(FullTitle(title)) == FullTitle(title)
  {
    if !Contains(title, SiteName) {
      assert SiteName <= SiteName;
      ContainsAfter(title + " | ", SiteName, SiteName);
      assert title + " | " + SiteName == (title + " | ") + SiteName;
    }
  }

  /** A page-relative path made absolute against the site URL; `absent` when the value is
      missing or empty. Shared by the image (`absent` is the default image) and the URL
      (`absent` is the site URL itself). */
  function Absolute(siteUrl: string, path: Option<string>, absent: string): (r: string)
    ensures !Given(path) ==> r == absent
    ensures Given(path) && IsAbsolute(path.value) ==> r == path.value
    ensures Given(path) && !IsAbsolute(path.value) ==> r == siteUrl + path.value
  {
    if !Given(path) then absent
    else if IsAbsolute(path.value) then path.value
    else siteUrl + path.value
  }

  function FullImage(siteUrl: string, image: Option<string>): string
  {
    Absolute(siteUrl, image, siteUrl + "/og-default.jpg")
  }

  function FullUrl(siteUrl: string, url: Option<string>): string
  {
    Absolute(siteUrl, url, siteUrl)
  }

  /** With an absolute site URL every derived URL is absolute, and deriving again from it
      gives it back. */
  lemma AbsoluteIsFixed(siteUrl: string, path: Option<string>, absent: string)
    requires IsAbsolute(siteUrl) && IsAbsolute(absent)
    ensures IsAbsolute(Absolute(siteUrl, path, absent))
    ensures Absolute(siteUrl, Some(Absolute(siteUrl, path, absent)), absent) == Absolute(siteUrl, path, absent)
  {
    if Given(path) && !IsAbsolute(path.value) {
      assert (siteUrl + path.value)[..4] == siteUrl[..4];
    }
  }

  lemma FullImageAndUrlAbsolute(siteUrlEnv: Option<string>, image: Option<string>, url: Option<string>)
    requires !Given(siteUrlEnv) || IsAbsolute(siteUrlEnv.value)
    ensures IsAbsolute(FullImage(SiteUrl(siteUrlEnv), image))
    ensures IsAbsolute(FullUrl(SiteUrl(siteUrlEnv), url))
  {
    var site := SiteUrl(siteUrlEnv);
    assert IsAbsolute(site);
    assert (site + "/og-default.jpg")[..4] == site[..4];
    AbsoluteIsFixed(site, image, site + "/og-default.jpg");
    AbsoluteIsFixed(site, url, site);
  }

  /** The `robots` array built with `push`: the set flags in the order `noindex`, `nofollow`,
      or `index, follow` when neither is set. */
  method Robots(noindex: bool, nofollow: bool) returns (r: seq<string>)
    ensures !noindex && !nofollow ==> r == ["index", "follow"]
    ensures noindex || nofollow ==> (noindex <==> "noindex" in r) && (nofollow <==> "nofollow" in r)
    ensures noindex || nofollow ==> forall i :: 0 <= i < |r| ==> r[i] == "noindex" || r[i] == "nofollow"
    ensures noindex || nofollow ==> |r| == (if noindex then 1 else 0) + (if nofollow then 1 else 0)
    ensures noindex && nofollow ==> r[0] == "noindex"
  {
    r := [];
    if noindex {
      r := r + ["noindex"];
    }
    if nofollow {
      r := r + ["nofollow"];
    }
    if !noindex && !nofollow {
      r := r + ["index", "follow"];
    }
  }

  /** `robots.join(', ')`: the text of the `robots` meta tag. */
  method RobotsLine(noindex: bool, nofollow: bool) returns (line: string)
    ensures !noindex && !nofollow <==> line == "index, follow"
    ensures noindex && !nofollow ==> line == "noindex"
    ensures !noindex && nofollow ==> line == "nofollow"
    ensures noindex && nofollow ==> line == "noindex, nofollow"
  {
    var robots := Robots(noindex, nofollow);
    if noindex && nofollow {
      assert robots == ["noindex", "nofollow"];
    }
    line := Join(robots, ", ");
  }

  /** What a page sets up for search engines and link previews. */
  datatype Config = Config(
    title: string, description: string, keywords: Option<seq<string>>, image: Option<string>,
    url: Option<string>, pageType: Option<string>, publishedTime: Option<string>,
    modifiedTime: Option<string>, author: Option<string>, section: Option<string>,
    tags: Option<seq<string>>, canonical: Option<string>, noindex: Option<bool>, nofollow: Option<bool>)

  datatype OgImage = OgImage(url: string, width: nat, height: nat, alt: string)

  /** The Open Graph block; an optional property is `None` when it is left out of the object. */
  datatype OpenGraph = OpenGraph(
    pageType: string, title: string, description: string, url: string, siteName: string,
    images: seq<OgImage>, publishedTime: Option<string>, modifiedTime: Option<string>,
    authors: Option<seq<string>>, section: Option<string>, tags: Option<seq<string>>)

  datatype Twitter = Twitter(
    card: string, title: string, description: string, images: seq<string>, creator: string, site: string)

  datatype Metadata = Metadata(
    title: string, description: string, keywords: string, robots: string, canonical: string,
    openGraph: OpenGraph, twitter: Twitter,
    articleAuthor: string, articleSection: string, articleTag: string)

  /** A destructuring default: it replaces `undefined` only. */
  function OrDefault<T>(v: Option<T>, d: T): (r: T)
    ensures v.Some? ==> r == v.value
    ensures v.None? ==> r == d
  {
    if v.Some? then v.value else d
  }

  /** `x && { key: x }` spread into an object: present only when `x` is truthy. */
  function IfGiven(x: Option<string>): (r: Option<string>)
    ensures r.Some? <==> Given(x)
    ensures r.Some? ==> r == x
  {
    if Given(x) then x else None
  }

  /** The `openGraph` block of `generateMetadata`, built from the derived title, URL and image. */
  method OpenGraphBlock(config: Config, fullTitle: string, fullUrl: string, fullImage: string)
    returns (og: OpenGraph)
    ensures og.pageType == OrDefault(config.pageType, "website") && og.siteName == SiteName
    ensures og.title == fullTitle && og.description == config.description && og.url == fullUrl
    ensures og.images == [OgImage(fullImage, 1200, 630, config.title)]
    ensures og.publishedTime.Some? <==> Given(config.publishedTime)
    ensures og.modifiedTime.Some? <==> Given(config.modifiedTime)
    ensures og.section.Some? <==> Given(config.section)
    ensures og.publishedTime.Some? ==> og.publishedTime.value == config.publishedTime.value
    ensures og.modifiedTime.Some? ==> og.modifiedTime.value == config.modifiedTime.value
    ensures og.section.Some? ==> og.section.value == config.section.value
    ensures og.authors.Some? <==> Given(config.author)
    ensures og.authors.Some? ==> og.authors.value == [config.author.value]
    ensures og.tags.Some? <==> |OrDefault(config.tags, [])| > 0
    ensures og.tags.Some? ==> og.tags.value == config.tags.value
  {
    var tags := OrDefault(config.tags, []);
    og := OpenGraph(
      OrDefault(config.pageType, "website"), fullTitle, config.description, fullUrl, SiteName,
      [OgImage(fullImage, 1200, 630, config.title)],
      IfGiven(config.publishedTime), IfGiven(config.modifiedTime),
      if Given(config.author) then Some([config.author.value]) else None,
      IfGiven(config.section), if |tags| > 0 then Some(tags) else None);
  }

  /** The `twitter` block of `generateMetadata`. */
  method TwitterBlock(config: Config, fullTitle: string, fullImage: string) returns (tw: Twitter)
    ensures tw.title == fullTitle && tw.description == config.description && tw.images == [fullImage]
    ensures tw.card == "summary_large_image" && tw.creator == "@injai_channel" && tw.site == "@injai_channel"
  {
    tw := Twitter("summary_large_image", fullTitle, config.description, [fullImage],
                  "@injai_channel", "@injai_channel");
  }

  /** The `other` block of `generateMetadata`: the article tags, empty when not given. */
  method ArticleTags(config: Config) returns (author: string, section: string, tag: string)
    ensures author == (if Given(config.author) then config.author.value else "")
    ensures section == (if Given(config.section) then config.section.value else "")
    ensures tag == Join(OrDefault(config.tags, []), ",")
  {
    author := if Given(config.author) then config.author.value else "";
    section := if Given(config.section) then config.section.value else "";
    tag := Join(OrDefault(config.tags, []), ",");
  }

  /** `generateMetadata` */
  method GenerateMetadata(config: Config, siteUrlEnv: Option<string>) returns (m: Metadata)
    ensures m.title == FullTitle(config.title) && m.openGraph.title == m.title && m.twitter.title == m.title
    ensures m.description == config.description
    ensures m.openGraph.description == config.description && m.twitter.description == config.description
    ensures m.keywords == Join(OrDefault(config.keywords, []), ", ")
    ensures m.openGraph.url == FullUrl(SiteUrl(siteUrlEnv), config.url)
    ensures m.canonical == if Given(config.canonical) then config.canonical.value else m.openGraph.url
    ensures m.openGraph.images == [OgImage(FullImage(SiteUrl(siteUrlEnv), config.image), 1200, 630, config.title)]
    ensures m.twitter.images == [FullImage(SiteUrl(siteUrlEnv), config.image)]
    ensures m.openGraph.pageType == OrDefault(config.pageType, "website") && m.openGraph.siteName == SiteName
    ensures var noindex := OrDefault(config.noindex, false);
            var nofollow := OrDefault(config.nofollow, false);
            && (!noindex && !nofollow <==> m.robots == "index, follow")
            && (noindex && !nofollow ==> m.robots == "noindex")
            && (!noindex && nofollow ==> m.robots == "nofollow")
            && (noindex && nofollow ==> m.robots == "noindex, nofollow")
    ensures m.openGraph.publishedTime.Some? <==> Given(config.publishedTime)
    ensures m.openGraph.modifiedTime.Some? <==> Given(config.modifiedTime)
    ensures m.openGraph.section.Some? <==> Given(config.section)
    ensures m.openGraph.publishedTime.Some? ==> m.openGraph.publishedTime.value == config.publishedTime.value
    ensures m.openGraph.modifiedTime.Some? ==> m.openGraph.modifiedTime.value == config.modifiedTime.value
    ensures m.openGraph.section.Some? ==> m.openGraph.section.value == config.section.value
    ensures m.openGraph.authors.Some? <==> Given(config.author)
    ensures m.openGraph.authors.Some? ==> m.openGraph.authors.value == [config.author.value]
    ensures m.openGraph.tags.Some? <==> |OrDefault(config.tags, [])| > 0
    ensures m.openGraph.tags.Some? ==> m.openGraph.tags.value == config.tags.value
    ensures m.articleAuthor == (if Given(config.author) then config.author.value else "")
    ensures m.articleSection == (if Given(config.section) then config.section.value else "")
    ensures m.articleTag == Join(OrDefault(config.tags, []), ",")
    ensures m.twitter.card == "summary_large_image" && m.twitter.creator == "@injai_channel"
            && m.twitter.site == "@injai_channel"
  {
    var siteUrl := SiteUrl(siteUrlEnv);
    var fullTitle := FullTitle(config.title);
    var fullImage := FullImage(siteUrl, config.image);
    var fullUrl := FullUrl(siteUrl, config.url);
    var robots := RobotsLine(OrDefault(config.noindex, false), OrDefault(config.nofollow, false));
    var og := OpenGraphBlock(config, fullTitle, fullUrl, fullImage);
    var twitter := TwitterBlock(config, fullTitle, fullImage);
    var author, section, tag := ArticleTags(config);
    m := Metadata(
      fullTitle, config.description, Join(OrDefault(config.keywords, []), ", "), robots,
      if Given(config.canonical) then config.canonical.value else fullUrl, og, twitter,
      author, section, tag);
  }

  /** The types `generateStructuredData` accepts. */
  datatype SchemaType = Organization | WebSite | Article | Person | Event | MusicGroup | VideoObject

  function SchemaTypeName(t: SchemaType): string
  {
    match t
    case Organization => "Organization"
    case WebSite => "WebSite"
    case Article => "Article"
    case Person => "Person"
    case Event => "Event"
    case MusicGroup => "MusicGroup"
    case VideoObject => "VideoObject"
  }

  /** `generateStructuredData`: the object literal spreads `data` after `@context` and `@type`,
      so `data` can replace them; the site `url` and `logo` (Organization, WebSite) and the
      publisher (Article) are assigned afterwards and replace whatever `data` holds. */
  method StructuredData(t: SchemaType, data: map<string, Val>, siteUrlEnv: Option<string>)
    returns (r: map<string, Val>)
    ensures r.Keys == data.Keys + {"@context", "@type"}
                      + (if t in {Organization, WebSite} then {"url", "logo"} else {})
                      + (if t == Article then {"publisher"} else {})
    ensures "@context" !in data ==> r["@context"] == Str("https://schema.org")
    ensures "@type" !in data ==> r["@type"] == Str(SchemaTypeName(t))
    ensures t in {Organization, WebSite} ==>
              r["url"] == Str(SiteUrl(siteUrlEnv)) && r["logo"] == Str(SiteUrl(siteUrlEnv) + "/logo.png")
    ensures t == Article ==>
              r["publisher"] == Obj(map["@type" := Str("Organization"), "name" := Str(SiteName),
                                        "url" := Str(SiteUrl(siteUrlEnv)),
                                        "logo" := Str(SiteUrl(siteUrlEnv) + "/logo.png")])
    ensures forall k :: (k in data && !(t in {Organization, WebSite} && k in {"url", "logo"})
                         && !(t == Article && k == "publisher")) ==> r[k] == data[k]
  {
    var baseUrl := SiteUrl(siteUrlEnv);
    r := map["@context" := Str("https://schema.org"), "@type" := Str(SchemaTypeName(t))] + data;
    if t == Organization || t == WebSite {
      r := r["url" := Str(baseUrl)];
      r := r["logo" := Str(baseUrl + "/logo.png")];
    }
    if t == Article {
      r := r["publisher" := Obj(map["@type" := Str("Organization"), "name" := Str(SiteName),
                                    "url" := Str(baseUrl), "logo" := Str(baseUrl + "/logo.png")])];
    }
  }

  /** `defaultSEOConfig` */
  const DefaultConfig := Config(
    "Injai Channel - Guigui Rap Culture Hub",
    "The premier destination for Guigui rap culture. Discover the latest videos, artists, and events in the Guigui rap scene.",
    Some(["Injai Channel", "Guigui rap", "hip-hop", "music", "artists", "videos", "events", "Guinea rap", "African rap"]),
    Some("/og-default.jpg"), None, Some("website"), None, None, None, None, None, None, None, None)

  /** The default title already names the site, so it is used as it stands. */
  lemma DefaultTitleKept()
    ensures FullTitle(DefaultConfig.title) == DefaultConfig.title
  {
    assert SiteName <= DefaultConfig.title;
  }
}
