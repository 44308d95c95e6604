/** `sitemap()`: the seven static pages, then one entry per news article and one per artist. */
module Sitemap {
  import opened Js
  import Seo

  datatype Frequency = Daily | Weekly | Monthly

  /** A sitemap entry. `lastModified` is an opaque timestamp. */
  datatype Entry = Entry(url: string, lastModified: int, changeFrequency: Frequency)

  /** The `id` and `updatedAt` columns a `findMany` selects. */
  datatype Stamp = Stamp(id: string, updatedAt: int)

  /** The static pages, all stamped with the time the sitemap is built. */
  function StaticPages(baseUrl: string, now: int): (r: seq<Entry>)
    ensures |r| == 7
    ensures r[0].url == baseUrl && r[1].url == baseUrl + "/news" && r[2].url == baseUrl + "/artists"
    ensures r[3].url == baseUrl + "/videos" && r[4].url == baseUrl + "/events"
    ensures r[5].url == baseUrl + "/contact" && r[6].url == baseUrl + "/about"
    ensures forall i :: 0 <= i < 7 ==> r[i].lastModified == now
    ensures r[0].changeFrequency == Daily && r[1].changeFrequency == Daily && r[2].changeFrequency == Weekly
    ensures r[3].changeFrequency == Daily && r[4].changeFrequency == Weekly
    ensures r[5].changeFrequency == Monthly && r[6].changeFrequency == Monthly
  {
    [Entry(baseUrl, now, Daily), Entry(baseUrl + "/news", now, Daily), Entry(baseUrl + "/artists", now, Weekly),
     Entry(baseUrl + "/videos", now, Daily), Entry(baseUrl + "/events", now, Weekly),
     Entry(baseUrl + "/contact", now, Monthly), Entry(baseUrl + "/about", now, Monthly)]
  }

  /** The entries of one dynamic section: `baseUrl + prefix + id`, stamped with `updatedAt`. */
  function Pages(baseUrl: string, prefix: string, rows: seq<Stamp>, freq: Frequency): (r: seq<Entry>)
    ensures |r| == |rows|
    ensures forall i :: 0 <= i < |rows| ==>
              r[i] == Entry(baseUrl + prefix + rows[i].id, rows[i].updatedAt, freq)
  {
    seq(|rows|, i requires 0 <= i < |rows| => Entry(baseUrl + prefix + rows[i].id, rows[i].updatedAt, freq))
  }

  /** `sitemap()`. `news` and `artists` are the two reads, `None` when one throws (the artists
      are read only after the news succeeds); `now` stands for `new Date()`. */
  function Build(siteUrlEnv: Option<string>, now: int, news: Option<seq<Stamp>>, artists: Option<seq<Stamp>>)
    : (r: seq<Entry>)
    ensures |r| >= 7 && r[..7] == StaticPages(Seo.SiteUrl(siteUrlEnv), now)
    ensures news.None? || artists.None? ==> r == StaticPages(Seo.SiteUrl(siteUrlEnv), now)
    ensures news.Some? && artists.Some? ==>
              r == StaticPages(Seo.SiteUrl(siteUrlEnv), now) + Pages(Seo.SiteUrl(siteUrlEnv), "/news/", news.value, Weekly)
                   + Pages(Seo.SiteUrl(siteUrlEnv), "/artists/", artists.value, Monthly)
    ensures news.Some? && artists.Some? ==>
              && |r| == 7 + |news.value| + |artists.value|
              && (forall i :: 0 <= i < |news.value| ==>
                    r[7 + i].url == Seo.SiteUrl(siteUrlEnv) + "/news/" + news.value[i].id
                    && r[7 + i].lastModified == news.value[i].updatedAt && r[7 + i].changeFrequency == Weekly)
              && (forall j :: 0 <= j < |artists.value| ==>
                    r[7 + |news.value| + j].url == Seo.SiteUrl(siteUrlEnv) + "/artists/" + artists.value[j].id
                    && r[7 + |news.value| + j].lastModified == artists.value[j].updatedAt
                    && r[7 + |news.value| + j].changeFrequency == Monthly)
  {
    var baseUrl := Seo.SiteUrl(siteUrlEnv);
    var staticPages := StaticPages(baseUrl, now);
    if news.None? || artists.None? then staticPages
    else
      var n := Pages(baseUrl, "/news/", news.value, Weekly);
      var a := Pages(baseUrl, "/artists/", artists.value, Monthly);
      var r := staticPages + n + a;
      assert r[..7] == staticPages;
      assert forall i :: 0 <= i < |n| ==> r[7 + i] == n[i];
      assert forall j :: 0 <= j < |a| ==> r[7 + |n| + j] == a[j];
      r
  }

  lemma PrefixOfAppend(a: string, b: string)
    ensures a <= a + b
  {
    assert (a + b)[..|a|] == a;
  }

  lemma StaticUnderBase(baseUrl: string, now: int)
    ensures forall k :: 0 <= k < 7 ==> baseUrl <= StaticPages(baseUrl, now)[k].url
  {
    var r := StaticPages(baseUrl, now);
    PrefixOfAppend(baseUrl, "/news");
    PrefixOfAppend(baseUrl, "/artists");
    PrefixOfAppend(baseUrl, "/videos");
    PrefixOfAppend(baseUrl, "/events");
    PrefixOfAppend(baseUrl, "/contact");
    PrefixOfAppend(baseUrl, "/about");
  }

  lemma PagesUnderBase(baseUrl: string, prefix: string, rows: seq<Stamp>, freq: Frequency)
    ensures forall k :: 0 <= k < |rows| ==> baseUrl <= Pages(baseUrl, prefix, rows, freq)[k].url
  {
    forall k | 0 <= k < |rows| ensures baseUrl <= Pages(baseUrl, prefix, rows, freq)[k].url {
      PrefixOfAppend(baseUrl, prefix + rows[k].id);
      assert baseUrl + prefix + rows[k].id == baseUrl + (prefix + rows[k].id);
    }
  }

  /** Every URL in the sitemap lies under the base URL. */
  lemma UrlsUnderBase(siteUrlEnv: Option<string>, now: int, news: Option<seq<Stamp>>, artists: Option<seq<Stamp>>)
    ensures var r := Build(siteUrlEnv, now, news, artists);
            forall k :: 0 <= k < |r| ==> Seo.SiteUrl(siteUrlEnv) <= r[k].url
  {
    var baseUrl := Seo.SiteUrl(siteUrlEnv);
    var s := StaticPages(baseUrl, now);
    StaticUnderBase(baseUrl, now);
    if news.Some? && artists.Some? {
      var n := Pages(baseUrl, "/news/", news.value, Weekly);
      var a := Pages(baseUrl, "/artists/", artists.value, Monthly);
      PagesUnderBase(baseUrl, "/news/", news.value, Weekly);
      PagesUnderBase(baseUrl, "/artists/", artists.value, Monthly);
      var r := s + n + a;
      assert Build(siteUrlEnv, now, news, artists) == r;
      forall k | 0 <= k < |r| ensures baseUrl <= r[k].url {
        if k < 7 {
          assert r[k] == s[k];
        } else if k < 7 + |n| {
          assert r[k] == n[k - 7];
        } else {
          assert r[k] == a[k - 7 - |n|];
        }
      }
    }
  }

  /** Articles with different ids get different entries, and so do artists. */
  lemma DistinctIdsDistinctUrls(baseUrl: string, prefix: string, a: Stamp, b: Stamp)
    requires a.id != b.id
    ensures baseUrl + prefix + a.id != baseUrl + prefix + b.id
  {
    var n := |baseUrl + prefix|;
    assert (baseUrl + prefix + a.id)[n..] == a.id;
    assert (baseUrl + prefix + b.id)[n..] == b.id;
  }
}
