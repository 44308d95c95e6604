/** The public videos page: the grid shown under the search box and the three dropdowns. */
module VideosPage {
  import opened Js
  import opened Text
  import opened Query

  /** `video.artist` as the page receives it: a name, an object with an optional `name`,
      or nothing. */
  datatype ArtistField = Named(name: string) | Record(recordName: Option<string>) | Missing

  /** The fields of a video the page filters on. */
  datatype VideoItem = VideoItem(
    title: string, artist: ArtistField, description: string, category: string, year: string)

  /** `typeof artist === 'string' ? artist : artist?.name || ''` */
  function ArtistName(a: ArtistField): (r: string)
    ensures a.Named? ==> r == a.name
    ensures a.Record? && Given(a.recordName) ==> r == a.recordName.value
    ensures (a.Record? && !Given(a.recordName)) || a.Missing? ==> r == ""
  {
    match a
    case Named(n) => n
    case Record(n) => if Given(n) then n.value else ""
    case Missing => ""
  }

  /** The search: title, artist name or description contains the term, ignoring case. */
  predicate MatchesSearch(v: VideoItem, term: string)
  {
    ContainsIgnoringCase(v.title, term) || ContainsIgnoringCase(ArtistName(v.artist), term)
    || ContainsIgnoringCase(v.description, term)
  }

  /** Whether a video is shown: every filter that is set keeps it. The artist filter is a
      case-insensitive substring test, the category and year filters are exact. */
  predicate Shown(term: string, category: string, year: string, artist: string, v: VideoItem)
  {
    && (term == "" || MatchesSearch(v, term))
    && (category == "all" || v.category == category)
    && (year == "all" || v.year == year)
    && (artist == "all" || ContainsIgnoringCase(ArtistName(v.artist), artist))
  }

  /** `filterVideos`: the search, category, year and artist filters, each applied only when set. */
  function FilterVideos(videos: seq<VideoItem>, term: string, category: string, year: string, artist: string)
    : seq<VideoItem>
  {
    var searched := When(videos, term != "", (v: VideoItem) => MatchesSearch(v, term));
    var inCategory := When(searched, category != "all", (v: VideoItem) => v.category == category);
    var inYear := When(inCategory, year != "all", (v: VideoItem) => v.year == year);
    When(inYear, artist != "all", (v: VideoItem) => ContainsIgnoringCase(ArtistName(v.artist), artist))
  }

  lemma FilterVideosIsOnePass(videos: seq<VideoItem>, term: string, category: string, year: string, artist: string)
    ensures FilterVideos(videos, term, category, year, artist) == Filter(videos, v => Shown(term, category, year, artist, v))
  {
    WhenFourTimes(videos, term != "", (v: VideoItem) => MatchesSearch(v, term),
                  category != "all", (v: VideoItem) => v.category == category,
                  year != "all", (v: VideoItem) => v.year == year,
                  artist != "all", (v: VideoItem) => ContainsIgnoringCase(ArtistName(v.artist), artist),
                  v => Shown(term, category, year, artist, v));
  }

  /** The result is an order-preserving subsequence of the videos, holds exactly the shown
      ones, and is the whole list with an empty search and every dropdown on `all`. */
  lemma FilterVideosProperties(videos: seq<VideoItem>, term: string, category: string, year: string, artist: string)
    ensures var r := FilterVideos(videos, term, category, year, artist);
            && IsSubsequence(r, videos)
            && (forall i :: 0 <= i < |r| ==> Shown(term, category, year, artist, r[i]))
            && (forall i :: 0 <= i < |videos| && Shown(term, category, year, artist, videos[i]) ==> videos[i] in r)
            && (term == "" && category == "all" && year == "all" && artist == "all" ==> r == videos)
  {
    var shown := v => Shown(term, category, year, artist, v);
    FilterVideosIsOnePass(videos, term, category, year, artist);
    var r := Filter(videos, shown);
    assert FilterVideos(videos, term, category, year, artist) == r;
    FilterIsSubsequence(videos, shown);
    assert forall i :: 0 <= i < |r| ==> shown(r[i]);
    if term == "" && category == "all" && year == "all" && artist == "all" {
      FilterKeepsAll(videos, shown);
    }
  }

  /** The search and the artist filter read the same name: a video the artist filter keeps
      for a term is also found by searching for that term. */
  lemma ArtistFilterWithinSearch(v: VideoItem, artist: string)
    requires artist != "all" && Shown("", "all", "all", artist, v)
    ensures Shown(artist, "all", "all", "all", v)
  {
  }
}
