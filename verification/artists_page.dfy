/** The public artists page: the per-category statistics, the filtered list and the labels of
    the filter buttons. */
module ArtistsPage {
  import opened Text
  import opened Query
  import Categories

  /** The fields of an artist the page uses. */
  datatype ArtistItem = ArtistItem(name: string, bio: string, category: string)

  /** `stats[c] || 0` */
  function StatOf(stats: map<string, nat>, c: string): nat
  {
    if c in stats then stats[c] else 0
  }

  /** The sum of all counts in `stats`. */
  ghost function Sum(stats: map<string, nat>): nat
    decreases |stats.Keys|
  {
    if stats == map[] then 0
    else
      var k :| k in stats;
      stats[k] + Sum(stats - {k})
  }

  /** `Sum` does not depend on which key it takes out first. */
  lemma {:induction false} SumWithout(stats: map<string, nat>, c: string)
    requires c in stats
    ensures Sum(stats) == stats[c] + Sum(stats - {c})
    decreases |stats.Keys|
  {
    var k :| k in stats && Sum(stats) == stats[k] + Sum(stats - {k});
    if k != c {
      assert |(stats - {k}).Keys| < |stats.Keys| by {
        assert (stats - {k}).Keys == stats.Keys - {k};
      }
      assert |(stats - {c}).Keys| < |stats.Keys| by {
        assert (stats - {c}).Keys == stats.Keys - {c};
      }
      SumWithout(stats - {k}, c);
      SumWithout(stats - {c}, k);
      assert stats - {k} - {c} == stats - {c} - {k};
    }
  }

  /** Counting one more artist in category `c` adds one to the sum. */
  lemma SumIncrement(stats: map<string, nat>, c: string)
    ensures Sum(stats[c := StatOf(stats, c) + 1]) == Sum(stats) + 1
  {
    var next := stats[c := StatOf(stats, c) + 1];
    SumWithout(next, c);
    if c in stats {
      SumWithout(stats, c);
      assert next - {c} == stats - {c};
    } else {
      assert next - {c} == stats;
    }
  }

  /** The number of artists in category `c`. */
  function CategoryCount(artists: seq<ArtistItem>, c: string): nat
  {
    Count(artists, (a: ArtistItem) => a.category == c)
  }

  lemma CategoryCountAppend(artists: seq<ArtistItem>, artist: ArtistItem, c: string)
    ensures CategoryCount(artists + [artist], c) == CategoryCount(artists, c) + (if artist.category == c then 1 else 0)
  {
    FilterAppend(artists, [artist], (a: ArtistItem) => a.category == c);
  }

  /** One step of the `forEach`: counting one more artist keeps every statistic equal to the
      count over the artists seen so far. */
  lemma StatsStep(stats: map<string, nat>, seen: seq<ArtistItem>, artist: ArtistItem)
    requires forall c :: StatOf(stats, c) == CategoryCount(seen, c)
    ensures forall c :: StatOf(stats[artist.category := StatOf(stats, artist.category) + 1], c)
                        == CategoryCount(seen + [artist], c)
  {
    forall c ensures StatOf(stats[artist.category := StatOf(stats, artist.category) + 1], c)
                     == CategoryCount(seen + [artist], c) {
      CategoryCountAppend(seen, artist, c);
    }
  }

  /** The category statistics `fetchArtists` builds with its `forEach`: each category that
      occurs maps to the number of artists in it, no other key is present, and the counts
      add up to the number of artists. */
  method CategoryStats(artists: seq<ArtistItem>) returns (stats: map<string, nat>)
    ensures forall c :: StatOf(stats, c) == CategoryCount(artists, c)
    ensures forall c :: c in stats <==> exists i :: 0 <= i < |artists| && artists[i].category == c
    ensures Sum(stats) == |artists|
  {
    stats := map[];
    var i := 0;
    while i < |artists|
      invariant 0 <= i <= |artists|
      invariant forall c :: StatOf(stats, c) == CategoryCount(artists[..i], c)
      invariant forall c :: c in stats <==> exists j :: 0 <= j < i && artists[j].category == c
      invariant Sum(stats) == i
    {
      var artist := artists[i];
      SumIncrement(stats, artist.category);
      StatsStep(stats, artists[..i], artist);
      assert artists[..i + 1] == artists[..i] + [artist];
      stats := stats[artist.category := StatOf(stats, artist.category) + 1];
      i := i + 1;
    }
    assert artists[..i] == artists;
  }

  /** The search: name or bio contains the term, ignoring case. */
  predicate MatchesSearch(a: ArtistItem, term: string)
  {
    ContainsIgnoringCase(a.name, term) || ContainsIgnoringCase(a.bio, term)
  }

  predicate Shown(term: string, category: string, a: ArtistItem)
  {
    (term == "" || MatchesSearch(a, term)) && (category == "all" || a.category == category)
  }

  /** `filterArtists`: the search, then the category filter, each applied only when set. */
  function FilterArtists(artists: seq<ArtistItem>, term: string, category: string): seq<ArtistItem>
  {
    var searched := When(artists, term != "", (a: ArtistItem) => MatchesSearch(a, term));
    When(searched, category != "all", (a: ArtistItem) => a.category == category)
  }

  /** The result is an order-preserving subsequence, holds exactly the shown artists, and is
      the whole list with an empty search and the filter on `all`. */
  lemma FilterArtistsProperties(artists: seq<ArtistItem>, term: string, category: string)
    ensures var r := FilterArtists(artists, term, category);
            && IsSubsequence(r, artists)
            && (forall i :: 0 <= i < |r| ==> Shown(term, category, r[i]))
            && (forall i :: 0 <= i < |artists| && Shown(term, category, artists[i]) ==> artists[i] in r)
            && (term == "" && category == "all" ==> r == artists)
  {
    WhenTwice(artists, term != "", (a: ArtistItem) => MatchesSearch(a, term),
              category != "all", (a: ArtistItem) => a.category == category,
              a => Shown(term, category, a));
    FilterIsSubsequence(artists, a => Shown(term, category, a));
    if term == "" && category == "all" {
      FilterKeepsAll(artists, a => Shown(term, category, a));
    }
  }

  datatype FilterOption = FilterOption(value: string, caption: string)

  /** `caption (n)` */
  function Counted(caption: string, n: nat): string
  {
    caption + " (" + Decimal(n) + ")"
  }

  /** The filter buttons: all artists with their total, then the three categories with their
      counts, 0 for a category nobody is in. */
  function Options(total: nat, stats: map<string, nat>): (r: seq<FilterOption>)
    ensures |r| == 4
    ensures r[0] == FilterOption("all", Counted("All Artists", total))
    ensures forall k :: 1 <= k < 4 ==>
              r[k] == FilterOption(Categories.Fixed[k - 1].value,
                                   Counted(Categories.Fixed[k - 1].caption, StatOf(stats, Categories.Fixed[k - 1].value)))
  {
    [FilterOption("all", Counted("All Artists", total)),
     FilterOption("pioneers", Counted("Top 10 Now", StatOf(stats, "pioneers"))),
     FilterOption("collaborators", Counted("Highlights", StatOf(stats, "collaborators"))),
     FilterOption("emerging", Counted("New Releases", StatOf(stats, "emerging")))]
  }

  /** With the statistics of the fetched list, each category button shows the number of
      artists that pressing it lists (with an empty search). */
  lemma OptionCountsMatchFilter(artists: seq<ArtistItem>, stats: map<string, nat>, k: nat)
    requires forall c :: StatOf(stats, c) == CategoryCount(artists, c)
    requires 1 <= k < 4
    ensures var option := Options(|artists|, stats)[k];
            option.caption == Counted(Categories.Fixed[k - 1].caption, |FilterArtists(artists, "", option.value)|)
  {
    var c := Categories.Fixed[k - 1].value;
    assert c != "all";
    WhenTwice(artists, false, (a: ArtistItem) => MatchesSearch(a, ""),
              true, (a: ArtistItem) => a.category == c,
              (a: ArtistItem) => a.category == c);
  }
}
