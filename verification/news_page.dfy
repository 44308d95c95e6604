/** The public news page: the filtered list and the featured story above it. */
module NewsPage {
  import opened Js
  import opened Text
  import opened Query

  /** The fields of an article the page filters on and shows. */
  datatype ArticleItem = ArticleItem(id: string, title: string, excerpt: string, author: string,
                                     category: string, featured: bool)

  /** The search: title, excerpt or author contains the term, ignoring case. */
  predicate MatchesSearch(a: ArticleItem, term: string)
  {
    ContainsIgnoringCase(a.title, term) || ContainsIgnoringCase(a.excerpt, term)
    || ContainsIgnoringCase(a.author, term)
  }

  predicate Shown(term: string, category: string, a: ArticleItem)
  {
    (term == "" || MatchesSearch(a, term)) && (category == "all" || a.category == category)
  }

  /** `filterArticles`: the search, then the category filter, each applied only when set. */
  function FilterArticles(articles: seq<ArticleItem>, term: string, category: string): seq<ArticleItem>
  {
    var searched := When(articles, term != "", (a: ArticleItem) => MatchesSearch(a, term));
    When(searched, category != "all", (a: ArticleItem) => a.category == category)
  }

  lemma FilterArticlesIsOnePass(articles: seq<ArticleItem>, term: string, category: string)
    ensures FilterArticles(articles, term, category) == Filter(articles, a => Shown(term, category, a))
  {
    WhenTwice(articles, term != "", (a: ArticleItem) => MatchesSearch(a, term),
              category != "all", (a: ArticleItem) => a.category == category,
              a => Shown(term, category, a));
  }

  /** The result is an order-preserving subsequence, holds exactly the shown articles, and is
      the whole list with an empty search and the filter on `all`. */
  lemma FilterArticlesProperties(articles: seq<ArticleItem>, term: string, category: string)
    ensures var r := FilterArticles(articles, term, category);
            && IsSubsequence(r, articles)
            && (forall i :: 0 <= i < |r| ==> Shown(term, category, r[i]))
            && (forall i :: 0 <= i < |articles| && Shown(term, category, articles[i]) ==> articles[i] in r)
            && (term == "" && category == "all" ==> r == articles)
  {
    FilterArticlesIsOnePass(articles, term, category);
    FilterIsSubsequence(articles, a => Shown(term, category, a));
    if term == "" && category == "all" {
      FilterKeepsAll(articles, a => Shown(term, category, a));
    }
  }

  /** The index `find(a => a.featured)` stops at, if any. */
  function FirstFeatured(list: seq<ArticleItem>): (k: Option<nat>)
    ensures k.Some? ==> k.value < |list| && list[k.value].featured
                        && forall j :: 0 <= j < k.value ==> !list[j].featured
    ensures k.None? ==> forall j :: 0 <= j < |list| ==> !list[j].featured
    decreases |list|
  {
    if list == [] then None
    else if list[0].featured then Some(0)
    else match FirstFeatured(list[1..])
      case None => None
      case Some(k) => Some(k + 1)
  }

  /** The featured story: the first featured article of the filtered list, else its first
      article; the section is not shown (`None`) when the list is empty. */
  function FeaturedStory(filtered: seq<ArticleItem>): (r: Option<ArticleItem>)
    ensures r.None? <==> filtered == []
    ensures r.Some? ==> r.value in filtered
    ensures (exists i :: 0 <= i < |filtered| && filtered[i].featured) ==>
              r.Some? && r.value.featured
              && exists k :: 0 <= k < |filtered| && filtered[k] == r.value
                             && forall j :: 0 <= j < k ==> !filtered[j].featured
    ensures (forall i :: 0 <= i < |filtered| ==> !filtered[i].featured) && filtered != [] ==>
              r == Some(filtered[0])
  {
    if filtered == [] then None
    else match FirstFeatured(filtered)
      case Some(k) => Some(filtered[k])
      case None => Some(filtered[0])
  }
}
