/** `/api/artists/categories`: the fixed table of three artist categories with their counts,
    and a `POST` that only echoes what it is given. */
module Categories {
  import opened Js
  import opened Query
  import opened Gate

  /** One row of `groupBy({ by: ['category'], _count })`. */
  datatype Stat = Stat(category: Val, count: nat)

  datatype CategoryEntry = CategoryEntry(value: string, caption: string, count: nat)

  /** The category table before any count is filled in, in the order the reply lists it. */
  const Fixed := [CategoryEntry("pioneers", "Top 10 Now", 0),
                  CategoryEntry("collaborators", "Highlights", 0),
                  CategoryEntry("emerging", "New Releases", 0)]

  /** The count the loop leaves for `key`: that of the last statistic for it, or 0. */
  function StatFor(stats: seq<Stat>, key: string): nat
    decreases |stats|
  {
    if stats == [] then 0
    else if stats[|stats| - 1].category == Str(key) then stats[|stats| - 1].count
    else StatFor(stats[..|stats| - 1], key)
  }

  /** The index of the table entry whose key is `category` (`categoryMap[stat.category]`). */
  function EntryIndex(entries: seq<CategoryEntry>, category: Val): (k: Option<nat>)
    ensures k.Some? ==> k.value < |entries| && category == Str(entries[k.value].value)
    ensures k.None? ==> forall j :: 0 <= j < |entries| ==> category != Str(entries[j].value)
    decreases |entries|
  {
    if entries == [] then None
    else if category == Str(entries[|entries| - 1].value) then Some(|entries| - 1)
    else EntryIndex(entries[..|entries| - 1], category)
  }

  /** The `forEach` that fills in the counts: the three entries keep their keys, labels and
      order, and each gets the count of its own statistic. */
  method CategoryCounts(stats: seq<Stat>) returns (entries: seq<CategoryEntry>)
    ensures |entries| == 3
    ensures forall k :: 0 <= k < 3 ==>
              && entries[k].value == Fixed[k].value && entries[k].caption == Fixed[k].caption
              && entries[k].count == StatFor(stats, Fixed[k].value)
  {
    entries := Fixed;
    var i := 0;
    while i < |stats|
      invariant 0 <= i <= |stats|
      invariant |entries| == 3
      invariant forall k :: 0 <= k < 3 ==>
                  && entries[k].value == Fixed[k].value && entries[k].caption == Fixed[k].caption
                  && entries[k].count == StatFor(stats[..i], Fixed[k].value)
    {
      var stat := stats[i];
      assert stats[..i + 1][..i] == stats[..i];
      match EntryIndex(entries, stat.category) {
        case Some(k) =>
          entries := entries[k := entries[k].(count := stat.count)];
        case None =>
      }
      i := i + 1;
    }
    assert stats[..i] == stats;
  }

  /** What `groupBy` returns for the artists' categories: each statistic counts its category,
      and every category that occurs has a statistic. */
  ghost predicate IsGroupBy(stats: seq<Stat>, categories: seq<Val>)
  {
    && (forall i :: 0 <= i < |stats| ==> stats[i].count == Count(categories, c => c == stats[i].category))
    && (forall i :: 0 <= i < |categories| ==> exists j :: 0 <= j < |stats| && stats[j].category == categories[i])
  }

  lemma {:induction false} StatForFound(stats: seq<Stat>, key: string)
    ensures StatFor(stats, key) != 0 ==> exists j :: 0 <= j < |stats| && stats[j].category == Str(key)
                                                   && stats[j].count == StatFor(stats, key)
    ensures (exists j :: 0 <= j < |stats| && stats[j].category == Str(key)) ==>
              exists j :: 0 <= j < |stats| && stats[j].category == Str(key) && stats[j].count == StatFor(stats, key)
    decreases |stats|
  {
    if stats != [] {
      var init := stats[..|stats| - 1];
      StatForFound(init, key);
      if stats[|stats| - 1].category != Str(key) {
        if exists j :: 0 <= j < |stats| && stats[j].category == Str(key) {
          var j :| 0 <= j < |stats| && stats[j].category == Str(key);
          assert init[j] == stats[j];
        }
        if StatFor(stats, key) != 0 {
          var j :| 0 <= j < |init| && init[j].category == Str(key) && init[j].count == StatFor(init, key);
          assert stats[j] == init[j];
        }
      }
    }
  }

  /** With the statistics `groupBy` returns, each listed count is the number of artists in
      that category, and 0 for a category nobody is in. */
  lemma CountsAreArtistCounts(stats: seq<Stat>, categories: seq<Val>, key: string)
    requires IsGroupBy(stats, categories)
    ensures StatFor(stats, key) == Count(categories, c => c == Str(key))
  {
    StatForFound(stats, key);
    if exists j :: 0 <= j < |stats| && stats[j].category == Str(key) {
      var j :| 0 <= j < |stats| && stats[j].category == Str(key) && stats[j].count == StatFor(stats, key);
      FilterCongruent(categories, c => c == stats[j].category, c => c == Str(key));
    } else {
      forall i | 0 <= i < |categories| ensures categories[i] != Str(key) {
        var j :| 0 <= j < |stats| && stats[j].category == categories[i];
      }
      CountNone(categories, c => c == Str(key));
    }
  }

  /** A statistic for a category outside the table changes nothing. */
  lemma OtherCategoriesIgnored(stats: seq<Stat>, other: Stat, key: string)
    requires other.category != Str(key)
    ensures StatFor(stats + [other], key) == StatFor(stats, key)
  {
    assert (stats + [other])[..|stats|] == stats;
  }

  /** `GET /api/artists/categories`. `fetched` is the `groupBy` result, or `None` when a
      query throws. */
  method List(fetched: Option<seq<Stat>>) returns (r: Option<seq<CategoryEntry>>)
    ensures fetched.None? <==> r.None?
    ensures r.Some? ==> |r.value| == 3 && forall k :: 0 <= k < 3 ==>
              && r.value[k].value == Fixed[k].value && r.value[k].caption == Fixed[k].caption
              && r.value[k].count == StatFor(fetched.value, Fixed[k].value)
  {
    if fetched.None? {
      return None;
    }
    var entries := CategoryCounts(fetched.value);
    r := Some(entries);
  }

  datatype CategoryReply = CategoryRefused(status: int) | Echo(value: Val, caption: Val, count: nat)

  /** `POST /api/artists/categories`: the cookie only has to be there; the token is neither
      verified nor checked for the admin role. Nothing is stored. */
  function Post(cookie: Cookie, body: Option<Val>): (r: CategoryReply)
    ensures !PresenceCheck(cookie) ==> r == CategoryRefused(401)
    ensures PresenceCheck(cookie) && (body.None? || !Destructurable(body.value)) ==> r == CategoryRefused(500)
    ensures r.Echo? <==> PresenceCheck(cookie) && body.Some? && Destructurable(body.value)
                         && Truthy(Get(body.value, "category")) && Truthy(Get(body.value, "label"))
    ensures r.Echo? ==> r == Echo(Get(body.value, "category"), Get(body.value, "label"), 0)
    ensures r.CategoryRefused? ==> r.status in {400, 401, 500}
  {
    if !PresenceCheck(cookie) then CategoryRefused(401)
    else if body.None? || !Destructurable(body.value) then CategoryRefused(500)
    else if !Truthy(Get(body.value, "category")) || !Truthy(Get(body.value, "label")) then CategoryRefused(400)
    else Echo(Get(body.value, "category"), Get(body.value, "label"), 0)
  }

  /** A cookie that the other admin handlers refuse with 403 still gets an echo here. */
  lemma NonAdminAccepted(cookie: Cookie, verify: Verifier, category: string, caption: string)
    requires AdminCheck(cookie, verify).Forbidden? && category != "" && caption != ""
    ensures Post(cookie, Some(Obj(map["category" := Str(category), "label" := Str(caption)]))).Echo?
  {
    PresenceWeakerThanAdmin(cookie, verify);
    var body := Obj(map["category" := Str(category), "label" := Str(caption)]);
    assert Get(body, "category") == Str(category) && Get(body, "label") == Str(caption);
  }
}
