/** `/api/news`: the public list of the 50 newest articles, and the admin writes. Creating a
    featured article also asks the newsletter endpoint to mail it out. */
module News {
  import opened Js
  import opened Text
  import opened Query
  import opened Gate
  import opened Store
  import opened Crud

  /** A row of the `NewsArticle` table. `publishedAt` is set when the row is created and
      `updatedAt` whenever it is written. */
  datatype Article = Article(
    title: Val, content: Val, image: Val, excerpt: Val, author: Val, category: Val,
    featured: Val, links: Val, publishedAt: int, updatedAt: int)

  /** The six fields `POST` refuses to go without. */
  predicate HasRequired(body: Val)
  {
    && Truthy(Get(body, "title")) && Truthy(Get(body, "content")) && Truthy(Get(body, "image"))
    && Truthy(Get(body, "excerpt")) && Truthy(Get(body, "author")) && Truthy(Get(body, "category"))
  }

  /** `const { featured = false, links = [] } = body`: a default replaces `undefined` only. */
  function Defaulted(v: Val, d: Val): (r: Val)
    ensures v == Undef ==> r == d
    ensures v != Undef ==> r == v
  {
    if v == Undef then d else v
  }

  /** The outcome of a `POST` body: 400 without a required field, 500 when the category has
      no `toUpperCase` (it is not a string), else the row, with its category upper-cased. */
  function BuildArticle(body: Val, now: int): (b: Built<Article>)
    ensures b == Invalid(400, "Missing required fields") <==> !HasRequired(body)
    ensures b.Invalid? && b.status == 500 <==> HasRequired(body) && !Get(body, "category").Str?
    ensures b.Built? ==> HasRequired(body) && Get(body, "category").Str?
    ensures b.Built? ==>
              && b.row.category == Str(ToUpper(Get(body, "category").s))
              && b.row.title == Get(body, "title") && b.row.content == Get(body, "content")
              && b.row.image == Get(body, "image") && b.row.excerpt == Get(body, "excerpt")
              && b.row.author == Get(body, "author")
              && b.row.featured == Defaulted(Get(body, "featured"), Bool(false))
              && b.row.links == Defaulted(Get(body, "links"), Arr([]))
              && b.row.publishedAt == now && b.row.updatedAt == now
  {
    if !HasRequired(body) then Invalid(400, "Missing required fields")
    else match Get(body, "category")
      case Str(c) =>
        Built(Article(Get(body, "title"), Get(body, "content"), Get(body, "image"), Get(body, "excerpt"),
                      Get(body, "author"), Str(ToUpper(c)), Defaulted(Get(body, "featured"), Bool(false)),
                      Defaulted(Get(body, "links"), Arr([])), now, now))
      case _ => Invalid(500, "Failed to create news article")
  }

  /** The body of the `PUT /api/newsletter` request a featured article triggers. */
  datatype Trigger = Trigger(articleId: string, subject: string, content: Val)

  /** `POST /api/news`. `trigger` is the newsletter request sent after the article is stored:
      whether it fails or not, the reply stays 201. */
  method Post(t: Table<Article>, cookie: Cookie, verify: Verifier, body: Option<Val>, id: string, now: int)
    returns (status: int, trigger: Option<Trigger>)
    requires t.Valid() && id !in Ids(t.rows)
    modifies t
    ensures t.Valid()
    ensures !AdminCheck(cookie, verify).Authorized? ==>
              status == GateStatus(AdminCheck(cookie, verify)) && t.rows == old(t.rows)
    ensures AdminCheck(cookie, verify).Authorized? && body.Some? && body.value != Null && !HasRequired(body.value) ==>
              status == 400 && t.rows == old(t.rows)
    ensures status == 201 <==>
              AdminCheck(cookie, verify).Authorized? && body.Some? && body.value != Null
              && HasRequired(body.value) && Get(body.value, "category").Str?
    ensures status == 201 ==> t.rows == old(t.rows) + [Row(id, BuildArticle(body.value, now).row)]
    ensures status != 201 ==> t.rows == old(t.rows) && trigger.None?
    ensures trigger.Some? <==> status == 201 && Truthy(Defaulted(Get(body.value, "featured"), Bool(false)))
    ensures trigger.Some? ==>
              trigger.value == Trigger(id, "New Featured Article: " + StringOf(Get(body.value, "title")),
                                       Get(body.value, "content"))
  {
    status := Create(t, cookie, verify, body, id, (b: Val) => BuildArticle(b, now));
    trigger := None;
    if status == 201 && Truthy(Defaulted(Get(body.value, "featured"), Bool(false))) {
      trigger := Some(Trigger(id, "New Featured Article: " + StringOf(Get(body.value, "title")),
                              Get(body.value, "content")));
    }
  }

  /** `articleData.category?.toUpperCase()` can be evaluated: the category is absent, null or
      a string. */
  predicate CategoryUpdatable(v: Val)
  {
    v.Undef? || v.Null? || v.Str?
  }

  /** The update `PUT` applies: every column the body omits keeps its value, and a category
      that is given is stored upper-cased (one that is neither a string nor nullish never gets
      here: `Put` refuses it first). */
  function Patch(a: Article, body: Val, now: int): (r: Article)
    ensures Get(body, "category").Str? ==> r.category == Str(ToUpper(Get(body, "category").s))
    ensures !Get(body, "category").Str? ==> r.category == a.category
    ensures r.title == Keep(a.title, Get(body, "title")) && r.content == Keep(a.content, Get(body, "content"))
    ensures r.image == Keep(a.image, Get(body, "image")) && r.excerpt == Keep(a.excerpt, Get(body, "excerpt"))
    ensures r.author == Keep(a.author, Get(body, "author"))
    ensures r.featured == Keep(a.featured, Get(body, "featured")) && r.links == Keep(a.links, Get(body, "links"))
    ensures Get(body, "title") == Undef ==> r.title == a.title
    ensures Get(body, "title") != Undef ==> r.title == Get(body, "title")
    ensures r.publishedAt == a.publishedAt && r.updatedAt == now
  {
    Article(Keep(a.title, Get(body, "title")), Keep(a.content, Get(body, "content")),
            Keep(a.image, Get(body, "image")), Keep(a.excerpt, Get(body, "excerpt")),
            Keep(a.author, Get(body, "author")),
            if Get(body, "category").Str? then Str(ToUpper(Get(body, "category").s)) else a.category,
            Keep(a.featured, Get(body, "featured")), Keep(a.links, Get(body, "links")),
            a.publishedAt, now)
  }

  /** `PUT /api/news`: gate, id check, then the update, whose data throws for a category that
      has no `toUpperCase`. */
  method Put(t: Table<Article>, cookie: Cookie, verify: Verifier, body: Option<Val>, now: int) returns (status: int)
    requires t.Valid()
    modifies t
    ensures t.Valid()
    ensures !AdminCheck(cookie, verify).Authorized? ==>
              status == GateStatus(AdminCheck(cookie, verify)) && t.rows == old(t.rows)
    ensures (AdminCheck(cookie, verify).Authorized? && body.Some? && Destructurable(body.value)
             && !Truthy(Get(body.value, "id"))) ==> status == 400 && t.rows == old(t.rows)
    ensures status == 200 <==>
              AdminCheck(cookie, verify).Authorized? && body.Some? && Destructurable(body.value)
              && Truthy(Get(body.value, "id")) && Get(body.value, "id").Str?
              && CategoryUpdatable(Get(body.value, "category"))
              && Get(body.value, "id").s in Ids(old(t.rows))
    ensures status == 200 ==>
              t.rows == Patched(old(t.rows), Get(body.value, "id").s, (a: Article) => Patch(a, body.value, now))
    ensures status != 200 ==> t.rows == old(t.rows)
  {
    var g := AdminCheck(cookie, verify);
    if !g.Authorized? {
      return GateStatus(g);
    }
    if body.None? || !Destructurable(body.value) {
      return 500;
    }
    if !Truthy(Get(body.value, "id")) {
      return 400;
    }
    if !CategoryUpdatable(Get(body.value, "category")) {
      return 500;
    }
    status := Update(t, cookie, verify, body, (a: Article, b: Val) => Patch(a, b, now));
  }

  method Delete(t: Table<Article>, cookie: Cookie, verify: Verifier, id: Option<string>) returns (status: int)
    requires t.Valid()
    modifies t
    ensures t.Valid()
    ensures !AdminCheck(cookie, verify).Authorized? ==>
              status == GateStatus(AdminCheck(cookie, verify)) && t.rows == old(t.rows)
    ensures AdminCheck(cookie, verify).Authorized? && !Given(id) ==> status == 400 && t.rows == old(t.rows)
    ensures status == 200 <==> AdminCheck(cookie, verify).Authorized? && Given(id) && id.value in Ids(old(t.rows))
    ensures status == 200 ==> t.rows == WithoutId(old(t.rows), id.value)
    ensures status != 200 ==> t.rows == old(t.rows)
  {
    status := Crud.Delete(t, cookie, verify, id);
  }

  /** The `where.category` of `GET`: the parameter upper-cased, unless absent, empty or `all`. */
  function CategoryFilter(category: Option<string>): (r: Option<string>)
    ensures r.None? <==> !Given(category) || category.value == "all"
    ensures r.Some? ==> r.value == ToUpper(category.value)
  {
    match FilterValue(category)
    case None => None
    case Some(c) => Some(ToUpper(c))
  }

  predicate Selected(category: Option<string>, featured: Option<string>, row: Row<Article>)
  {
    Passes(CategoryFilter(category), row.data.category) && (!FeaturedOnly(featured) || row.data.featured == Bool(true))
  }

  function PublishedAt(row: Row<Article>): int { row.data.publishedAt }

  /** The page size of the public list. */
  const PageSize := 50

  /** `GET /api/news`: the stored rows themselves, newest first, at most 50. `fetched` is the
      table, or `None` when the query throws. */
  function List(production: bool, hasDatabaseUrl: bool, fetched: Option<seq<Row<Article>>>,
                category: Option<string>, featured: Option<string>): (r: Listing<Row<Article>>)
    ensures production && !hasDatabaseUrl ==> r == Listed([])
    ensures fetched.None? ==> r == if production then Listed([]) else ListFailed
    ensures r.Listed? ==> |r.items| <= PageSize && SortedBy(r.items, PublishedAt, true)
    ensures r.Listed? && fetched.Some? ==>
              forall i :: 0 <= i < |r.items| ==> r.items[i] in fetched.value && Selected(category, featured, r.items[i])
    ensures (!production || hasDatabaseUrl) && fetched.Some? ==>
              r.Listed? && |r.items| == Min(PageSize, Count(fetched.value, row => Selected(category, featured, row)))
    ensures (!production || hasDatabaseUrl) && fetched.Some? ==>
              multiset(r.items) <= multiset(Filter(fetched.value, row => Selected(category, featured, row)))
    ensures (!production || hasDatabaseUrl) && fetched.Some? ==>
              forall i, x :: 0 <= i < |r.items| && x in multiset(Filter(fetched.value, row => Selected(category, featured, row))) - multiset(r.items) ==>
                x.data.publishedAt <= r.items[i].data.publishedAt
  {
    if production && !hasDatabaseUrl then Listed([])
    else match fetched
      case None => if production then Listed([]) else ListFailed
      case Some(rows) =>
        SelectKeepsFirst(rows, row => Selected(category, featured, row), PublishedAt, true, Some(PageSize));
        Listed(Select(rows, row => Selected(category, featured, row), PublishedAt, true, Some(PageSize)))
  }

  /** An article stored by `POST` with category `k` is picked by the `GET` category filter `c`
      exactly when the two agree up to case; `all` and an absent filter pick every category. */
  lemma CategoryMatchIgnoresCase(body: Val, now: int, id: string, c: Option<string>)
    requires BuildArticle(body, now).Built?
    ensures var row := Row(id, BuildArticle(body, now).row);
            Selected(c, None, row) <==>
              (!Given(c) || c.value == "all" || ToUpper(c.value) == ToUpper(Get(body, "category").s))
  {
  }
}
