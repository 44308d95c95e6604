/** `/api/artists`: the public list and the admin writes. */
module Artists {
  import opened Js
  import opened Query
  import opened Gate
  import opened Store
  import opened Crud

  /** A row of the `Artist` table. Columns the handlers copy from the body unchecked are kept
      as JSON values; `featured` is always a boolean. */
  datatype Artist = Artist(
    name: Val, bio: Val, category: Val, image: Val, thumbnail: Val,
    yearsActive: Val, tracksReleased: Val, streams: Val,
    youtube: Val, instagram: Val, twitter: Val, tiktok: Val,
    featured: bool, createdAt: int)

  /** `x.stats?.key ?? 0` */
  function StatOf(body: Val, key: string): (v: Val)
    ensures v != Undef && v != Null
    ensures Get(Get(body, "stats"), key) !in {Undef, Null} ==> v == Get(Get(body, "stats"), key)
    ensures Get(Get(body, "stats"), key) in {Undef, Null} ==> v == Num(0)
  {
    Coalesce(Get(Get(body, "stats"), key), Num(0))
  }

  /** `x.socialLinks?.key ?? null` */
  function SocialOf(body: Val, key: string): (v: Val)
    ensures v != Undef
    ensures Get(Get(body, "socialLinks"), key) !in {Undef, Null} ==> v == Get(Get(body, "socialLinks"), key)
    ensures Get(Get(body, "socialLinks"), key) in {Undef, Null} ==> v == Null
  {
    Coalesce(Get(Get(body, "socialLinks"), key), Null)
  }

  /** The row `POST` creates from a body (`now` is the creation time the database sets). */
  function FromBody(body: Val, now: int): (a: Artist)
    ensures a.name == Get(body, "name") && a.bio == Get(body, "bio")
    ensures a.category == Get(body, "category") && a.image == Get(body, "image")
    ensures Truthy(Get(body, "thumbnail")) ==> a.thumbnail == Get(body, "thumbnail")
    ensures !Truthy(Get(body, "thumbnail")) ==> a.thumbnail == Get(body, "image")
    ensures Truthy(Get(body, "image")) ==> Truthy(a.thumbnail)
    ensures a.yearsActive == StatOf(body, "yearsActive") && a.tracksReleased == StatOf(body, "tracksReleased")
    ensures a.streams == StatOf(body, "streams")
    ensures a.yearsActive !in {Undef, Null} && a.tracksReleased !in {Undef, Null} && a.streams !in {Undef, Null}
    ensures a.youtube == SocialOf(body, "youtube") && a.instagram == SocialOf(body, "instagram")
    ensures a.twitter == SocialOf(body, "twitter") && a.tiktok == SocialOf(body, "tiktok")
    ensures a.featured == Truthy(Get(body, "featured")) && a.createdAt == now
  {
    Artist(Get(body, "name"), Get(body, "bio"), Get(body, "category"), Get(body, "image"),
           Or(Get(body, "thumbnail"), Get(body, "image")),
           StatOf(body, "yearsActive"), StatOf(body, "tracksReleased"), StatOf(body, "streams"),
           SocialOf(body, "youtube"), SocialOf(body, "instagram"), SocialOf(body, "twitter"), SocialOf(body, "tiktok"),
           Truthy(Get(body, "featured")), now)
  }

  /** The update `PUT` applies. The columns defaulted with `??` and `!!` are always written;
      name, bio, category, image and thumbnail keep their value when the body omits them. */
  function Patch(a: Artist, body: Val): (r: Artist)
    ensures r.createdAt == a.createdAt
    ensures r.name == Keep(a.name, Get(body, "name")) && r.bio == Keep(a.bio, Get(body, "bio"))
    ensures r.category == Keep(a.category, Get(body, "category")) && r.image == Keep(a.image, Get(body, "image"))
    ensures r.thumbnail == Keep(a.thumbnail, FromBody(body, a.createdAt).thumbnail)
    ensures Get(body, "name") == Undef ==> r.name == a.name
    ensures !Truthy(Get(body, "thumbnail")) && Get(body, "image") == Undef ==> r.thumbnail == a.thumbnail
    ensures r.yearsActive == StatOf(body, "yearsActive") && r.tracksReleased == StatOf(body, "tracksReleased")
    ensures r.streams == StatOf(body, "streams")
    ensures r.youtube == SocialOf(body, "youtube") && r.instagram == SocialOf(body, "instagram")
    ensures r.twitter == SocialOf(body, "twitter") && r.tiktok == SocialOf(body, "tiktok")
    ensures r.featured == Truthy(Get(body, "featured"))
  {
    var built := FromBody(body, a.createdAt);
    built.(name := Keep(a.name, built.name), bio := Keep(a.bio, built.bio),
           category := Keep(a.category, built.category), image := Keep(a.image, built.image),
           thumbnail := Keep(a.thumbnail, built.thumbnail))
  }

  /** A `PUT` with the same body a second time writes nothing new. */
  lemma PatchIdempotent(a: Artist, body: Val)
    ensures Patch(Patch(a, body), body) == Patch(a, body)
  {
  }

  datatype Stats = Stats(yearsActive: Val, tracksReleased: Val, streams: Val)

  /** One element of the `GET` response. */
  datatype ArtistView = ArtistView(id: string, legacyId: string, name: Val, bio: Val, category: Val,
                                   image: Val, thumbnail: Val, stats: Stats, featured: bool)

  function View(row: Row<Artist>): (v: ArtistView)
    ensures v.id == row.id && v.legacyId == row.id
    ensures v.stats == Stats(row.data.yearsActive, row.data.tracksReleased, row.data.streams)
    ensures v.name == row.data.name && v.featured == row.data.featured
    ensures v.bio == row.data.bio && v.category == row.data.category
    ensures v.image == row.data.image && v.thumbnail == row.data.thumbnail
  {
    var a := row.data;
    ArtistView(row.id, row.id, a.name, a.bio, a.category, a.image, a.thumbnail,
               Stats(a.yearsActive, a.tracksReleased, a.streams), a.featured)
  }

  function CreatedAt(row: Row<Artist>): int { row.data.createdAt }

  predicate Selected(category: Option<string>, featured: Option<string>, row: Row<Artist>)
  {
    Passes(FilterValue(category), row.data.category) && (!FeaturedOnly(featured) || row.data.featured)
  }

  /** The rows `findMany` returns: filtered, newest first, at most `limit` of them. */
  function Selection(rows: seq<Row<Artist>>, category: Option<string>, featured: Option<string>,
                     limit: Option<nat>): (r: seq<Row<Artist>>)
    ensures forall i :: 0 <= i < |r| ==> r[i] in rows && Selected(category, featured, r[i])
    ensures SortedBy(r, CreatedAt, true)
    ensures limit.None? ==> |r| == Count(rows, row => Selected(category, featured, row))
    ensures limit.Some? ==> |r| == Min(limit.value, Count(rows, row => Selected(category, featured, row)))
    ensures multiset(r) <= multiset(Filter(rows, row => Selected(category, featured, row)))
    ensures forall i, x :: 0 <= i < |r| && x in multiset(Filter(rows, row => Selected(category, featured, row))) - multiset(r) ==>
              x.data.createdAt <= r[i].data.createdAt
  {
    var r := Select(rows, row => Selected(category, featured, row), CreatedAt, true, limit);
    assert limit.None? ==> |r| == |multiset(r)|;
    SelectKeepsFirst(rows, row => Selected(category, featured, row), CreatedAt, true, limit);
    r
  }

  /** `GET /api/artists`. `fetched` is the table, or `None` when the query throws; `limit` is
      the parsed `limit` parameter. */
  function List(production: bool, hasDatabaseUrl: bool, fetched: Option<seq<Row<Artist>>>,
                category: Option<string>, featured: Option<string>, limit: Option<nat>): (r: Listing<ArtistView>)
    ensures production && !hasDatabaseUrl ==> r == Listed([])
    ensures fetched.None? ==> r == if production then Listed([]) else ListFailed
    ensures (!production || hasDatabaseUrl) && fetched.Some? ==>
              r == Listed(Map(Selection(fetched.value, category, featured, limit), View))
  {
    if production && !hasDatabaseUrl then Listed([])
    else match fetched
      case None => if production then Listed([]) else ListFailed
      case Some(rows) => Listed(Map(Selection(rows, category, featured, limit), View))
  }

  /** An absent category and the category `all` filter nothing, and so does the empty one. */
  lemma AllCategories(rows: seq<Row<Artist>>, featured: Option<string>, limit: Option<nat>)
    ensures Selection(rows, None, featured, limit) == Selection(rows, Some("all"), featured, limit)
                                              == Selection(rows, Some(""), featured, limit)
  {
    SelectCongruent(rows, row => Selected(None, featured, row), row => Selected(Some("all"), featured, row),
                    CreatedAt, true, limit);
    SelectCongruent(rows, row => Selected(None, featured, row), row => Selected(Some(""), featured, row),
                    CreatedAt, true, limit);
  }

  /** With no filter and no limit every row is listed. */
  lemma {:induction false} ListsEveryRow(rows: seq<Row<Artist>>)
    ensures multiset(Selection(rows, None, None, None)) == multiset(rows)
  {
    FilterKeepsAll(rows, row => Selected(None, None, row));
  }

  method Post(t: Table<Artist>, cookie: Cookie, verify: Verifier, body: Option<Val>, id: string, now: int)
    returns (status: int)
    requires t.Valid() && id !in Ids(t.rows)
    modifies t
    ensures t.Valid()
    ensures !AdminCheck(cookie, verify).Authorized? ==>
              status == GateStatus(AdminCheck(cookie, verify)) && t.rows == old(t.rows)
    ensures status == 201 <==> AdminCheck(cookie, verify).Authorized? && body.Some? && body.value != Null
    ensures status == 201 ==> t.rows == old(t.rows) + [Row(id, FromBody(body.value, now))]
    ensures status != 201 ==> t.rows == old(t.rows)
  {
    status := Create(t, cookie, verify, body, id, (b: Val) => Built(FromBody(b, now)));
  }

  method Put(t: Table<Artist>, cookie: Cookie, verify: Verifier, body: Option<Val>) returns (status: int)
    requires t.Valid()
    modifies t
    ensures t.Valid()
    ensures !AdminCheck(cookie, verify).Authorized? ==>
              status == GateStatus(AdminCheck(cookie, verify)) && t.rows == old(t.rows)
    ensures (AdminCheck(cookie, verify).Authorized? && body.Some? && Destructurable(body.value)
             && !Truthy(Get(body.value, "id"))) ==> status == 400 && t.rows == old(t.rows)
    ensures status == 200 <==>
              AdminCheck(cookie, verify).Authorized? && body.Some? && Destructurable(body.value)
              && Truthy(Get(body.value, "id")) && Get(body.value, "id").Str?
              && Get(body.value, "id").s in Ids(old(t.rows))
    ensures status == 200 ==>
              t.rows == Patched(old(t.rows), Get(body.value, "id").s, (a: Artist) => Patch(a, body.value))
    ensures status != 200 ==> t.rows == old(t.rows)
  {
    status := Update(t, cookie, verify, body, Patch);
  }

  method Delete(t: Table<Artist>, cookie: Cookie, verify: Verifier, id: Option<string>) returns (status: int)
    requires t.Valid()
    modifies t
    ensures t.Valid()
    ensures !AdminCheck(cookie, verify).Authorized? ==>
              status == GateStatus(AdminCheck(cookie, verify)) && t.rows == old(t.rows)
    ensures AdminCheck(cookie, verify).Authorized? && !Given(id) ==> status == 400 && t.rows == old(t.rows)
    ensures status == 200 <==> AdminCheck(cookie, verify).Authorized? && Given(id) && id.value in Ids(old(t.rows))
    ensures status == 200 ==> t.rows == WithoutId(old(t.rows), id.value)
    ensures status != 200 ==> t.rows == old(t.rows)
  {
    status := Crud.Delete(t, cookie, verify, id);
  }
}
