/** `/api/videos`: the public list with its display fields, and the admin writes, which fill
    in the thumbnail from YouTube's oEmbed service when the body has none. */
module Videos {
  import opened Js
  import opened Query
  import opened Gate
  import opened Store
  import opened Crud
  import Artists

  /** A row of the `Video` table. `views` is an integer column; `artistId` is a string or null. */
  datatype Video = Video(
    title: Val, description: Val, youtubeId: Val, category: Val,
    uploadDate: int, thumbnail: Val, featured: bool, views: int, artistId: Val)

  /** `videoData.artistId || videoData.artist?._id || videoData.artist?.id || null` */
  function ArtistIdOf(body: Val): (r: Val)
    ensures Truthy(r) || r == Null
    ensures Truthy(Get(body, "artistId")) ==> r == Get(body, "artistId")
    ensures !Truthy(Get(body, "artistId")) && Truthy(Get(Get(body, "artist"), "_id")) ==>
              r == Get(Get(body, "artist"), "_id")
    ensures (!Truthy(Get(body, "artistId")) && !Truthy(Get(Get(body, "artist"), "_id"))
             && Truthy(Get(Get(body, "artist"), "id"))) ==> r == Get(Get(body, "artist"), "id")
    ensures (!Truthy(Get(body, "artistId")) && !Truthy(Get(Get(body, "artist"), "_id"))
             && !Truthy(Get(Get(body, "artist"), "id"))) ==> r == Null
  {
    Or(Or(Or(Get(body, "artistId"), Get(Get(body, "artist"), "_id")), Get(Get(body, "artist"), "id")), Null)
  }

  /** `typeof views === 'number' ? views : 0` */
  function ViewsOf(body: Val): (n: int)
    ensures Get(body, "views").Num? ==> n == Get(body, "views").n
    ensures !Get(body, "views").Num? ==> n == 0
  {
    match Get(body, "views")
    case Num(n) => n
    case _ => 0
  }

  /** `uploadDate ? new Date(uploadDate) : new Date()`: `parseDate` stands for the `Date`
      constructor and `now` for the clock. */
  function UploadDateOf(body: Val, now: int, parseDate: Val -> int): (d: int)
    ensures !Truthy(Get(body, "uploadDate")) ==> d == now
    ensures Truthy(Get(body, "uploadDate")) ==> d == parseDate(Get(body, "uploadDate"))
  {
    if Truthy(Get(body, "uploadDate")) then parseDate(Get(body, "uploadDate")) else now
  }

  /** The thumbnail `POST` stores. The oEmbed lookup is made when the thumbnail or the upload
      date is missing; `lookup` is what it yields: `None` when the request throws or is not ok,
      else the `thumbnail_url` of the reply, which may itself be undefined. */
  function ThumbnailForCreate(body: Val, lookup: Option<Val>): (thumbnail: Val)
    ensures Truthy(Get(body, "thumbnail")) ==> thumbnail == Get(body, "thumbnail")
    ensures !Truthy(Get(body, "thumbnail")) && lookup.Some? ==> thumbnail == lookup.value
    ensures !Truthy(Get(body, "thumbnail")) && lookup.None? ==> thumbnail == Get(body, "thumbnail")
  {
    var given := Get(body, "thumbnail");
    if (!Truthy(given) || !Truthy(Get(body, "uploadDate"))) && lookup.Some? then Or(given, lookup.value)
    else given
  }

  /** The thumbnail `PUT` writes: here the lookup is made whenever the body's thumbnail is falsy. */
  function ThumbnailForUpdate(body: Val, lookup: Option<Val>): (thumbnail: Val)
    ensures Truthy(Get(body, "thumbnail")) ==> thumbnail == Get(body, "thumbnail")
    ensures !Truthy(Get(body, "thumbnail")) && lookup.Some? ==> thumbnail == lookup.value
    ensures !Truthy(Get(body, "thumbnail")) && lookup.None? ==> thumbnail == Get(body, "thumbnail")
  {
    var given := Get(body, "thumbnail");
    if !Truthy(given) && lookup.Some? then lookup.value else given
  }

  /** Both handlers end with the same thumbnail for every body and lookup outcome. */
  lemma ThumbnailsAgree(body: Val, lookup: Option<Val>)
    ensures ThumbnailForCreate(body, lookup) == ThumbnailForUpdate(body, lookup)
  {
  }

  /** The row `POST` creates, given the resolved thumbnail. */
  function FromBody(body: Val, thumbnail: Val, now: int, parseDate: Val -> int): (v: Video)
    ensures v.title == Get(body, "title") && v.description == Get(body, "description")
    ensures v.youtubeId == Get(body, "youtubeId") && v.category == Get(body, "category")
    ensures v.thumbnail == thumbnail
    ensures v.uploadDate == UploadDateOf(body, now, parseDate)
    ensures v.featured == Truthy(Get(body, "featured"))
    ensures v.views == ViewsOf(body) && v.artistId == ArtistIdOf(body)
  {
    Video(Get(body, "title"), Get(body, "description"), Get(body, "youtubeId"), Get(body, "category"),
          UploadDateOf(body, now, parseDate), thumbnail, Truthy(Get(body, "featured")),
          ViewsOf(body), ArtistIdOf(body))
  }

  /** The update `PUT` applies. The upload date is always written, so an update without one
      moves the video to `now`; the artist id, views and featured flag are always written too. */
  function Patch(v: Video, body: Val, thumbnail: Val, now: int, parseDate: Val -> int): (r: Video)
    ensures r.title == Keep(v.title, Get(body, "title"))
    ensures r.description == Keep(v.description, Get(body, "description"))
    ensures r.youtubeId == Keep(v.youtubeId, Get(body, "youtubeId"))
    ensures r.category == Keep(v.category, Get(body, "category"))
    ensures r.thumbnail == Keep(v.thumbnail, thumbnail)
    ensures Get(body, "title") == Undef ==> r.title == v.title
    ensures Get(body, "title") != Undef ==> r.title == Get(body, "title")
    ensures thumbnail == Undef ==> r.thumbnail == v.thumbnail
    ensures r.uploadDate == UploadDateOf(body, now, parseDate)
    ensures r.views == ViewsOf(body) && r.artistId == ArtistIdOf(body) && r.featured == Truthy(Get(body, "featured"))
  {
    var built := FromBody(body, thumbnail, now, parseDate);
    built.(title := Keep(v.title, built.title), description := Keep(v.description, built.description),
           youtubeId := Keep(v.youtubeId, built.youtubeId), category := Keep(v.category, built.category),
           thumbnail := Keep(v.thumbnail, built.thumbnail))
  }

  method Post(t: Table<Video>, cookie: Cookie, verify: Verifier, body: Option<Val>, id: string,
              lookup: Option<Val>, now: int, parseDate: Val -> int) returns (status: int)
    requires t.Valid() && id !in Ids(t.rows)
    modifies t
    ensures t.Valid()
    ensures !AdminCheck(cookie, verify).Authorized? ==>
              status == GateStatus(AdminCheck(cookie, verify)) && t.rows == old(t.rows)
    ensures status == 201 <==> AdminCheck(cookie, verify).Authorized? && body.Some? && body.value != Null
    ensures status == 201 ==>
              t.rows == old(t.rows) + [Row(id, FromBody(body.value, ThumbnailForCreate(body.value, lookup), now, parseDate))]
    ensures status != 201 ==> t.rows == old(t.rows)
  {
    var thumbnail := if body.Some? then ThumbnailForCreate(body.value, lookup) else Undef;
    status := Create(t, cookie, verify, body, id, (b: Val) => Built(FromBody(b, thumbnail, now, parseDate)));
  }

  /** `PUT /api/videos`. `looked` tells whether the oEmbed lookup was made: it runs before the
      id check, so a request refused for its missing id may still have made it. */
  method Put(t: Table<Video>, cookie: Cookie, verify: Verifier, body: Option<Val>,
             lookup: Option<Val>, now: int, parseDate: Val -> int) returns (status: int, looked: bool)
    requires t.Valid()
    modifies t
    ensures t.Valid()
    ensures !AdminCheck(cookie, verify).Authorized? ==>
              status == GateStatus(AdminCheck(cookie, verify)) && t.rows == old(t.rows)
    ensures looked <==> AdminCheck(cookie, verify).Authorized? && body.Some? && Destructurable(body.value)
                        && !Truthy(Get(body.value, "thumbnail"))
    ensures (AdminCheck(cookie, verify).Authorized? && body.Some? && Destructurable(body.value)
             && !Truthy(Get(body.value, "id"))) ==> status == 400 && t.rows == old(t.rows)
    ensures status == 200 <==>
              AdminCheck(cookie, verify).Authorized? && body.Some? && Destructurable(body.value)
              && Truthy(Get(body.value, "id")) && Get(body.value, "id").Str?
              && Get(body.value, "id").s in Ids(old(t.rows))
    ensures status == 200 ==>
              t.rows == Patched(old(t.rows), Get(body.value, "id").s,
                                (v: Video) => Patch(v, body.value, ThumbnailForUpdate(body.value, lookup), now, parseDate))
    ensures status != 200 ==> t.rows == old(t.rows)
  {
    var g := AdminCheck(cookie, verify);
    looked := g.Authorized? && body.Some? && Destructurable(body.value) && !Truthy(Get(body.value, "thumbnail"));
    status := Update(t, cookie, verify, body,
                     (v: Video, b: Val) => Patch(v, b, ThumbnailForUpdate(b, lookup), now, parseDate));
  }

  method Delete(t: Table<Video>, cookie: Cookie, verify: Verifier, id: Option<string>) returns (status: int)
    requires t.Valid()
    modifies t
    ensures t.Valid()
    ensures !AdminCheck(cookie, verify).Authorized? ==>
              status == GateStatus(AdminCheck(cookie, verify)) && t.rows == old(t.rows)
    ensures AdminCheck(cookie, verify).Authorized? && !Given(id) ==> status == 400 && t.rows == old(t.rows)
    ensures status == 200 <==> AdminCheck(cookie, verify).Authorized? && Given(id) && id.value in Ids(old(t.rows))
    ensures status == 200 ==> t.rows == WithoutId(old(t.rows), id.value)
    ensures status != 200 ==> t.rows == old(t.rows)
  {
    status := Crud.Delete(t, cookie, verify, id);
  }

  /** The `artist` of a listed video: the related artist's name and id, or `Unknown Artist`. */
  datatype ArtistRef = ArtistRef(name: Val, id: Option<string>)

  datatype VideoView = VideoView(
    id: string, legacyId: string, title: Val, artist: ArtistRef, description: Val, youtubeId: Val,
    category: Val, year: string, duration: string, views: string, uploadDate: int, thumbnail: Val,
    featured: bool)

  /** `include: { artist: true }`: the artist row the video's `artistId` names, if any. */
  function RelatedArtist(v: Video, artists: seq<Row<Artists.Artist>>): (r: Option<Artists.Artist>)
    ensures r.Some? ==> v.artistId.Str? && Row(v.artistId.s, r.value) in artists
    ensures r.None? ==> !v.artistId.Str? || v.artistId.s !in Ids(artists)
  {
    if v.artistId.Str? then FindIn(artists, v.artistId.s) else None
  }

  /** The `views` text: `formatNumber` stands for `toLocaleString`; zero views count as unknown. */
  function ViewsText(views: int, formatNumber: int -> string): (s: string)
    ensures views == 0 ==> s == "Unknown views"
    ensures views != 0 ==> s == formatNumber(views) + "+ views"
  {
    if views != 0 then formatNumber(views) + "+ views" else "Unknown views"
  }

  /** One element of the `GET` response; `yearOf` stands for `getFullYear`. */
  function View(row: Row<Video>, artists: seq<Row<Artists.Artist>>, yearOf: int -> int,
                formatNumber: int -> string): (r: VideoView)
    ensures r.id == row.id && r.legacyId == row.id
    ensures r.title == row.data.title && r.description == row.data.description
    ensures r.youtubeId == row.data.youtubeId && r.category == row.data.category
    ensures r.uploadDate == row.data.uploadDate && r.thumbnail == row.data.thumbnail
    ensures r.featured == row.data.featured
    ensures r.duration == "3:25"
    ensures r.year == StringOf(Num(yearOf(row.data.uploadDate)))
    ensures r.views == ViewsText(row.data.views, formatNumber)
    ensures RelatedArtist(row.data, artists).None? ==> r.artist == ArtistRef(Str("Unknown Artist"), None)
    ensures RelatedArtist(row.data, artists).Some? ==>
              r.artist == ArtistRef(RelatedArtist(row.data, artists).value.name, Some(row.data.artistId.s))
  {
    var v := row.data;
    var artist := match RelatedArtist(v, artists)
      case None => ArtistRef(Str("Unknown Artist"), None)
      case Some(a) => ArtistRef(a.name, Some(v.artistId.s));
    VideoView(row.id, row.id, v.title, artist, v.description, v.youtubeId, v.category,
              StringOf(Num(yearOf(v.uploadDate))), "3:25", ViewsText(v.views, formatNumber),
              v.uploadDate, v.thumbnail, v.featured)
  }

  /** The upload year prints as its decimal digits. */
  lemma YearDigits(row: Row<Video>, artists: seq<Row<Artists.Artist>>, yearOf: int -> int,
                   formatNumber: int -> string)
    requires yearOf(row.data.uploadDate) >= 0
    ensures var y := View(row, artists, yearOf, formatNumber).year;
            |y| >= 1 && forall i :: 0 <= i < |y| ==> '0' <= y[i] <= '9'
  {
  }

  /** `artist || undefined`: unlike the category, `all` is not special here. */
  function ArtistFilter(artist: Option<string>): (r: Option<string>)
    ensures r.None? <==> !Given(artist)
    ensures r.Some? ==> r.value == artist.value
  {
    if Given(artist) then Some(artist.value) else None
  }

  predicate Selected(category: Option<string>, featured: Option<string>, artist: Option<string>, row: Row<Video>)
  {
    && Passes(FilterValue(category), row.data.category)
    && (!FeaturedOnly(featured) || row.data.featured)
    && Passes(ArtistFilter(artist), row.data.artistId)
  }

  function UploadDate(row: Row<Video>): int { row.data.uploadDate }

  /** `GET /api/videos`. `fetched` is the table, or `None` when the query throws. */
  function List(fetched: Option<seq<Row<Video>>>, artists: seq<Row<Artists.Artist>>,
                category: Option<string>, featured: Option<string>, artist: Option<string>,
                limit: Option<nat>, yearOf: int -> int, formatNumber: int -> string): (r: Listing<VideoView>)
    ensures fetched.None? <==> r.ListFailed?
    ensures r.Listed? ==> |r.items| <= |fetched.value|
    ensures r.Listed? ==>
              r.items == Map(Select(fetched.value, row => Selected(category, featured, artist, row), UploadDate, true, limit),
                             row => View(row, artists, yearOf, formatNumber))
    ensures r.Listed? && limit.None? ==> |r.items| == Count(fetched.value, row => Selected(category, featured, artist, row))
    ensures r.Listed? && limit.Some? ==>
              |r.items| == Min(limit.value, Count(fetched.value, row => Selected(category, featured, artist, row)))
    ensures r.Listed? ==> forall i :: 0 <= i < |r.items| ==>
              exists row :: row in fetched.value && Selected(category, featured, artist, row)
                            && r.items[i] == View(row, artists, yearOf, formatNumber)
  {
    match fetched
    case None => ListFailed
    case Some(rows) =>
      var selected := Select(rows, row => Selected(category, featured, artist, row), UploadDate, true, limit);
      assert |selected| <= |rows| by {
        if limit.None? {
          assert |selected| == |multiset(selected)|;
        }
      }
      var items := Map(selected, row => View(row, artists, yearOf, formatNumber));
      assert forall i :: 0 <= i < |items| ==>
        (selected[i] in rows && Selected(category, featured, artist, selected[i])
         && items[i] == View(selected[i], artists, yearOf, formatNumber));
      Listed(items)
  }

  /** The listed videos come newest first. */
  lemma {:induction false} ListNewestFirst(fetched: seq<Row<Video>>, artists: seq<Row<Artists.Artist>>,
                                           category: Option<string>, featured: Option<string>,
                                           artist: Option<string>, limit: Option<nat>,
                                           yearOf: int -> int, formatNumber: int -> string)
    ensures var r := List(Some(fetched), artists, category, featured, artist, limit, yearOf, formatNumber);
            forall i, j :: 0 <= i < j < |r.items| ==> r.items[i].uploadDate >= r.items[j].uploadDate
  {
    var selected := Select(fetched, row => Selected(category, featured, artist, row), UploadDate, true, limit);
    var items := Map(selected, row => View(row, artists, yearOf, formatNumber));
    assert forall i :: 0 <= i < |items| ==> items[i].uploadDate == UploadDate(selected[i]);
  }
}
