/** `/api/settings`: one row of site settings (social links, team, the `getInTouch` block and
    the featured playlist), read by anyone and written section by section by an admin. */
module Settings {
  import opened Js
  import opened Gate

  /** The stored row; each section is a JSON column. */
  datatype SiteSettings = SiteSettings(socialLinks: Val, team: Val, featuredPlaylist: Val, getInTouch: Val)

  /** What `GET` returns when no row exists yet. */
  const Defaults := SiteSettings(Arr([]), Arr([]), Obj(map[]), Obj(map[]))

  /** The reply of `GET`: the settings, or the 500 `Failed to fetch settings`. */
  datatype SettingsReply = SettingsFound(settings: SiteSettings) | SettingsFailed

  /** `GET /api/settings`. `fetched` is what `findFirst` yields: `None` when the query throws,
      `Some(None)` when the table is empty. */
  function GetSettings(fetched: Option<Option<SiteSettings>>): (r: SettingsReply)
    ensures r.SettingsFailed? <==> fetched.None?
    ensures fetched == Some(None) ==>
              r.SettingsFound? && r.settings.socialLinks == Arr([]) && r.settings.team == Arr([])
              && r.settings.getInTouch == Obj(map[]) && r.settings.featuredPlaylist == Obj(map[])
    ensures fetched.Some? && fetched.value.Some? ==> r == SettingsFound(fetched.value.value)
  {
    match fetched
    case None => SettingsFailed
    case Some(None) => SettingsFound(Defaults)
    case Some(Some(s)) => SettingsFound(s)
  }

  /** The side of the `getInTouch` merge a value contributes: its fields when it is a plain
      object, nothing when it is an array or a primitive (`{ ...null }` is empty too). */
  function MergeSide(v: Val): (m: map<string, Val>)
    ensures v.Obj? ==> m == v.fields
    ensures !v.Obj? ==> m == map[]
  {
    if IsPlainObjectOrNull(v) then SpreadFields(v) else map[]
  }

  /** `{ ...current, ...incoming }`: incoming keys win, other stored keys survive. */
  function MergeGetInTouch(current: Val, incoming: Val): (r: Val)
    ensures r.Obj?
    ensures r.fields.Keys == MergeSide(current).Keys + MergeSide(incoming).Keys
    ensures forall k :: k in MergeSide(incoming) ==> r.fields[k] == MergeSide(incoming)[k]
    ensures forall k :: k in MergeSide(current) && k !in MergeSide(incoming) ==> r.fields[k] == MergeSide(current)[k]
  {
    Obj(MergeSide(current) + MergeSide(incoming))
  }

  /** The columns one `update` writes: `None` for a section the body leaves `undefined`. */
  datatype UpdateData = UpdateData(socialLinks: Option<Val>, team: Option<Val>,
                                   featuredPlaylist: Option<Val>, getInTouch: Option<Val>)

  function Section(body: Val, key: string): (r: Option<Val>)
    ensures r.None? <==> Get(body, key) == Undef
    ensures r.Some? ==> r.value == Get(body, key)
  {
    if Get(body, key) == Undef then None else Some(Get(body, key))
  }

  function BuildUpdate(body: Val, existing: Option<SiteSettings>): (u: UpdateData)
    ensures u.socialLinks == Section(body, "socialLinks") && u.team == Section(body, "team")
    ensures u.featuredPlaylist == Section(body, "featuredPlaylist")
    ensures u.getInTouch.None? <==> Get(body, "getInTouch") == Undef
    ensures u.getInTouch.Some? ==>
              u.getInTouch.value == MergeGetInTouch(if existing.Some? then existing.value.getInTouch else Obj(map[]),
                                                    Get(body, "getInTouch"))
  {
    var merged := if Get(body, "getInTouch") == Undef then None
                  else Some(MergeGetInTouch(if existing.Some? then existing.value.getInTouch else Obj(map[]),
                                            Get(body, "getInTouch")));
    UpdateData(Section(body, "socialLinks"), Section(body, "team"), Section(body, "featuredPlaylist"), merged)
  }

  function Keep(current: Val, written: Option<Val>): Val
  {
    if written.Some? then written.value else current
  }

  /** Prisma's `update`: a column the data does not mention keeps its value. */
  function ApplyUpdate(s: SiteSettings, u: UpdateData): (r: SiteSettings)
    ensures u.socialLinks.None? ==> r.socialLinks == s.socialLinks
    ensures u.team.None? ==> r.team == s.team
    ensures u.featuredPlaylist.None? ==> r.featuredPlaylist == s.featuredPlaylist
    ensures u.getInTouch.None? ==> r.getInTouch == s.getInTouch
    ensures u.socialLinks.Some? ==> r.socialLinks == u.socialLinks.value
    ensures u.team.Some? ==> r.team == u.team.value
    ensures u.featuredPlaylist.Some? ==> r.featuredPlaylist == u.featuredPlaylist.value
    ensures u.getInTouch.Some? ==> r.getInTouch == u.getInTouch.value
  {
    SiteSettings(Keep(s.socialLinks, u.socialLinks), Keep(s.team, u.team),
                 Keep(s.featuredPlaylist, u.featuredPlaylist), Keep(s.getInTouch, u.getInTouch))
  }

  /** The row `create` stores when there is none, as written: each section is the body's
      value, or `[]`/`{}` when it is null or undefined. `getInTouch` is stored unmerged. */
  function CreateAsWritten(body: Val): (r: SiteSettings)
    ensures Get(body, "socialLinks") !in {Undef, Null} ==> r.socialLinks == Get(body, "socialLinks")
    ensures Get(body, "socialLinks") in {Undef, Null} ==> r.socialLinks == Arr([])
    ensures Get(body, "team") !in {Undef, Null} ==> r.team == Get(body, "team")
    ensures Get(body, "team") in {Undef, Null} ==> r.team == Arr([])
    ensures Get(body, "featuredPlaylist") !in {Undef, Null} ==> r.featuredPlaylist == Get(body, "featuredPlaylist")
    ensures Get(body, "featuredPlaylist") in {Undef, Null} ==> r.featuredPlaylist == Obj(map[])
    ensures Get(body, "getInTouch") !in {Undef, Null} ==> r.getInTouch == Get(body, "getInTouch")
    ensures Get(body, "getInTouch") in {Undef, Null} ==> r.getInTouch == Obj(map[])
  {
    SiteSettings(Coalesce(Get(body, "socialLinks"), Arr([])), Coalesce(Get(body, "team"), Arr([])),
                 Coalesce(Get(body, "featuredPlaylist"), Obj(map[])), Coalesce(Get(body, "getInTouch"), Obj(map[])))
  }

  datatype SaveReply = SaveRefused(status: int) | Saved(settings: SiteSettings)

  /** `POST /api/settings` as written: the admin check, then update or create.
      `body` is `None` when the request is not JSON. */
  function PostAsWritten(stored: Option<SiteSettings>, cookie: Cookie, verify: Verifier, body: Option<Val>)
    : (r: (SaveReply, Option<SiteSettings>))
    ensures !r.0.Saved? ==> r.1 == stored
    ensures !HasToken(cookie) ==> r.0 == SaveRefused(401)
    ensures AdminCheck(cookie, verify).Forbidden? ==> r.0 == SaveRefused(403)
    ensures AdminCheck(cookie, verify).VerifyThrew? ==> r.0 == SaveRefused(500)
    ensures AdminCheck(cookie, verify).Authorized? && (body.None? || body.value == Null) ==> r.0 == SaveRefused(500)
    ensures r.0.Saved? <==> AdminCheck(cookie, verify).Authorized? && body.Some? && body.value != Null
    ensures r.0.Saved? && stored.Some? ==>
              r.0.settings == ApplyUpdate(stored.value, BuildUpdate(body.value, stored))
    ensures r.0.Saved? && stored.None? ==> r.0.settings == CreateAsWritten(body.value)
    ensures r.0.Saved? ==> r.1 == Some(r.0.settings)
  {
    match AdminCheck(cookie, verify)
    case Authorized(_) =>
      if body.None? || body.value == Null then (SaveRefused(500), stored)
      else if stored.Some? then
        var saved := ApplyUpdate(stored.value, BuildUpdate(body.value, stored));
        (Saved(saved), Some(saved))
      else
        var saved := CreateAsWritten(body.value);
        (Saved(saved), Some(saved))
    case g => (SaveRefused(GateStatus(g)), stored)
  }

  /** Updating a stored row with the same body twice writes what once writes: the sections
      are overwritten with the same values and the merge adds nothing new the second time. */
  lemma UpdateIdempotent(s: SiteSettings, body: Val)
    ensures var once := ApplyUpdate(s, BuildUpdate(body, Some(s)));
            ApplyUpdate(once, BuildUpdate(body, Some(once))) == once
  {
    var once := ApplyUpdate(s, BuildUpdate(body, Some(s)));
    if Get(body, "getInTouch") != Undef {
      var m1 := MergeGetInTouch(s.getInTouch, Get(body, "getInTouch"));
      assert once.getInTouch == m1;
      var m2 := MergeGetInTouch(m1, Get(body, "getInTouch"));
      assert m2.fields == m1.fields;
    }
  }

  /** The as-written handler is not idempotent on an empty table: a `getInTouch` that is not
      a plain object is stored as it is by `create`, and turned into `{}` by the merge on the
      second request. */
  lemma PostAsWrittenNotIdempotent(cookie: Cookie, verify: Verifier)
    requires AdminCheck(cookie, verify).Authorized?
    ensures var body := Obj(map["getInTouch" := Str("x")]);
            var first := PostAsWritten(None, cookie, verify, Some(body)).1;
            first.Some? && first.value.getInTouch == Str("x")
            && PostAsWritten(first, cookie, verify, Some(body)).1.value.getInTouch == Obj(map[])
  {
    var body := Obj(map["getInTouch" := Str("x")]);
    assert Get(body, "getInTouch") == Str("x");
    var first := PostAsWritten(None, cookie, verify, Some(body)).1;
    assert first == Some(CreateAsWritten(body));
    var second := ApplyUpdate(first.value, BuildUpdate(body, first));
    assert MergeSide(Str("x")) == map[];
    assert second.getInTouch == Obj(map[] + map[]);
  }

  /** The create path with the `getInTouch` section passed through the same merge the update
      path uses, against an empty stored block. */
  function CreateNormalized(body: Val): (r: SiteSettings)
    ensures r.getInTouch.Obj?
    ensures Get(body, "getInTouch").Obj? ==> r.getInTouch == Get(body, "getInTouch")
    ensures !Get(body, "getInTouch").Obj? ==> r.getInTouch == Obj(map[])
    ensures r.socialLinks == CreateAsWritten(body).socialLinks && r.team == CreateAsWritten(body).team
    ensures r.featuredPlaylist == CreateAsWritten(body).featuredPlaylist
  {
    var created := CreateAsWritten(body);
    created.(getInTouch := MergeGetInTouch(Obj(map[]), Get(body, "getInTouch")))
  }

  /** `POST /api/settings` with the create path normalised. */
  function Post(stored: Option<SiteSettings>, cookie: Cookie, verify: Verifier, body: Option<Val>)
    : (r: (SaveReply, Option<SiteSettings>))
    ensures !r.0.Saved? ==> r.1 == stored
    ensures !HasToken(cookie) ==> r.0 == SaveRefused(401)
    ensures AdminCheck(cookie, verify).Forbidden? ==> r.0 == SaveRefused(403)
    ensures AdminCheck(cookie, verify).VerifyThrew? ==> r.0 == SaveRefused(500)
    ensures AdminCheck(cookie, verify).Authorized? && (body.None? || body.value == Null) ==> r.0 == SaveRefused(500)
    ensures r.0.Saved? <==> AdminCheck(cookie, verify).Authorized? && body.Some? && body.value != Null
    ensures r.0.Saved? && stored.None? ==> r.0.settings == CreateNormalized(body.value)
    ensures r.0.Saved? ==> r.1 == Some(r.0.settings)
    ensures stored.Some? ==> r == PostAsWritten(stored, cookie, verify, body)
  {
    match AdminCheck(cookie, verify)
    case Authorized(_) =>
      if body.None? || body.value == Null then (SaveRefused(500), stored)
      else if stored.Some? then
        var saved := ApplyUpdate(stored.value, BuildUpdate(body.value, stored));
        (Saved(saved), Some(saved))
      else
        var saved := CreateNormalized(body.value);
        (Saved(saved), Some(saved))
    case g => (SaveRefused(GateStatus(g)), stored)
  }

  /** Posting the same body twice leaves the state posting it once leaves, whether or not a
      row existed before, except for a `socialLinks`/`team`/`featuredPlaylist` that is null,
      which `create` stores as its default but a later update writes as null. */
  lemma PostIdempotent(stored: Option<SiteSettings>, cookie: Cookie, verify: Verifier, body: Val)
    requires Get(body, "socialLinks") != Null && Get(body, "team") != Null
    requires Get(body, "featuredPlaylist") != Null
    ensures var once := Post(stored, cookie, verify, Some(body)).1;
            Post(once, cookie, verify, Some(body)).1 == once
  {
    var once := Post(stored, cookie, verify, Some(body)).1;
    if AdminCheck(cookie, verify).Authorized? && body != Null {
      if stored.Some? {
        UpdateIdempotent(stored.value, body);
      } else {
        var c := CreateNormalized(body);
        assert once == Some(c);
        var again := ApplyUpdate(c, BuildUpdate(body, once));
        if Get(body, "getInTouch") != Undef {
          var m := MergeGetInTouch(c.getInTouch, Get(body, "getInTouch"));
          assert m.fields == c.getInTouch.fields;
        }
        assert again == c;
      }
    }
  }

  /** A `GET` after a successful `POST` reads back the row the `POST` saved. */
  lemma GetAfterPost(stored: Option<SiteSettings>, cookie: Cookie, verify: Verifier, body: Option<Val>)
    requires Post(stored, cookie, verify, body).0.Saved?
    ensures GetSettings(Some(Post(stored, cookie, verify, body).1)) == SettingsFound(Post(stored, cookie, verify, body).0.settings)
  {
  }
}
