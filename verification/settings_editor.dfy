/** The admin settings page: four sections edited in the browser (the featured playlist,
    social links, team and the "Get in Touch" block), each saved on its own or all at once
    through `POST /api/settings`. Lists are edited by copying and replacing; the playlist's
    preview items are the exception: an edit writes into the items array the previous state
    holds too. */
module SettingsEditor {
  import opened Js
  import opened Query
  import Settings

  datatype SocialLink = SocialLink(platform: string, linkLabel: string, url: string, iconClass: Option<string>)

  datatype TeamMember = TeamMember(name: string, role: string, image: Option<string>, bio: Option<string>)

  datatype PlaylistItem = PlaylistItem(title: string, thumbnail: string, youtubeId: string)

  /** The `featuredPlaylist` state object. Copying it (`{ ...featuredPlaylist }`) copies the
      reference to `items`, not the array. */
  datatype Playlist = Playlist(title: string, description: string, playlistUrl: string, items: array<PlaylistItem>)

  datatype SocialField = Platform | Label | Url | IconClass

  datatype TeamField = Name | Role | Image | Bio

  datatype ItemField = ItemTitle | Thumbnail | YoutubeId

  datatype PlaylistField = PlaylistTitle | PlaylistDescription | PlaylistUrl

  datatype ContactField = Headline | ContactDescription | Email | Phone

  /** The four sections a save can send, by the key it sends them under. */
  datatype SectionKind = SocialLinks | Team | GetInTouch | FeaturedPlaylist

  /** `save` sends every section; `saveSocialLinks` and the others send one. */
  datatype Target = Whole | Only(section: SectionKind)

  /** How the request ended: a 2xx reply, another reply (the handler throws its own
      message), or a rejected `fetch` with the error's message. */
  datatype Outcome = Stored | Rejected | Threw(errorMessage: string)

  /** Every field of the page's state, for stating what one handler changes. */
  datatype EditorState = EditorState(
    socialLinks: seq<SocialLink>, team: seq<TeamMember>, playlist: Playlist,
    headline: string, description: string, email: string, phone: string,
    addressLines: seq<string>, saving: bool, message: string)

  const BlankSocialLink := SocialLink("", "", "", Some(""))
  const BlankTeamMember := TeamMember("", "", None, None)
  const BlankItem := PlaylistItem("", "", "")

  /** The value of one field of a social link; `iconClass` may be absent. */
  function SocialFieldOf(l: SocialLink, f: SocialField): Option<string>
  {
    match f
    case Platform => Some(l.platform)
    case Label => Some(l.linkLabel)
    case Url => Some(l.url)
    case IconClass => l.iconClass
  }

  /** `{ ...n[idx], [field]: value }` on a social link. */
  function SetSocialField(l: SocialLink, f: SocialField, value: string): (r: SocialLink)
    ensures SocialFieldOf(r, f) == Some(value)
    ensures forall g :: g != f ==> SocialFieldOf(r, g) == SocialFieldOf(l, g)
  {
    match f
    case Platform => l.(platform := value)
    case Label => l.(linkLabel := value)
    case Url => l.(url := value)
    case IconClass => l.(iconClass := Some(value))
  }

  /** A social link is determined by its four fields. */
  lemma SocialLinkByFields(a: SocialLink, b: SocialLink)
    requires forall g :: SocialFieldOf(a, g) == SocialFieldOf(b, g)
    ensures a == b
  {
    assert SocialFieldOf(a, Platform) == SocialFieldOf(b, Platform);
    assert SocialFieldOf(a, Label) == SocialFieldOf(b, Label);
    assert SocialFieldOf(a, Url) == SocialFieldOf(b, Url);
    assert SocialFieldOf(a, IconClass) == SocialFieldOf(b, IconClass);
  }

  function TeamFieldOf(m: TeamMember, f: TeamField): Option<string>
  {
    match f
    case Name => Some(m.name)
    case Role => Some(m.role)
    case Image => m.image
    case Bio => m.bio
  }

  /** `{ ...n[idx], [field]: value }` on a team member; the photo comes from the upload. */
  function SetTeamField(m: TeamMember, f: TeamField, value: string): (r: TeamMember)
    ensures TeamFieldOf(r, f) == Some(value)
    ensures forall g :: g != f ==> TeamFieldOf(r, g) == TeamFieldOf(m, g)
  {
    match f
    case Name => m.(name := value)
    case Role => m.(role := value)
    case Image => m.(image := Some(value))
    case Bio => m.(bio := Some(value))
  }

  lemma TeamMemberByFields(a: TeamMember, b: TeamMember)
    requires forall g :: TeamFieldOf(a, g) == TeamFieldOf(b, g)
    ensures a == b
  {
    assert TeamFieldOf(a, Name) == TeamFieldOf(b, Name);
    assert TeamFieldOf(a, Role) == TeamFieldOf(b, Role);
    assert TeamFieldOf(a, Image) == TeamFieldOf(b, Image);
    assert TeamFieldOf(a, Bio) == TeamFieldOf(b, Bio);
  }

  function ItemFieldOf(i: PlaylistItem, f: ItemField): string
  {
    match f
    case ItemTitle => i.title
    case Thumbnail => i.thumbnail
    case YoutubeId => i.youtubeId
  }

  function SetItemField(i: PlaylistItem, f: ItemField, value: string): (r: PlaylistItem)
    ensures ItemFieldOf(r, f) == value
    ensures forall g :: g != f ==> ItemFieldOf(r, g) == ItemFieldOf(i, g)
  {
    match f
    case ItemTitle => i.(title := value)
    case Thumbnail => i.(thumbnail := value)
    case YoutubeId => i.(youtubeId := value)
  }

  /** Copy-then-replace at an existing index: only that entry changes, and it becomes `x`. */
  function ReplaceAt<T>(s: seq<T>, index: nat, x: T): (r: seq<T>)
    requires index < |s|
    ensures |r| == |s| && r[index] == x
    ensures forall k :: 0 <= k < |s| && k != index ==> r[k] == s[k]
  {
    s[index := x]
  }

  /** The JSON each entry is sent as; `JSON.stringify` leaves out an absent optional field. */
  function SocialLinkVal(l: SocialLink): Val
  {
    Obj(map["platform" := Str(l.platform), "label" := Str(l.linkLabel), "url" := Str(l.url)]
        + (if l.iconClass.Some? then map["iconClass" := Str(l.iconClass.value)] else map[]))
  }

  function TeamMemberVal(m: TeamMember): Val
  {
    Obj(map["name" := Str(m.name), "role" := Str(m.role)]
        + (if m.image.Some? then map["image" := Str(m.image.value)] else map[])
        + (if m.bio.Some? then map["bio" := Str(m.bio.value)] else map[]))
  }

  function ItemVal(i: PlaylistItem): Val
  {
    Obj(map["title" := Str(i.title), "thumbnail" := Str(i.thumbnail), "youtubeId" := Str(i.youtubeId)])
  }

  function StrVal(s: string): Val { Str(s) }

  function KeyOf(k: SectionKind): string
  {
    match k
    case SocialLinks => "socialLinks"
    case Team => "team"
    case GetInTouch => "getInTouch"
    case FeaturedPlaylist => "featuredPlaylist"
  }

  /** The message a successful save shows. */
  function SavedMessage(t: Target): string
  {
    match t
    case Whole => "Saved successfully"
    case Only(SocialLinks) => "Social links saved"
    case Only(Team) => "Team saved"
    case Only(GetInTouch) => "Get in Touch saved"
    case Only(FeaturedPlaylist) => "Featured playlist saved"
  }

  /** The message of the error a save throws on a non-2xx reply. */
  function RejectedMessage(t: Target): string
  {
    match t
    case Whole => "Failed to save"
    case Only(SocialLinks) => "Failed to save social links"
    case Only(Team) => "Failed to save team"
    case Only(GetInTouch) => "Failed to save get in touch"
    case Only(FeaturedPlaylist) => "Failed to save playlist"
  }

  /** The message left once a save is over: `e.message || 'Save failed'` on failure. */
  function OutcomeMessage(t: Target, outcome: Outcome): (m: string)
    ensures outcome.Stored? ==> m == SavedMessage(t)
    ensures outcome.Rejected? ==> m == RejectedMessage(t)
    ensures outcome.Threw? && outcome.errorMessage != "" ==> m == outcome.errorMessage
    ensures outcome.Threw? && outcome.errorMessage == "" ==> m == "Save failed"
    ensures m != ""
  {
    match outcome
    case Stored => SavedMessage(t)
    case Rejected => RejectedMessage(t)
    case Threw(e) => if e != "" then e else "Save failed"
  }

  class SettingsEditor {
    var socialLinks: seq<SocialLink>
    var team: seq<TeamMember>
    var playlist: Playlist
    var headline: string
    var description: string
    var email: string
    var phone: string
    var addressLines: seq<string>
    var saving: bool
    var message: string

    function State(): EditorState
      reads this
    {
      EditorState(socialLinks, team, playlist, headline, description, email, phone, addressLines, saving, message)
    }

    /** The initial `useState` values: empty lists and strings, an empty playlist, not saving. */
    constructor()
      ensures socialLinks == [] && team == [] && addressLines == []
      ensures headline == "" && description == "" && email == "" && phone == ""
      ensures playlist.title == "" && playlist.description == "" && playlist.playlistUrl == ""
      ensures fresh(playlist.items) && playlist.items.Length == 0
      ensures !saving && message == ""
    {
      socialLinks := [];
      team := [];
      var items := new PlaylistItem[0];
      playlist := Playlist("", "", "", items);
      headline := "";
      description := "";
      email := "";
      phone := "";
      addressLines := [];
      saving := false;
      message := "";
    }

    /** "Add Social Link" */
    method AddSocialLink()
      modifies this
      ensures State() == old(State()).(socialLinks := old(socialLinks) + [BlankSocialLink])
    {
      socialLinks := socialLinks + [BlankSocialLink];
    }

    /** "Remove" on a social link row: `filter((_, i) => i !== idx)`. */
    method RemoveSocialLink(idx: int)
      modifies this
      ensures State() == old(State()).(socialLinks := WithoutIndex(old(socialLinks), idx))
    {
      socialLinks := WithoutIndex(socialLinks, idx);
    }

    /** An input of a social link row: the array is copied and the row replaced by a copy
        with one field set. */
    method UpdateSocialLink(idx: nat, field: SocialField, value: string)
      requires idx < |socialLinks|
      modifies this
      ensures State() == old(State()).(socialLinks :=
                ReplaceAt(old(socialLinks), idx, SetSocialField(old(socialLinks[idx]), field, value)))
    {
      socialLinks := ReplaceAt(socialLinks, idx, SetSocialField(socialLinks[idx], field, value));
    }

    /** "Add Team Member": name and role only, no photo or bio. */
    method AddTeamMember()
      modifies this
      ensures State() == old(State()).(team := old(team) + [BlankTeamMember])
    {
      team := team + [BlankTeamMember];
    }

    method RemoveTeamMember(idx: int)
      modifies this
      ensures State() == old(State()).(team := WithoutIndex(old(team), idx))
    {
      team := WithoutIndex(team, idx);
    }

    /** An input of a team row, or the photo upload of that row. */
    method UpdateTeamMember(idx: nat, field: TeamField, value: string)
      requires idx < |team|
      modifies this
      ensures State() == old(State()).(team := ReplaceAt(old(team), idx, SetTeamField(old(team[idx]), field, value)))
    {
      team := ReplaceAt(team, idx, SetTeamField(team[idx], field, value));
    }

    /** "Add Address Line" */
    method AddAddressLine()
      modifies this
      ensures State() == old(State()).(addressLines := old(addressLines) + [""])
    {
      addressLines := addressLines + [""];
    }

    method RemoveAddressLine(idx: int)
      modifies this
      ensures State() == old(State()).(addressLines := WithoutIndex(old(addressLines), idx))
    {
      addressLines := WithoutIndex(addressLines, idx);
    }

    method UpdateAddressLine(idx: nat, value: string)
      requires idx < |addressLines|
      modifies this
      ensures State() == old(State()).(addressLines := ReplaceAt(old(addressLines), idx, value))
    {
      addressLines := ReplaceAt(addressLines, idx, value);
    }

    /** The headline, description, email and phone inputs. */
    method SetContact(field: ContactField, value: string)
      modifies this
      ensures field == Headline ==> State() == old(State()).(headline := value)
      ensures field == ContactDescription ==> State() == old(State()).(description := value)
      ensures field == Email ==> State() == old(State()).(email := value)
      ensures field == Phone ==> State() == old(State()).(phone := value)
    {
      match field {
        case Headline => headline := value;
        case ContactDescription => description := value;
        case Email => email := value;
        case Phone => phone := value;
      }
    }

    /** The playlist's title, URL and description inputs: `{ ...featuredPlaylist, [field]: value }`,
        which keeps the same items array. */
    method SetPlaylistField(field: PlaylistField, value: string)
      modifies this
      ensures playlist.items == old(playlist.items)
      ensures field == PlaylistTitle ==> State() == old(State()).(playlist := old(playlist).(title := value))
      ensures field == PlaylistDescription ==> State() == old(State()).(playlist := old(playlist).(description := value))
      ensures field == PlaylistUrl ==> State() == old(State()).(playlist := old(playlist).(playlistUrl := value))
    {
      match field {
        case PlaylistTitle => playlist := playlist.(title := value);
        case PlaylistDescription => playlist := playlist.(description := value);
        case PlaylistUrl => playlist := playlist.(playlistUrl := value);
      }
    }

    /** "Add Playlist Item": a new items array, the old items followed by a blank one. */
    method AddPlaylistItem()
      modifies this
      ensures fresh(playlist.items)
      ensures playlist.items[..] == old(playlist.items[..]) + [BlankItem]
      ensures State() == old(State()).(playlist := old(playlist).(items := playlist.items))
    {
      var old_items := playlist.items;
      var n := old_items.Length;
      var items := new PlaylistItem[n + 1](_ => BlankItem);
      forall k | 0 <= k < n {
        items[k] := old_items[k];
      }
      playlist := playlist.(items := items);
    }

    /** "Remove" on an item row: the copy gets a new, filtered items array, so the array the
        previous state holds is left as it was. */
    method RemovePlaylistItem(idx: int)
      modifies this
      ensures fresh(playlist.items)
      ensures playlist.items[..] == WithoutIndex(old(playlist.items[..]), idx)
      ensures State() == old(State()).(playlist := old(playlist).(items := playlist.items))
    {
      var kept := WithoutIndex(playlist.items[..], idx);
      var items := new PlaylistItem[|kept|](_ => BlankItem);
      forall k | 0 <= k < |kept| {
        items[k] := kept[k];
      }
      playlist := playlist.(items := items);
    }

    /** An input of an item row: `next` is a shallow copy, so `next.items[idx] = ...` writes
        into the array the current state (and any earlier snapshot of it) holds. The state's
        fields, the playlist value included, stay the same references. */
    method UpdatePlaylistItem(idx: nat, field: ItemField, value: string)
      requires idx < playlist.items.Length
      modifies playlist.items
      ensures State() == old(State())
      ensures playlist.items[..] == ReplaceAt(old(playlist.items[..]), idx, SetItemField(old(playlist.items[idx]), field, value))
    {
      playlist.items[idx] := SetItemField(playlist.items[idx], field, value);
    }

    /** The JSON value of one section as it stands. */
    function SectionValue(k: SectionKind): Val
      reads this, playlist.items
    {
      match k
      case SocialLinks => Arr(Map(socialLinks, SocialLinkVal))
      case Team => Arr(Map(team, TeamMemberVal))
      case GetInTouch =>
        Obj(map["headline" := Str(headline), "description" := Str(description), "email" := Str(email),
                "phone" := Str(phone), "addressLines" := Arr(Map(addressLines, StrVal))])
      case FeaturedPlaylist =>
        Obj(map["title" := Str(playlist.title), "description" := Str(playlist.description),
                "playlistUrl" := Str(playlist.playlistUrl), "items" := Arr(Map(playlist.items[..], ItemVal))])
    }

    /** The body a save sends: all four sections, or only the one being saved. */
    function Payload(t: Target): (body: Val)
      reads this, playlist.items
      ensures body.Obj?
      ensures t.Whole? ==> body.fields.Keys == {"socialLinks", "team", "getInTouch", "featuredPlaylist"}
      ensures t.Only? ==> body.fields.Keys == {KeyOf(t.section)}
      ensures forall k :: KeyOf(k) in body.fields ==> body.fields[KeyOf(k)] == SectionValue(k)
    {
      match t
      case Whole =>
        Obj(map["socialLinks" := SectionValue(SocialLinks), "team" := SectionValue(Team),
                "featuredPlaylist" := SectionValue(FeaturedPlaylist), "getInTouch" := SectionValue(GetInTouch)])
      case Only(k) => Obj(map[KeyOf(k) := SectionValue(k)])
    }

    /** `save` and the four per-section saves: `saving` is set and the message cleared, the
        request is sent, the message reports how it ended, and `saving` is cleared again
        whatever happened. `savingWhileSent` is the flag as the request leaves. */
    method Save(t: Target, outcome: Outcome) returns (body: Val, savingWhileSent: bool)
      modifies this
      ensures body == old(Payload(t))
      ensures savingWhileSent && !saving
      ensures State() == old(State()).(saving := false, message := OutcomeMessage(t, outcome))
    {
      body := Payload(t);
      saving := true;
      message := "";
      savingWhileSent := saving;
      message := OutcomeMessage(t, outcome);
      saving := false;
    }
  }

  /** The request a section save sends, handled by `POST /api/settings` on an existing row,
      writes that section and leaves the other three columns as they were. */
  lemma SectionSaveWritesOnlySection(stored: Settings.SiteSettings, k: SectionKind, v: Val)
    requires v != Undef
    ensures var r := Settings.ApplyUpdate(stored, Settings.BuildUpdate(Obj(map[KeyOf(k) := v]), Some(stored)));
            && (if k == SocialLinks then r.socialLinks == v else r.socialLinks == stored.socialLinks)
            && (if k == Team then r.team == v else r.team == stored.team)
            && (if k == FeaturedPlaylist then r.featuredPlaylist == v else r.featuredPlaylist == stored.featuredPlaylist)
            && (if k == GetInTouch then r.getInTouch == Settings.MergeGetInTouch(stored.getInTouch, v)
                else r.getInTouch == stored.getInTouch)
  {
    var body := Obj(map[KeyOf(k) := v]);
    assert Get(body, KeyOf(k)) == v;
    assert forall j :: j != k ==> KeyOf(j) != KeyOf(k) && Get(body, KeyOf(j)) == Undef;
  }

  /** Each row a list section sends is the JSON of the row at the same index. */
  lemma SectionRowsInOrder(e: SettingsEditor, i: nat)
    requires i < |e.socialLinks|
    ensures e.SectionValue(SocialLinks).items[i] == SocialLinkVal(e.socialLinks[i])
    ensures |e.SectionValue(SocialLinks).items| == |e.socialLinks|
  {
  }
}
