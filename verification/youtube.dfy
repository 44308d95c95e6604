/** YouTube helpers: the video id a URL names, and the thumbnail and embed URLs of an id.

    The id comes from matching the URL against
    `^.*(youtu.be/|v/|u/\w/|embed/|watch?v=|&v=)([^#&?]*).*`. The greedy `.*` backs off
    from the longest prefix it can take, so the marker that is used is the one that starts
    last, among the positions the first `.*` can reach: it does not match a line terminator,
    so it stops at the first one. The markers start with six different characters, so at
    most one of them matches at a position. The second group runs to the first `#`, `&` or
    `?`, across line terminators too. */
module YouTube {
  import opened Js

  /** The characters `.` does not match. */
  predicate IsLineTerminator(c: char)
  {
    c == '\n' || c == '\r' || c == '\U{2028}' || c == '\U{2029}'
  }

  /** `\w` */
  predicate IsWordChar(c: char)
  {
    ('a' <= c <= 'z') || ('A' <= c <= 'Z') || ('0' <= c <= '9') || c == '_'
  }

  /** `[^#&?]` */
  predicate IsIdChar(c: char)
  {
    c != '#' && c != '&' && c != '?'
  }

  /** The length of the marker that matches at position `p`, if one does. The first
      character decides which alternative can match. */
  function MarkerAt(s: string, p: nat): (n: Option<nat>)
    ensures n.Some? ==> p + n.value <= |s|
  {
    if p >= |s| then None
    else match s[p]
      case 'y' =>
        if p + 9 <= |s| && s[p + 1] == 'o' && s[p + 2] == 'u' && s[p + 3] == 't' && s[p + 4] == 'u'
           && !IsLineTerminator(s[p + 5]) && s[p + 6] == 'b' && s[p + 7] == 'e' && s[p + 8] == '/'
        then Some(9) else None
      case 'v' => if p + 2 <= |s| && s[p + 1] == '/' then Some(2) else None
      case 'u' =>
        if p + 4 <= |s| && s[p + 1] == '/' && IsWordChar(s[p + 2]) && s[p + 3] == '/' then Some(4) else None
      case 'e' =>
        if p + 6 <= |s| && s[p + 1] == 'm' && s[p + 2] == 'b' && s[p + 3] == 'e' && s[p + 4] == 'd'
           && s[p + 5] == '/'
        then Some(6) else None
      case 'w' =>
        if p + 8 <= |s| && s[p + 1] == 'a' && s[p + 2] == 't' && s[p + 3] == 'c' && s[p + 4] == 'h'
           && s[p + 5] == '?' && s[p + 6] == 'v' && s[p + 7] == '='
        then Some(8) else None
      case '&' => if p + 3 <= |s| && s[p + 1] == 'v' && s[p + 2] == '=' then Some(3) else None
      case _ => None
  }

  /** How far the leading `.*` can reach: up to the first line terminator. */
  function Reach(s: string): (n: nat)
    ensures n <= |s|
    ensures forall i :: 0 <= i < n ==> !IsLineTerminator(s[i])
    ensures n < |s| ==> IsLineTerminator(s[n])
    decreases |s|
  {
    if s == [] || IsLineTerminator(s[0]) then 0 else 1 + Reach(s[1..])
  }

  /** The last position at or before `p` where a marker matches. */
  function LastMarker(s: string, p: nat): (r: Option<nat>)
    ensures r.Some? ==> r.value <= p && MarkerAt(s, r.value).Some?
    ensures r.Some? ==> forall q :: r.value < q <= p ==> MarkerAt(s, q).None?
    ensures r.None? ==> forall q :: 0 <= q <= p ==> MarkerAt(s, q).None?
    decreases p
  {
    if MarkerAt(s, p).Some? then Some(p)
    else if p == 0 then None
    else LastMarker(s, p - 1)
  }

  /** The second group: the longest run of id characters at the start of `s`. */
  function IdRun(s: string): (r: string)
    ensures r <= s
    ensures forall i :: 0 <= i < |r| ==> IsIdChar(r[i])
    ensures |r| < |s| ==> !IsIdChar(s[|r|])
    decreases |s|
  {
    if s == [] || !IsIdChar(s[0]) then [] else [s[0]] + IdRun(s[1..])
  }

  /** The candidate id of `url`: the run after the marker that starts last, if any marker matches. */
  function Candidate(url: string): Option<string>
  {
    match LastMarker(url, Reach(url))
    case None => None
    case Some(p) => Some(IdRun(url[p + MarkerAt(url, p).value..]))
  }

  /** `extractYouTubeId`: the candidate when it is exactly 11 characters long, else null. */
  function ExtractId(url: string): (r: Option<string>)
    ensures r.Some? ==> |r.value| == 11
    ensures r.Some? ==> forall i :: 0 <= i < 11 ==> IsIdChar(r.value[i])
    ensures r.Some? ==> exists p :: 0 <= p <= Reach(url) && MarkerAt(url, p).Some?
  {
    match Candidate(url)
    case Some(id) => if |id| == 11 then Some(id) else None
    case None => None
  }

  /** Without a marker within reach there is no id, whatever else the URL holds. */
  lemma NoMarkerNoId(url: string)
    requires forall p :: 0 <= p <= Reach(url) ==> MarkerAt(url, p).None?
    ensures ExtractId(url).None?
  {
  }

  /** When the last marker is followed by a run of exactly 11 id characters and then the end
      of the string or one of `#&?`, that run is the id. */
  lemma IdAfterLastMarker(url: string, p: nat, id: string)
    requires p <= Reach(url) && MarkerAt(url, p).Some?
    requires forall q :: p < q <= Reach(url) ==> MarkerAt(url, q).None?
    requires |id| == 11 && forall i :: 0 <= i < 11 ==> IsIdChar(id[i])
    requires var start := p + MarkerAt(url, p).value;
             url[start..] == id || (exists rest :: url[start..] == id + rest && rest != [] && !IsIdChar(rest[0]))
    ensures ExtractId(url) == Some(id)
  {
    var start := p + MarkerAt(url, p).value;
    assert LastMarker(url, Reach(url)) == Some(p) by {
      LastMarkerUnique(url, Reach(url), p);
    }
    IdRunOf(url[start..], id);
  }

  lemma {:induction false} LastMarkerUnique(s: string, top: nat, p: nat)
    requires p <= top && MarkerAt(s, p).Some?
    requires forall q :: p < q <= top ==> MarkerAt(s, q).None?
    ensures LastMarker(s, top) == Some(p)
    decreases top
  {
    if top != p {
      LastMarkerUnique(s, top - 1, p);
    }
  }

  lemma {:induction false} IdRunOf(s: string, id: string)
    requires forall i :: 0 <= i < |id| ==> IsIdChar(id[i])
    requires s == id || (exists rest :: s == id + rest && rest != [] && !IsIdChar(rest[0]))
    ensures IdRun(s) == id
    decreases |id|
  {
    if id == [] {
      if s != id {
        var rest :| s == id + rest && rest != [] && !IsIdChar(rest[0]);
        assert s[0] == rest[0];
      }
    } else {
      assert s[0] == id[0] && IsIdChar(id[0]);
      if s == id {
        IdRunOf(s[1..], id[1..]);
      } else {
        var rest :| s == id + rest && rest != [] && !IsIdChar(rest[0]);
        assert s[1..] == id[1..] + rest;
        IdRunOf(s[1..], id[1..]);
      }
    }
  }

  /** `.*` reaches past any prefix without line terminators. */
  lemma {:induction false} ReachPast(s: string, k: nat)
    requires k <= |s| && forall i :: 0 <= i < k ==> !IsLineTerminator(s[i])
    ensures Reach(s) >= k
    decreases k
  {
    if k > 0 {
      ReachPast(s[1..], k - 1);
    }
  }

  /** Every marker ends with `/` or `=`. */
  lemma MarkerEnd(s: string, q: nat)
    ensures MarkerAt(s, q).Some? ==>
              MarkerAt(s, q).value >= 2 && s[q + MarkerAt(s, q).value - 1] in {'/', '='}
  {
  }

  /** No marker starts in a stretch of the string that holds no `/` and no `=`, unless it
      runs past the stretch's end. */
  lemma NoMarkerIn(s: string, lo: nat, hi: nat, q: nat)
    requires lo <= q && hi <= |s| && forall i :: lo <= i < hi ==> s[i] != '/' && s[i] != '='
    ensures MarkerAt(s, q).Some? ==> q + MarkerAt(s, q).value > hi
  {
    MarkerEnd(s, q);
  }

  /** A URL without `/` and `=`, a bare id for one, names no video. */
  lemma BareIdRejected(url: string)
    requires forall i :: 0 <= i < |url| ==> url[i] != '/' && url[i] != '='
    ensures ExtractId(url) == None
  {
    forall q | 0 <= q <= Reach(url) ensures MarkerAt(url, q).None? {
      NoMarkerIn(url, 0, |url|, q);
    }
    NoMarkerNoId(url);
  }

  /** The last marker decides: after a trailing `&v=` whose run is not 11 characters long
      there is no id, whatever valid URL comes before it. */
  lemma LaterMarkerWins(head: string, tail: string)
    requires forall i :: 0 <= i < |head| ==> !IsLineTerminator(head[i])
    requires forall i :: 0 <= i < |tail| ==> IsIdChar(tail[i]) && tail[i] != '/' && tail[i] != '='
    requires |tail| != 11
    ensures ExtractId(head + "&v=" + tail) == None
  {
    var url := head + "&v=" + tail;
    var p := |head|;
    ReachPast(url, p + 1);
    assert MarkerAt(url, p) == Some(3);
    forall q | p < q <= Reach(url) ensures MarkerAt(url, q).None? {
      if q < p + 3 {
        assert url[p + 1] == 'v' && url[p + 2] == '=';
      } else {
        NoMarkerIn(url, p + 3, |url|, q);
      }
    }
    LastMarkerUnique(url, Reach(url), p);
    assert url[p + 3..] == tail;
    IdRunOf(tail, tail);
  }

  /** A `watch?v=` URL gives its id, whatever comes before it. */
  lemma WatchUrl(head: string, id: string)
    requires forall i :: 0 <= i < |head| ==> !IsLineTerminator(head[i])
    requires |id| == 11 && forall i :: 0 <= i < 11 ==> IsIdChar(id[i]) && id[i] != '/' && id[i] != '='
    ensures ExtractId(head + "watch?v=" + id) == Some(id)
  {
    var url := head + "watch?v=" + id;
    var p := |head|;
    ReachPast(url, p + 1);
    assert MarkerAt(url, p) == Some(8);
    forall q | p < q <= Reach(url) ensures MarkerAt(url, q).None? {
      if q < p + 8 {
        assert url[p + 1] == 'a' && url[p + 2] == 't' && url[p + 3] == 'c' && url[p + 4] == 'h';
        assert url[p + 5] == '?' && url[p + 6] == 'v' && url[p + 7] == '=';
      } else {
        NoMarkerIn(url, p + 8, |url|, q);
      }
    }
    assert url[p + 8..] == id;
    IdAfterLastMarker(url, p, id);
  }

  /** `isValidYouTubeUrl` */
  predicate IsValidUrl(url: string)
  {
    ExtractId(url).Some?
  }

  lemma ValidGivesLastMarker(url: string)
    requires IsValidUrl(url)
    ensures exists p :: 0 <= p <= Reach(url) && MarkerAt(url, p).Some?
                        && (forall q :: p < q <= Reach(url) ==> MarkerAt(url, q).None?)
                        && |IdRun(url[p + MarkerAt(url, p).value..])| == 11
  {
    var p := LastMarker(url, Reach(url)).value;
    assert |IdRun(url[p + MarkerAt(url, p).value..])| == 11;
  }

  lemma LastMarkerGivesValid(url: string, p: nat)
    requires p <= Reach(url) && MarkerAt(url, p).Some?
    requires forall q :: p < q <= Reach(url) ==> MarkerAt(url, q).None?
    requires |IdRun(url[p + MarkerAt(url, p).value..])| == 11
    ensures IsValidUrl(url)
  {
    LastMarkerUnique(url, Reach(url), p);
  }

  /** A URL is valid exactly when some marker starts within reach, no marker starts after it
      within reach, and the run of id characters after it is 11 characters long. */
  lemma ValidIffElevenAfterLastMarker(url: string)
    ensures IsValidUrl(url) <==>
              exists p :: 0 <= p <= Reach(url) && MarkerAt(url, p).Some?
                          && (forall q :: p < q <= Reach(url) ==> MarkerAt(url, q).None?)
                          && |IdRun(url[p + MarkerAt(url, p).value..])| == 11
  {
    if IsValidUrl(url) {
      ValidGivesLastMarker(url);
    }
    if exists p :: 0 <= p <= Reach(url) && MarkerAt(url, p).Some?
                   && (forall q :: p < q <= Reach(url) ==> MarkerAt(url, q).None?)
                   && |IdRun(url[p + MarkerAt(url, p).value..])| == 11 {
      var p :| 0 <= p <= Reach(url) && MarkerAt(url, p).Some?
               && (forall q :: p < q <= Reach(url) ==> MarkerAt(url, q).None?)
               && |IdRun(url[p + MarkerAt(url, p).value..])| == 11;
      LastMarkerGivesValid(url, p);
    }
  }

  /** The qualities `getYouTubeThumbnail` accepts; `high` is its default. */
  datatype Quality = Default | Medium | High | Standard | Maxres

  function QualityName(q: Quality): string
  {
    match q
    case Default => "default"
    case Medium => "medium"
    case High => "high"
    case Standard => "standard"
    case Maxres => "maxres"
  }

  /** The thumbnail files `img.youtube.com` serves for a video. */
  const ServedFiles := {"default.jpg", "mqdefault.jpg", "hqdefault.jpg", "sddefault.jpg", "maxresdefault.jpg"}

  /** `getYouTubeThumbnail`, as written: the quality name is put in front of `default.jpg`. */
  function ThumbnailAsWritten(id: string, quality: Option<Quality>): (url: string)
    ensures quality.None? ==> url == "https://img.youtube.com/vi/" + id + "/highdefault.jpg"
    ensures quality.Some? ==> url == "https://img.youtube.com/vi/" + id + "/" + QualityName(quality.value) + "default.jpg"
  {
    "https://img.youtube.com/vi/" + id + "/" + QualityName(if quality.Some? then quality.value else High) + "default.jpg"
  }

  /** Only `maxres` names a file YouTube serves; the default `high` gives `highdefault.jpg`. */
  lemma ThumbnailAsWrittenMissesFiles(id: string, q: Quality)
    ensures q != Maxres ==> QualityName(q) + "default.jpg" !in ServedFiles
    ensures q == Maxres ==> QualityName(q) + "default.jpg" in ServedFiles
    ensures ThumbnailAsWritten(id, None) == "https://img.youtube.com/vi/" + id + "/" + "highdefault.jpg"
  {
    var f := QualityName(q) + "default.jpg";
    // The served names are 11, 13 or 17 characters long; the only 17-character one starts with `m`.
    match q {
      case Default => assert |f| == 18;
      case Medium => assert |f| == 17 && f[1] == 'e';
      case High => assert |f| == 15;
      case Standard => assert |f| == 19;
      case Maxres => assert f == "maxresdefault.jpg";
    }
  }

  /** The file YouTube serves for each quality. */
  function FileName(q: Quality): (f: string)
    ensures f in ServedFiles
  {
    match q
    case Default => "default.jpg"
    case Medium => "mqdefault.jpg"
    case High => "hqdefault.jpg"
    case Standard => "sddefault.jpg"
    case Maxres => "maxresdefault.jpg"
  }

  /** `getYouTubeThumbnail` with the file names YouTube uses: every quality names a served
      file, a different one per quality, and the default is `hqdefault.jpg`. */
  function Thumbnail(id: string, quality: Option<Quality>): (url: string)
    ensures exists f :: f in ServedFiles && url == "https://img.youtube.com/vi/" + id + "/" + f
    ensures quality.None? ==> url == "https://img.youtube.com/vi/" + id + "/hqdefault.jpg"
  {
    "https://img.youtube.com/vi/" + id + "/" + FileName(if quality.Some? then quality.value else High)
  }

  /** Different qualities give different thumbnails. */
  lemma ThumbnailQualitiesDiffer(id: string, q: Quality, r: Quality)
    requires q != r
    ensures Thumbnail(id, Some(q)) != Thumbnail(id, Some(r))
  {
    var base := "https://img.youtube.com/vi/" + id + "/";
    assert Thumbnail(id, Some(q))[|base|..] == FileName(q);
    assert Thumbnail(id, Some(r))[|base|..] == FileName(r);
  }

  /** `getYouTubeEmbedUrl` */
  function EmbedUrl(id: string): (url: string)
    ensures |url| == 30 + |id| && url[..30] == "https://www.youtube.com/embed/" && url[30..] == id
  {
    "https://www.youtube.com/embed/" + id
  }

  /** Two ids never share an embed URL: the id is the part after the fixed prefix. */
  lemma EmbedUrlInjective(a: string, b: string)
    ensures EmbedUrl(a) == EmbedUrl(b) <==> a == b
  {
    if EmbedUrl(a) == EmbedUrl(b) {
      assert a == EmbedUrl(a)[30..];
    }
  }
}
