/** The public day page: how a song link becomes an embeddable player URL, how the route
    picks the day and the creator, what the page shows when the creator left a field
    empty, and how the page's state is filled from the server's answers. */
module ValentinePage {
  import opened Optional
  import opened Json
  import opened Text
  import opened Photos
  import opened ValentineDays
  import Server

  const Autoplay: string := "?autoplay=1"
  const YoutubeEmbedPrefix: string := "https://www.youtube.com/embed/"

  /** The two `.replace` calls of the Spotify branch; each rewrites the first match only. */
  function SpotifyRewrite(url: string): string {
    ReplaceFirst(ReplaceFirst(url, "/track/", "/embed/track/"), "/playlist/", "/embed/playlist/")
  }

  /** `getEmbedUrl`. `watchId` stands for `new URL(url).searchParams.get('v')`, with `''`
      for a missing parameter or a URL the platform parser rejects. A Spotify link wins
      over both YouTube forms, and the `youtube.com/watch` form over `youtu.be/`. */
  function GetEmbedUrl(url: string, watchId: string -> string): (r: string)
    ensures url == "" ==> r == ""
    ensures (!Contains(url, "open.spotify.com") && !Contains(url, "youtube.com/watch")
             && !Contains(url, "youtu.be/")) ==> r == ""
    ensures r != "" ==> |r| >= |Autoplay| && r[|r| - |Autoplay|..] == Autoplay
    ensures !Contains(url, "open.spotify.com") && Contains(url, "youtube.com/watch") ==>
      r == (if watchId(url) == "" then "" else YoutubeEmbedPrefix + watchId(url) + Autoplay)
    ensures !Contains(url, "open.spotify.com") && !Contains(url, "youtube.com/watch") && Contains(url, "youtu.be/") ==>
      var id := Before(SplitSecond(url, "youtu.be/").value, "?");
      r == (if id == "" then "" else YoutubeEmbedPrefix + id + Autoplay)
  {
    if url == "" then ""
    else if Contains(url, "open.spotify.com") then
      Before(SpotifyRewrite(url), "?") + Autoplay
    else if Contains(url, "youtube.com/watch") then
      var id := watchId(url);
      if id != "" then YoutubeEmbedPrefix + id + Autoplay else ""
    else if Contains(url, "youtu.be/") then
      match SplitSecond(url, "youtu.be/")
      case None => ""
      case Some(rest) =>
        var id := Before(rest, "?");
        if id != "" then YoutubeEmbedPrefix + id + Autoplay else ""
    else ""
  }

  /** `getEmbedUrl(dayContent?.songUrl)`: a song field that is not a string throws inside
      the `try` and yields `''`. */
  function SongEmbed(content: Fields, watchId: string -> string): (r: string)
    ensures "songUrl" in content && content["songUrl"].FStr? ==> r == GetEmbedUrl(content["songUrl"].s, watchId)
    ensures !("songUrl" in content && content["songUrl"].FStr?) ==> r == ""
  {
    if "songUrl" in content && content["songUrl"].FStr? then GetEmbedUrl(content["songUrl"].s, watchId) else ""
  }

  /** A Spotify link keeps the rewritten link up to its first `?` and gets `?autoplay=1`,
      whatever YouTube text it also holds. */
  lemma SpotifyEmbedShape(url: string, watchId: string -> string)
    requires Contains(url, "open.spotify.com")
    ensures var r := GetEmbedUrl(url, watchId);
      var c := SpotifyRewrite(url);
      var n := |r| - |Autoplay|;
      && 0 <= n <= |c|
      && r[..n] == c[..n]
      && r[n..] == Autoplay
      && (forall k :: 0 <= k < n ==> c[k] != '?')
      && (n == |c| || c[n] == '?')
  {
    var c := SpotifyRewrite(url);
    var b := Before(c, "?");
    assert url != "";
    assert GetEmbedUrl(url, watchId) == b + Autoplay;
    BeforeQuestion(c);
  }

  /** `s.split('?')[0]` is the text before the first `?`. */
  lemma BeforeQuestion(c: string)
    ensures var b := Before(c, "?");
      && |b| <= |c| && b == c[..|b|]
      && (forall k :: 0 <= k < |b| ==> c[k] != '?')
      && (|b| == |c| || c[|b|] == '?')
  {
    var b := Before(c, "?");
    forall k | 0 <= k < |b| ensures c[k] != '?' {
      assert !OccursAt(c, "?", k);
      assert c[k..k + 1] == [c[k]];
    }
    if |b| < |c| {
      assert OccursAt(c, "?", |b|);
      assert c[|b|..|b| + 1] == [c[|b|]];
    }
  }

  /** A track link whose rewritten form has no `/playlist/` embeds as the link with its
      first `/track/` turned into `/embed/track/`, up to its first `?`. */
  lemma SpotifyTrackLink(url: string, k: nat, watchId: string -> string)
    requires Contains(url, "open.spotify.com") && FirstAt(url, "/track/", k)
    requires !Contains(url[..k] + "/embed/track/" + url[k + 7..], "/playlist/")
    ensures GetEmbedUrl(url, watchId) == Before(url[..k] + "/embed/track/" + url[k + 7..], "?") + Autoplay
  {
    assert url != "";
  }

  /** `https://youtu.be/<id>?<query>` embeds as `https://www.youtube.com/embed/<id>?autoplay=1`
      when the id has neither `?` nor `/`. */
  lemma YoutuBeLink(id: string, query: string, watchId: string -> string)
    requires id != "" && '?' !in id && '/' !in id
    requires !Contains("https://youtu.be/" + id + "?" + query, "open.spotify.com")
    requires !Contains("https://youtu.be/" + id + "?" + query, "youtube.com/watch")
    ensures GetEmbedUrl("https://youtu.be/" + id + "?" + query, watchId) == YoutubeEmbedPrefix + id + Autoplay
  {
    var url := "https://youtu.be/" + id + "?" + query;
    var pat := "youtu.be/";
    assert OccursAt(url, pat, 8) by { assert url[8..17] == pat; }
    assert 'y' !in "https://";
    forall k | 0 <= k < 8 ensures !OccursAt(url, pat, k) {
      assert url[k] == "https://"[k];
      if k + 9 <= |url| {
        assert url[k..k + 9][0] == url[k];
      }
    }
    assert FirstAt(url, pat, 8);
    var s := url[17..];
    assert s == id + "?" + query;
    YoutuBeRest(id, query);
  }

  /** A `youtu.be/` link whose id is empty, such as `https://youtu.be/?si=x`, embeds
      nothing. */
  lemma YoutuBeEmptyId(url: string, k: nat, watchId: string -> string)
    requires !Contains(url, "open.spotify.com") && !Contains(url, "youtube.com/watch")
    requires FirstAt(url, "youtu.be/", k)
    requires k + 9 == |url| || url[k + 9] == '?'
    ensures GetEmbedUrl(url, watchId) == ""
  {
    var rest := Before(url[k + 9..], "youtu.be/");
    assert SplitSecond(url, "youtu.be/") == Some(rest);
    if rest != [] {
      assert rest[0] == '?';
      assert OccursAt(rest, "?", 0) by { assert rest[0..1] == "?"; }
    }
    assert Before(rest, "?") == "";
  }

  /** After `youtu.be/`, the text up to the next `youtu.be/` and then up to the first `?`
      is the id. */
  lemma YoutuBeRest(id: string, query: string)
    requires id != "" && '?' !in id && '/' !in id
    ensures Before(Before(id + "?" + query, "youtu.be/"), "?") == id
  {
    var s := id + "?" + query;
    var pat := "youtu.be/";
    forall j | 0 <= j <= |id| ensures !OccursAt(s, pat, j) {
      if j + 9 <= |s| {
        if j + 8 < |id| {
          assert s[j..j + 9][8] == id[j + 8];
        } else {
          assert s[j..j + 9][|id| - j] == '?';
        }
      }
    }
    var t := Before(s, pat);
    assert |t| > |id|;
    assert t[..|id|] == id && t[|id|] == '?';
    assert OccursAt(t, "?", |id|) by { assert t[|id|..|id| + 1] == "?"; }
    forall k | 0 <= k < |id| ensures !OccursAt(t, "?", k) {
      assert t[k..k + 1] == [id[k]];
    }
  }

  /** The day and the creator a page address names. */
  datatype Route = Route(day: string, username: string)

  /** `normalizeRoute`: a valid day keeps the path's user name, or else the `from` query
      value (`''` when absent); any other day gives an empty route. */
  function NormalizeRoute(rawDay: string, rawUsername: string, from: string): (r: Route)
    ensures r.day != "" <==> rawDay in ValidDayPaths()
    ensures r.day != "" ==> r.day == rawDay && r.username == (if rawUsername != "" then rawUsername else from)
    ensures r.day == "" ==> r.username == ""
  {
    DaysShape();
    if rawDay != "" && rawDay in ValidDayPaths() then Route(rawDay, if rawUsername != "" then rawUsername else from)
    else Route("", "")
  }

  /** A route with a day always finds that day in `VALENTINE_DAY_MAP`. */
  lemma RouteDayIsKnown(rawDay: string, rawUsername: string, from: string)
    ensures var r := NormalizeRoute(rawDay, rawUsername, from);
      r.day != "" ==> r.day in DayMap() && DayMap()[r.day].path == r.day
  {
    ValidPathsAreKeys(rawDay);
    DayMapCorrect();
  }

  /** The text `${value}` gives for a scalar field. */
  function Render(f: Field): string {
    match f
    case FNull => "null"
    case FBool(b) => if b then "true" else "false"
    case FNum(n) => if n < 0 then "-" + DecimalString(-n) else DecimalString(n)
    case FStr(s) => s
  }

  /** `dayContent?.heroTitle || `Happy ${valentineDay.name}!``. */
  function DisplayTitle(content: Fields, day: ValentineDay): (r: Field)
    ensures Truthy(r)
    ensures "heroTitle" in content && Truthy(content["heroTitle"]) ==> r == content["heroTitle"]
    ensures !("heroTitle" in content && Truthy(content["heroTitle"])) ==> r == FStr("Happy " + day.name + "!")
  {
    FieldOr(content, "heroTitle", FStr("Happy " + day.name + "!"))
  }

  /** `heroSubtitle || (partnerName ? `For ${partnerName}` : 'Made with love')`. */
  function DisplaySubtitle(content: Fields, profile: Fields): (r: Field)
    ensures Truthy(r)
    ensures "heroSubtitle" in content && Truthy(content["heroSubtitle"]) ==> r == content["heroSubtitle"]
    ensures !("heroSubtitle" in content && Truthy(content["heroSubtitle"])) ==>
      r == FStr(if "partnerName" in profile && Truthy(profile["partnerName"])
                then "For " + Render(profile["partnerName"]) else "Made with love")
  {
    var fallback := if "partnerName" in profile && Truthy(profile["partnerName"])
                    then "For " + Render(profile["partnerName"]) else "Made with love";
    FieldOr(content, "heroSubtitle", FStr(fallback))
  }

  /** `customMessage || profileData?.message || valentineDay.message`: never blank for a
      day of the table. */
  function DisplayMessage(content: Fields, profile: Fields, day: ValentineDay): (r: Field)
    ensures day.message != "" ==> Truthy(r)
    ensures "customMessage" in content && Truthy(content["customMessage"]) ==> r == content["customMessage"]
    ensures !("customMessage" in content && Truthy(content["customMessage"])) ==>
      r == FieldOr(profile, "message", FStr(day.message))
  {
    FieldOr(content, "customMessage", FieldOr(profile, "message", FStr(day.message)))
  }

  /** `dayContent?.quote || ''`. */
  function DisplayQuote(content: Fields): (r: Field)
    ensures Truthy(r) <==> "quote" in content && Truthy(content["quote"])
    ensures Truthy(r) ==> r == content["quote"]
  {
    FieldOr(content, "quote", FStr(""))
  }

  /** `dayContent?.ctaLabel || 'Yes! 💕'`. */
  function DisplayCta(content: Fields): (r: Field)
    ensures Truthy(r)
    ensures "ctaLabel" in content && Truthy(content["ctaLabel"]) ==> r == content["ctaLabel"]
    ensures !("ctaLabel" in content && Truthy(content["ctaLabel"])) ==> r == FStr("Yes! 💕")
  {
    FieldOr(content, "ctaLabel", FStr("Yes! 💕"))
  }

  /** The page's state: who it shows, their public profile, the day's content and photos,
      the loading flag and the error text. */
  class PageState {
    var resolvedUsername: string
    var profileData: Fields
    var dayContent: Fields
    var photos: seq<Photo>
    var loading: bool
    var error: string

    constructor()
      ensures resolvedUsername == "" && profileData == map[] && dayContent == map[]
      ensures photos == [] && loading && error == ""
    {
      resolvedUsername := "";
      profileData := map[];
      dayContent := map[];
      photos := [];
      loading := true;
      error := "";
    }

    /** `loadPageData`: with a user name the page shows that creator's public profile and
        day content, without one the featured creator; `publicProfile`, `content` and
        `featured` are what the fetches answered (None for a failed request). A failed
        step sets the error and leaves the shown data as it was. */
    method LoadPageData(route: Route, publicProfile: Option<Server.PublicView>, content: Option<Fields>,
                        featured: Option<Server.FeaturedView>)
      modifies this
      ensures !loading
      ensures (route.day == "" || route.day !in DayMap()) ==>
        && error == "Invalid page"
        && resolvedUsername == old(resolvedUsername) && profileData == old(profileData)
        && dayContent == old(dayContent) && photos == old(photos)
      ensures route.day != "" && route.day in DayMap() && route.username != "" && publicProfile.None? ==>
        && error == "Creator not found"
        && resolvedUsername == old(resolvedUsername) && profileData == old(profileData)
        && dayContent == old(dayContent) && photos == old(photos)
      ensures route.day != "" && route.day in DayMap() && route.username != "" && publicProfile.Some? ==>
        && error == ""
        && resolvedUsername == route.username
        && profileData == publicProfile.value.profile
        && dayContent == (if content.Some? then content.value else map[])
        && photos == (if route.day in publicProfile.value.photos then publicProfile.value.photos[route.day] else [])
      ensures route.day != "" && route.day in DayMap() && route.username == "" && featured.None? ==>
        && error == "No featured creator configured for short links"
        && resolvedUsername == old(resolvedUsername) && profileData == old(profileData)
        && dayContent == old(dayContent) && photos == old(photos)
      ensures route.day != "" && route.day in DayMap() && route.username == "" && featured.Some? ==>
        && error == ""
        && resolvedUsername == featured.value.username
        && profileData == featured.value.profile
        && dayContent == featured.value.dayContent
        && photos == featured.value.photos
    {
      if route.day == "" || route.day !in DayMap() {
        error := "Invalid page";
        loading := false;
        return;
      }
      loading := true;
      error := "";
      if route.username != "" {
        if publicProfile.None? {
          error := "Creator not found";
          loading := false;
          return;
        }
        resolvedUsername := route.username;
        profileData := publicProfile.value.profile;
        dayContent := if content.Some? then content.value else map[];
        photos := if route.day in publicProfile.value.photos then publicProfile.value.photos[route.day] else [];
        loading := false;
        return;
      }
      if featured.None? {
        error := "No featured creator configured for short links";
        loading := false;
        return;
      }
      resolvedUsername := featured.value.username;
      profileData := featured.value.profile;
      dayContent := featured.value.dayContent;
      photos := featured.value.photos;
      loading := false;
    }
  }
}
