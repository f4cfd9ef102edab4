/** The creator's dashboard: the per-day photo lists and content forms it keeps, the
    six-photo limit it applies before uploading, and the hidden five-click counter. */
module Dashboard {
  import opened Optional
  import opened Json
  import opened Photos
  import opened ValentineDays
  import ValentinePage
  import Server

  /** The dashboard's own limit of photos per day. */
  const MaxPhotos: nat := 6

  /** `emptyDayForm`. */
  const EmptyDayForm: Fields := map[
    "customMessage" := FStr(""), "heroTitle" := FStr(""), "heroSubtitle" := FStr(""),
    "quote" := FStr(""), "songUrl" := FStr(""), "ctaLabel" := FStr(""),
    "hideNoButton" := FBool(false)]

  /** `emptyDayForm` has the seven content fields, and none of them is truthy, so every
      display falls back to its default. */
  lemma EmptyDayFormFields()
    ensures EmptyDayForm.Keys == {"customMessage", "heroTitle", "heroSubtitle", "quote", "songUrl", "ctaLabel", "hideNoButton"}
    ensures forall k :: k in EmptyDayForm ==> !Truthy(EmptyDayForm[k])
  {
  }

  /** `prev[day] || []`. */
  function PhotosOf(dayPhotos: map<string, seq<Photo>>, day: string): (r: seq<Photo>)
    ensures day in dayPhotos ==> r == dayPhotos[day]
    ensures day !in dayPhotos ==> r == []
  {
    if day in dayPhotos then dayPhotos[day] else []
  }

  /** How many of the selected files `handleImageUpload` sends: none when nothing is
      selected or the day is full, otherwise the first `6 - count` of them. */
  function UploadCount(selected: nat, count: nat): (n: nat)
    ensures n <= selected
    ensures count >= MaxPhotos ==> n == 0
    ensures count < MaxPhotos ==> n == if selected <= MaxPhotos - count then selected else MaxPhotos - count
  {
    if selected == 0 || count >= MaxPhotos then 0
    else if selected <= MaxPhotos - count then selected
    else MaxPhotos - count
  }

  /** The photos the uploads of `files` returned, in order. `upload(i, f)` is the server's
      answer to the `i`-th upload call of the batch, for file `f`, and None for a failed
      upload; each call gets its own answer, so files with the same name may fare
      differently. */
  function Uploaded(files: seq<Server.FileInput>, upload: (nat, Server.FileInput) -> Option<Photo>): (r: seq<Photo>)
    ensures |r| <= |files|
  {
    if files == [] then []
    else
      var i := |files| - 1;
      Uploaded(files[..i], upload) + (if upload(i, files[i]).Some? then [upload(i, files[i]).value] else [])
  }

  /** A single file: its photo when the upload call succeeds, nothing when it fails. */
  lemma UploadedOne(f: Server.FileInput, upload: (nat, Server.FileInput) -> Option<Photo>)
    ensures upload(0, f).Some? ==> Uploaded([f], upload) == [upload(0, f).value]
    ensures upload(0, f).None? ==> Uploaded([f], upload) == []
  {
    assert [f][..0] == [];
  }

  /** The uploads keep the files' order: the photos of a batch are those of its first part
      followed by those of the rest, whose calls come `|a|` positions later; a failed upload
      adds nothing. */
  lemma {:induction false} UploadedConcat(a: seq<Server.FileInput>, b: seq<Server.FileInput>,
                                          upload: (nat, Server.FileInput) -> Option<Photo>)
    ensures Uploaded(a + b, upload) == Uploaded(a, upload) + Uploaded(b, (k: nat, f) => upload(|a| + k, f))
  {
    var later := (k: nat, f) => upload(|a| + k, f);
    if b == [] {
      assert a + b == a;
    } else {
      var i := |b| - 1;
      var b' := b[..i];
      assert (a + b)[..|a + b| - 1] == a + b';
      assert (a + b)[|a + b| - 1] == b[i];
      UploadedConcat(a, b', upload);
      assert later(i, b[i]) == upload(|a + b| - 1, b[i]);
    }
  }

  /** `handleDeletePhoto`'s update: the day's list without the id; other days untouched. */
  function DeleteFromDay(dayPhotos: map<string, seq<Photo>>, day: string, id: int): (r: map<string, seq<Photo>>)
    ensures r.Keys == dayPhotos.Keys + {day}
    ensures forall d :: d in dayPhotos && d != day ==> r[d] == dayPhotos[d]
    ensures forall i :: 0 <= i < |r[day]| ==> r[day][i].id != id
    ensures forall p: Photo :: p.id != id ==> multiset(r[day])[p] == multiset(PhotosOf(dayPhotos, day))[p]
    ensures r[day] == WithoutId(PhotosOf(dayPhotos, day), id)
  {
    var remaining := WithoutId(PhotosOf(dayPhotos, day), id);
    forall i | 0 <= i < |remaining| ensures remaining[i].id != id {
      assert remaining[i] in multiset(remaining);
    }
    dayPhotos[day := remaining]
  }

  /** `dayForms[day] || emptyDayForm`: the form that is saved, previewed or edited. */
  function FormOf(dayForms: map<string, Fields>, day: string): (r: Fields)
    ensures day in dayForms ==> r == dayForms[day]
    ensures day !in dayForms ==> r == EmptyDayForm
  {
    if day in dayForms then dayForms[day] else EmptyDayForm
  }

  /** `updateDayField`: one field of one day's form, starting from `emptyDayForm` when the
      day has no form yet. */
  function UpdateDayField(dayForms: map<string, Fields>, day: string, key: string, value: Field): (r: map<string, Fields>)
    ensures r.Keys == dayForms.Keys + {day}
    ensures forall d :: d in dayForms && d != day ==> r[d] == dayForms[d]
    ensures key in r[day] && r[day][key] == value
    ensures r[day].Keys == FormOf(dayForms, day).Keys + {key}
    ensures forall k :: k in FormOf(dayForms, day) && k != key ==> r[day][k] == FormOf(dayForms, day)[k]
  {
    dayForms[day := FormOf(dayForms, day)[key := value]]
  }

  /** Editing a field twice keeps only the second value, and the saved form then holds it. */
  lemma UpdateDayFieldLastWins(dayForms: map<string, Fields>, day: string, key: string, v1: Field, v2: Field)
    ensures UpdateDayField(UpdateDayField(dayForms, day, key, v1), day, key, v2) == UpdateDayField(dayForms, day, key, v2)
    ensures FormOf(UpdateDayField(dayForms, day, key, v2), day)[key] == v2
  {
    var base := FormOf(dayForms, day);
    assert FormOf(UpdateDayField(dayForms, day, key, v1), day) == base[key := v1];
    assert base[key := v1][key := v2] == base[key := v2];
    assert dayForms[day := base[key := v1]][day := base[key := v2]] == dayForms[day := base[key := v2]];
  }

  /** `{ ...emptyDayForm, ...content }`. */
  function DayForm(content: Fields): (r: Fields)
    ensures r.Keys == EmptyDayForm.Keys + content.Keys
    ensures forall k :: k in content ==> r[k] == content[k]
    ensures forall k :: k in EmptyDayForm && k !in content ==> r[k] == EmptyDayForm[k]
  {
    Merge(EmptyDayForm, content)
  }

  /** The `reduce` of `loadUserData`: each day's path to its form. `content` is what the
      day-content request answered for a path. */
  function FormMap(days: seq<ValentineDay>, content: string -> Fields, acc: map<string, Fields>): map<string, Fields> {
    if days == [] then acc
    else FormMap(days[1..], content, acc[days[0].path := DayForm(content(days[0].path))])
  }

  /** The forms `loadUserData` stores. */
  function LoadedForms(content: string -> Fields): map<string, Fields> {
    FormMap(Days, content, map[])
  }

  lemma {:induction false} FormMapShape(days: seq<ValentineDay>, content: string -> Fields, acc: map<string, Fields>)
    ensures FormMap(days, content, acc).Keys == acc.Keys + PathSet(days)
    ensures forall p :: p in PathSet(days) ==> FormMap(days, content, acc)[p] == DayForm(content(p))
    ensures forall p :: p in acc && p !in PathSet(days) ==> FormMap(days, content, acc)[p] == acc[p]
  {
    if days != [] {
      PathSetCons(days);
      FormMapShape(days[1..], content, acc[days[0].path := DayForm(content(days[0].path))]);
    }
  }

  /** After loading, there is a form for exactly the eight day paths. */
  lemma LoadedFormsShape(content: string -> Fields)
    ensures LoadedForms(content).Keys == DayMap().Keys
    ensures |LoadedForms(content)| == 8
  {
    FormMapKeys(Days, content);
    DayMapKeys();
  }

  /** A fold from no forms has one form per distinct path of the table. */
  lemma FormMapKeys(days: seq<ValentineDay>, content: string -> Fields)
    ensures FormMap(days, content, map[]).Keys == PathSet(days)
    ensures |FormMap(days, content, map[])| == |PathSet(days)|
  {
    FormMapShape(days, content, map[]);
    assert FormMap(days, content, map[]).Keys == PathSet(days);
  }

  /** Each loaded form is the empty form overlaid with the content fetched for its day. */
  lemma LoadedFormsContent(content: string -> Fields, p: string)
    requires p in LoadedForms(content)
    ensures LoadedForms(content)[p] == DayForm(content(p))
  {
    FormMapShape(Days, content, map[]);
  }

  /** The days with a form after loading are exactly the valid day paths. */
  lemma LoadedFormsAreValidDays(content: string -> Fields, p: string)
    ensures p in LoadedForms(content) <==> p in ValidDayPaths()
  {
    LoadedFormsShape(content);
    ValidPathsAreKeys(p);
  }

  /** Overlaying nothing leaves the empty form. */
  lemma DayFormOfNothing()
    ensures DayForm(map[]) == EmptyDayForm
  {
  }

  /** A day with no saved content loads as the empty form. */
  lemma EmptyContentLoadsEmptyForm(content: string -> Fields, i: nat)
    requires i < |Days|
    requires content(Days[i].path) == map[]
    ensures Days[i].path in LoadedForms(content)
    ensures LoadedForms(content)[Days[i].path] == EmptyDayForm
  {
    FormMapShape(Days, content, map[]);
    assert Days[i].path in PathSet(Days);
    DayFormOfNothing();
  }

  /** Previewing the empty form shows the day's defaults: its greeting, the profile's or the
      day's message, the `Yes! 💕` button and no song. */
  lemma EmptyFormShowsDefaults(profile: Fields, day: ValentineDay, watchId: string -> string)
    ensures ValentinePage.DisplayTitle(EmptyDayForm, day) == FStr("Happy " + day.name + "!")
    ensures ValentinePage.DisplayMessage(EmptyDayForm, profile, day) == FieldOr(profile, "message", FStr(day.message))
    ensures ValentinePage.DisplayCta(EmptyDayForm) == FStr("Yes! 💕")
    ensures ValentinePage.SongEmbed(EmptyDayForm, watchId) == ""
  {
  }

  /** `handleLogoClick`'s counter: the click that finds it at 4 unlocks and resets it. */
  function NextClicks(clicks: nat): (r: nat)
    ensures r == 0 <==> clicks == 4
    ensures clicks <= 4 ==> r <= 4
  {
    if clicks == 4 then 0 else clicks + 1
  }

  function ClicksAfter(n: nat): nat {
    if n == 0 then 0 else NextClicks(ClicksAfter(n - 1))
  }

  /** From a fresh dashboard the counter cycles through 0..4: after `n` clicks it reads
      `n % 5`, so every fifth click is an unlocking one. */
  lemma {:induction false} ClicksCycle(n: nat)
    ensures ClicksAfter(n) == n % 5
    ensures n > 0 ==> (ClicksAfter(n - 1) == 4 <==> n % 5 == 0)
  {
    if n > 0 {
      ClicksCycle(n - 1);
    }
  }

  /** The dashboard's state: photos and content forms per day, and the logo counter. */
  class DashboardState {
    var dayPhotos: map<string, seq<Photo>>
    var dayForms: map<string, Fields>
    var heartClicks: nat

    constructor()
      ensures dayPhotos == map[] && dayForms == map[] && heartClicks == 0
    {
      dayPhotos := map[];
      dayForms := map[];
      heartClicks := 0;
    }

    /** `loadUserData`: the public profile's photo lists when it was found, and a form for
        every day. Nothing happens without a user name. */
    method LoadUserData(username: string, profile: Option<Server.PublicView>, content: string -> Fields)
      modifies this
      ensures username == "" ==> dayPhotos == old(dayPhotos) && dayForms == old(dayForms)
      ensures username != "" ==>
        && dayPhotos == (if profile.Some? then profile.value.photos else old(dayPhotos))
        && dayForms == LoadedForms(content)
      ensures heartClicks == old(heartClicks)
    {
      if username == "" {
        return;
      }
      if profile.Some? {
        dayPhotos := profile.value.photos;
      }
      dayForms := LoadedForms(content);
    }

    /** `handleImageUpload`: when the day has room, the first `6 - count` selected files are
        uploaded one after another and each returned photo is appended to that day's list.
        Other days are untouched, and a day that had room ends with at most six photos. */
    method HandleImageUpload(day: string, files: seq<Server.FileInput>,
                             upload: (nat, Server.FileInput) -> Option<Photo>)
      returns (attempted: nat)
      modifies this
      ensures attempted == UploadCount(|files|, |PhotosOf(old(dayPhotos), day)|)
      ensures var added := Uploaded(files[..attempted], upload);
        && (added == [] ==> dayPhotos == old(dayPhotos))
        && (added != [] ==> dayPhotos == old(dayPhotos)[day := PhotosOf(old(dayPhotos), day) + added])
      ensures |PhotosOf(old(dayPhotos), day)| < MaxPhotos ==> |PhotosOf(dayPhotos, day)| <= MaxPhotos
      ensures |PhotosOf(old(dayPhotos), day)| >= MaxPhotos ==> dayPhotos == old(dayPhotos)
      ensures dayForms == old(dayForms) && heartClicks == old(heartClicks)
    {
      var count := |PhotosOf(dayPhotos, day)|;
      if |files| == 0 || count >= MaxPhotos {
        return 0;
      }
      attempted := UploadCount(|files|, count);
      var toUpload := files[..attempted];
      for i := 0 to |toUpload|
        invariant var added := Uploaded(toUpload[..i], upload);
          && (added == [] ==> dayPhotos == old(dayPhotos))
          && (added != [] ==> dayPhotos == old(dayPhotos)[day := PhotosOf(old(dayPhotos), day) + added])
        invariant dayForms == old(dayForms) && heartClicks == old(heartClicks)
      {
        var result := upload(i, toUpload[i]);
        assert toUpload[..i + 1][..i] == toUpload[..i];
        ghost var added := Uploaded(toUpload[..i], upload);
        assert toUpload[..i + 1][i] == toUpload[i];
        assert Uploaded(toUpload[..i + 1], upload) == added + (if result.Some? then [result.value] else []);
        if result.Some? {
          ghost var before := PhotosOf(old(dayPhotos), day);
          ghost var prev := dayPhotos;
          assert PhotosOf(prev, day) == before + added;
          dayPhotos := dayPhotos[day := PhotosOf(dayPhotos, day) + [result.value]];
          assert (before + added) + [result.value] == before + (added + [result.value]);
          assert prev[day := before + (added + [result.value])] == old(dayPhotos)[day := before + (added + [result.value])];
          assert dayPhotos == old(dayPhotos)[day := before + Uploaded(toUpload[..i + 1], upload)];
        } else {
          assert Uploaded(toUpload[..i + 1], upload) == added;
        }
      }
      assert toUpload[..|toUpload|] == toUpload;
    }

    /** `handleLogoClick`: true when this click unlocks the secret mode. */
    method HandleLogoClick() returns (unlocked: bool)
      modifies this
      ensures unlocked <==> old(heartClicks) == 4
      ensures heartClicks == NextClicks(old(heartClicks))
      ensures old(heartClicks) <= 4 ==> heartClicks <= 4
      ensures dayPhotos == old(dayPhotos) && dayForms == old(dayForms)
    {
      var before := heartClicks;
      heartClicks := heartClicks + 1;
      unlocked := before == 4;
      if unlocked {
        heartClicks := 0;
      }
    }
  }
}
