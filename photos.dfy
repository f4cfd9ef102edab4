/** A day's photo list as the server stores it and the dashboard keeps it: records in
    upload order, filtered by id on deletion, and re-signed on every public read. */
module Photos {
  import opened Optional

  /** `{ id, path, url, uploadedAt }`: `id` is the upload's millisecond timestamp and
      `url` the signed URL issued at upload, `null` when signing failed. */
  datatype Photo = Photo(id: int, path: string, url: Option<string>, uploadedAt: string)

  /** `photos.filter(p => p.id !== id)`. */
  function WithoutId(photos: seq<Photo>, id: int): (r: seq<Photo>)
    ensures |r| <= |photos|
    ensures forall p :: multiset(r)[p] == if p.id == id then 0 else multiset(photos)[p]
  {
    if photos == [] then []
    else
      assert photos == [photos[0]] + photos[1..];
      if photos[0].id == id then WithoutId(photos[1..], id)
      else [photos[0]] + WithoutId(photos[1..], id)
  }

  /** Filtering works piece by piece, so the records that stay keep their order. */
  lemma {:induction false} WithoutIdConcat(a: seq<Photo>, b: seq<Photo>, id: int)
    ensures WithoutId(a + b, id) == WithoutId(a, id) + WithoutId(b, id)
  {
    if a == [] {
      assert a + b == b;
    } else {
      assert (a + b)[0] == a[0] && (a + b)[1..] == a[1..] + b;
      WithoutIdConcat(a[1..], b, id);
    }
  }

  /** A list without the id is left as it is. */
  lemma {:induction false} WithoutAbsentId(photos: seq<Photo>, id: int)
    requires forall i :: 0 <= i < |photos| ==> photos[i].id != id
    ensures WithoutId(photos, id) == photos
  {
    if photos != [] {
      WithoutAbsentId(photos[1..], id);
    }
  }

  /** `photos.find(p => p.id === id)`: the first record with the id, if any. */
  function FindById(photos: seq<Photo>, id: int): (r: Option<Photo>)
    ensures r.None? <==> forall i :: 0 <= i < |photos| ==> photos[i].id != id
    ensures r.Some? ==> exists i :: 0 <= i < |photos| && photos[i] == r.value && r.value.id == id
                                    && forall j :: 0 <= j < i ==> photos[j].id != id
  {
    if photos == [] then None
    else if photos[0].id == id then Some(photos[0])
    else
      var r := FindById(photos[1..], id);
      assert r.Some? ==> exists i :: 0 <= i < |photos[1..]| && photos[1..][i] == r.value && r.value.id == id
                                    && forall j :: 0 <= j < i ==> photos[1..][j].id != id;
      r
  }

  /** A record that is found is really removed: the list gets shorter. */
  lemma FoundIsRemoved(photos: seq<Photo>, id: int)
    requires FindById(photos, id).Some?
    ensures |WithoutId(photos, id)| < |photos|
  {
    var p := FindById(photos, id).value;
    assert multiset(WithoutId(photos, id))[p] == 0 < multiset(photos)[p];
    assert multiset(WithoutId(photos, id)) <= multiset(photos);
    assert multiset(WithoutId(photos, id)) != multiset(photos);
  }

  /** `{ ...photo, url: signedUrl || photo.url }`: a freshly issued URL replaces the stored
      one, which stays as the fallback when signing gave nothing. */
  function Refresh(p: Photo, signed: Option<string>): (r: Photo)
    ensures r.id == p.id && r.path == p.path && r.uploadedAt == p.uploadedAt
    ensures signed.Some? && signed.value != "" ==> r.url == signed
    ensures !(signed.Some? && signed.value != "") ==> r == p
  {
    if signed.Some? && signed.value != "" then p.(url := signed) else p
  }

  /** `Promise.all(photos.map(refresh))`: every record re-signed from its own path, in
      the same order. */
  function RefreshAll(photos: seq<Photo>, signer: string -> Option<string>): (r: seq<Photo>)
    ensures |r| == |photos|
    ensures forall i :: 0 <= i < |r| ==> r[i] == Refresh(photos[i], signer(photos[i].path))
  {
    seq(|photos|, i requires 0 <= i < |photos| => Refresh(photos[i], signer(photos[i].path)))
  }
}
