/**
 * The new-post screen's attachment rules: `filterMediaSelection` keeps at
 * most one video and four images from what the picker returned, and the
 * `canPickMore` / `canSubmit` button states. Whether a URI is a video is
 * decided by the content resolver, which is the parameter `isVideo`.
 */
module MediaSelection {
  import Text
  import opened Wrappers

  /** A content URI, by its string form. */
  type Uri = string

  const MAX_VIDEOS: nat := 1
  const MAX_IMAGES: nat := 4

  const BOTH_LIMITS: string := "動画は1つまで、画像は4枚まで選択できます。"
  const VIDEO_LIMIT: string := "動画は1つまで選択できます。"
  const IMAGE_LIMIT: string := "画像は4枚まで選択できます。"

  /** The videos of `uris`, in picker order. */
  function Videos(uris: seq<Uri>, isVideo: Uri -> bool): (r: seq<Uri>)
    ensures |r| <= |uris|
    ensures forall i :: 0 <= i < |r| ==> isVideo(r[i]) && r[i] in uris
  {
    if uris == [] then []
    else Videos(uris[..|uris| - 1], isVideo) + (if isVideo(uris[|uris| - 1]) then [uris[|uris| - 1]] else [])
  }

  /** The images (everything that is not a video) of `uris`, in picker order. */
  function Images(uris: seq<Uri>, isVideo: Uri -> bool): (r: seq<Uri>)
    ensures |r| <= |uris|
    ensures forall i :: 0 <= i < |r| ==> !isVideo(r[i]) && r[i] in uris
  {
    if uris == [] then []
    else Images(uris[..|uris| - 1], isVideo) + (if isVideo(uris[|uris| - 1]) then [] else [uris[|uris| - 1]])
  }

  /** Sorting a concatenation sorts each part: both lists keep the picker order. */
  lemma {:induction false} PartsAppend(a: seq<Uri>, b: seq<Uri>, isVideo: Uri -> bool)
    ensures Videos(a + b, isVideo) == Videos(a, isVideo) + Videos(b, isVideo)
    ensures Images(a + b, isVideo) == Images(a, isVideo) + Images(b, isVideo)
  {
    if b == [] {
      assert a + b == a;
    } else {
      var init := b[..|b| - 1];
      assert (a + b)[..|a + b| - 1] == a + init;
      PartsAppend(a, init, isVideo);
    }
  }

  /** A single picked URI goes to the list of its kind. */
  lemma PartsOfOne(u: Uri, isVideo: Uri -> bool)
    ensures Videos([u], isVideo) == if isVideo(u) then [u] else []
    ensures Images([u], isVideo) == if isVideo(u) then [] else [u]
  {
    assert [u][..0] == [];
  }

  /** Every URI goes to exactly one of the two lists. */
  lemma {:induction false} PartitionSizes(uris: seq<Uri>, isVideo: Uri -> bool)
    ensures |Videos(uris, isVideo)| + |Images(uris, isVideo)| == |uris|
    ensures forall u :: u in uris ==> u in Videos(uris, isVideo) || u in Images(uris, isVideo)
  {
    if uris != [] {
      var init := uris[..|uris| - 1];
      PartitionSizes(init, isVideo);
      assert uris == init + [uris[|uris| - 1]];
    }
  }

  /** `take(n)`. */
  function Take(s: seq<Uri>, n: nat): (r: seq<Uri>)
    ensures |r| == if |s| < n then |s| else n
    ensures r == s[..|r|]
  {
    if |s| <= n then s else s[..n]
  }

  /** No URI occurs twice. */
  predicate NoDuplicates(s: seq<Uri>) {
    forall i, j :: 0 <= i < j < |s| ==> s[i] != s[j]
  }

  /** The index of the first occurrence of `u` in `s`. */
  function FirstIndex(s: seq<Uri>, u: Uri): (k: nat)
    requires u in s
    ensures k < |s| && s[k] == u
    ensures forall i :: 0 <= i < k ==> s[i] != u
  {
    if s[0] == u then 0 else 1 + FirstIndex(s[1..], u)
  }

  /** `distinct()`: the first occurrence of each URI, in order. */
  function Distinct(s: seq<Uri>): (r: seq<Uri>)
    ensures |r| <= |s|
    ensures forall u :: u in r <==> u in s
    ensures NoDuplicates(r)
  {
    if s == [] then []
    else
      var init := s[..|s| - 1];
      var last := s[|s| - 1];
      if last in init then Distinct(init) else Distinct(init) + [last]
  }

  /** A list without repeats is its own `distinct()`. */
  lemma {:induction false} DistinctOfNoDuplicates(s: seq<Uri>)
    requires NoDuplicates(s)
    ensures Distinct(s) == s
  {
    if s != [] {
      var init := s[..|s| - 1];
      assert NoDuplicates(init);
      DistinctOfNoDuplicates(init);
      assert s == init + [s[|s| - 1]];
    }
  }

  /**
   * `distinct()` keeps first occurrences in their order: the URIs of the
   * result appear in the order of their first index in the input.
   */
  lemma {:induction false} DistinctKeepsFirstOrder(s: seq<Uri>)
    ensures forall i, j :: 0 <= i < j < |Distinct(s)| ==> FirstIndex(s, Distinct(s)[i]) < FirstIndex(s, Distinct(s)[j])
  {
    if s != [] {
      var init := s[..|s| - 1];
      var last := s[|s| - 1];
      var d := Distinct(init);
      DistinctKeepsFirstOrder(init);
      forall u | u in init
        ensures FirstIndex(s, u) == FirstIndex(init, u)
      {
        FirstIndexOfPrefix(init, [last], u);
        assert init + [last] == s;
      }
      if last !in init {
        assert FirstIndex(s, last) == |s| - 1;
      }
    }
  }

  /** The first occurrence of a URI in `a` is its first occurrence in `a + b`. */
  lemma FirstIndexOfPrefix(a: seq<Uri>, b: seq<Uri>, u: Uri)
    requires u in a
    ensures FirstIndex(a + b, u) == FirstIndex(a, u)
  {
    var k := FirstIndex(a, u);
    var m := FirstIndex(a + b, u);
    assert (a + b)[k] == u;
  }

  /** `distinct()` of two URI lists with nothing in common is the two `distinct()`s side by side. */
  lemma {:induction false} DistinctDisjointAppend(a: seq<Uri>, b: seq<Uri>)
    requires forall u :: u in a ==> u !in b
    ensures Distinct(a + b) == Distinct(a) + Distinct(b)
  {
    if b == [] {
      assert a + b == a;
    } else {
      var init := b[..|b| - 1];
      var last := b[|b| - 1];
      assert (a + b)[..|a + b| - 1] == a + init;
      assert (a + b)[|a + b| - 1] == last;
      DistinctDisjointAppend(a, init);
      assert last in a + init <==> last in init;
    }
  }

  /** The warning shown after picking `videoCount` videos and `imageCount` images. */
  function Warning(videoCount: nat, imageCount: nat): (message: Option<string>)
    ensures message.None? <==> videoCount <= MAX_VIDEOS && imageCount <= MAX_IMAGES
    ensures message == Some(BOTH_LIMITS) <==> videoCount > MAX_VIDEOS && imageCount > MAX_IMAGES
    ensures message == Some(VIDEO_LIMIT) <==> videoCount > MAX_VIDEOS && imageCount <= MAX_IMAGES
    ensures message == Some(IMAGE_LIMIT) <==> videoCount <= MAX_VIDEOS && imageCount > MAX_IMAGES
  {
    if videoCount > 1 && imageCount > 4 then Some(BOTH_LIMITS)
    else if videoCount > 1 then Some(VIDEO_LIMIT)
    else if imageCount > 4 then Some(IMAGE_LIMIT)
    else None
  }

  /** What `filterMediaSelection` keeps of `uris`. */
  function Selection(uris: seq<Uri>, isVideo: Uri -> bool): seq<Uri> {
    Distinct(Take(Videos(uris, isVideo), MAX_VIDEOS) + Take(Images(uris, isVideo), MAX_IMAGES))
  }

  /**
   * `filterMediaSelection`: sorts the picked URIs into videos and images,
   * keeps the first video and the first four images, drops repeats, and
   * says which limit, if any, was exceeded.
   */
  method FilterMediaSelection(uris: seq<Uri>, isVideo: Uri -> bool) returns (filtered: seq<Uri>, message: Option<string>)
    ensures filtered == Selection(uris, isVideo)
    ensures message == Warning(|Videos(uris, isVideo)|, |Images(uris, isVideo)|)
  {
    var videos: seq<Uri> := [];
    var images: seq<Uri> := [];
    for i := 0 to |uris|
      invariant videos == Videos(uris[..i], isVideo)
      invariant images == Images(uris[..i], isVideo)
    {
      assert uris[..i + 1][..i] == uris[..i];
      if isVideo(uris[i]) {
        videos := videos + [uris[i]];
      } else {
        images := images + [uris[i]];
      }
    }
    assert uris[..|uris|] == uris;
    var limitedVideos := Take(videos, 1);
    var limitedImages := Take(images, 4);
    filtered := Distinct(limitedVideos + limitedImages);
    if |videos| > 1 && |images| > 4 {
      message := Some(BOTH_LIMITS);
    } else if |videos| > 1 {
      message := Some(VIDEO_LIMIT);
    } else if |images| > 4 {
      message := Some(IMAGE_LIMIT);
    } else {
      message := None;
    }
  }

  /** What is taken from the video part are picked videos; from the image part, picked images. */
  lemma TakenKinds(uris: seq<Uri>, isVideo: Uri -> bool, nv: nat, ni: nat)
    ensures forall u :: u in Take(Videos(uris, isVideo), nv) ==> isVideo(u) && u in uris
    ensures forall u :: u in Take(Images(uris, isVideo), ni) ==> !isVideo(u) && u in uris
  {
    var vs := Videos(uris, isVideo);
    var tv := Take(vs, nv);
    forall u | u in tv
      ensures isVideo(u) && u in uris
    {
      var j :| 0 <= j < |tv| && tv[j] == u;
      assert tv[j] == vs[j];
    }
    var ims := Images(uris, isVideo);
    var ti := Take(ims, ni);
    forall u | u in ti
      ensures !isVideo(u) && u in uris
    {
      var j :| 0 <= j < |ti| && ti[j] == u;
      assert ti[j] == ims[j];
    }
  }

  /** The selection is the first video, if any, followed by the first four distinct images. */
  lemma SelectionParts(uris: seq<Uri>, isVideo: Uri -> bool)
    ensures Selection(uris, isVideo) ==
              Take(Videos(uris, isVideo), MAX_VIDEOS) + Distinct(Take(Images(uris, isVideo), MAX_IMAGES))
  {
    var tv := Take(Videos(uris, isVideo), MAX_VIDEOS);
    var ti := Take(Images(uris, isVideo), MAX_IMAGES);
    TakenKinds(uris, isVideo, MAX_VIDEOS, MAX_IMAGES);
    DistinctDisjointAppend(tv, ti);
    if |tv| == 1 {
      assert tv[..0] == [];
    }
  }

  /** The video kept is the first video picked, and everything before it was an image. */
  lemma FirstVideoKept(uris: seq<Uri>, isVideo: Uri -> bool, k: nat)
    requires k < |uris| && isVideo(uris[k])
    requires forall i :: 0 <= i < k ==> !isVideo(uris[i])
    ensures Take(Videos(uris, isVideo), MAX_VIDEOS) == [uris[k]]
  {
    SkipImages(uris, isVideo, k);
    VideoAtFront(uris[k..], isVideo);
  }

  /** Images picked before any video contribute nothing to the video part. */
  lemma SkipImages(uris: seq<Uri>, isVideo: Uri -> bool, k: nat)
    requires k <= |uris|
    requires forall i :: 0 <= i < k ==> !isVideo(uris[i])
    ensures Videos(uris, isVideo) == Videos(uris[k..], isVideo)
  {
    var before, after := uris[..k], uris[k..];
    NoVideos(before, isVideo);
    PartsAppend(before, after, isVideo);
    assert Videos(before + after, isVideo) == Videos(after, isVideo);
    assert before + after == uris;
  }

  /** Picks that start with a video have that video first in their video part. */
  lemma VideoAtFront(s: seq<Uri>, isVideo: Uri -> bool)
    requires |s| > 0 && isVideo(s[0])
    ensures |Videos(s, isVideo)| > 0 && Videos(s, isVideo)[0] == s[0]
  {
    assert s == [s[0]] + s[1..];
    PartsAppend([s[0]], s[1..], isVideo);
    PartsOfOne(s[0], isVideo);
  }

  /** A list holding no video has an empty video part. */
  lemma {:induction false} NoVideos(s: seq<Uri>, isVideo: Uri -> bool)
    requires forall i :: 0 <= i < |s| ==> !isVideo(s[i])
    ensures Videos(s, isVideo) == []
  {
    if s != [] {
      NoVideos(s[..|s| - 1], isVideo);
    }
  }

  /**
   * The images kept are the first ones picked: the images among any prefix
   * of the picks holding at most four of them are kept, in picker order.
   */
  lemma FirstImagesKept(uris: seq<Uri>, isVideo: Uri -> bool, k: nat)
    requires k <= |uris| && |Images(uris[..k], isVideo)| <= MAX_IMAGES
    ensures Images(uris[..k], isVideo) <= Take(Images(uris, isVideo), MAX_IMAGES)
  {
    assert uris == uris[..k] + uris[k..];
    PartsAppend(uris[..k], uris[k..], isVideo);
  }

  /**
   * The selection is at most one video followed by at most four images, with
   * no URI repeated and nothing that was not picked.
   */
  lemma SelectionShape(uris: seq<Uri>, isVideo: Uri -> bool)
    ensures var r := Selection(uris, isVideo);
            var v := Take(Videos(uris, isVideo), MAX_VIDEOS);
            |v| <= MAX_VIDEOS && |r| - |v| <= MAX_IMAGES && r[..|v|] == v &&
            (forall i :: 0 <= i < |v| ==> isVideo(r[i])) &&
            (forall i :: |v| <= i < |r| ==> !isVideo(r[i]))
    ensures NoDuplicates(Selection(uris, isVideo))
    ensures forall u :: u in Selection(uris, isVideo) ==> u in uris
  {
    var v := Take(Videos(uris, isVideo), MAX_VIDEOS);
    var ti := Take(Images(uris, isVideo), MAX_IMAGES);
    var di := Distinct(ti);
    var r := Selection(uris, isVideo);
    TakenKinds(uris, isVideo, MAX_VIDEOS, MAX_IMAGES);
    SelectionParts(uris, isVideo);
    assert r == v + di;
    forall i | 0 <= i < |v|
      ensures isVideo(r[i])
    {
      assert r[i] == v[i];
    }
    forall i | |v| <= i < |r|
      ensures !isVideo(r[i])
    {
      assert r[i] == di[i - |v|];
      assert r[i] in ti;
    }
  }

  /** When neither limit is exceeded nothing is dropped: every picked URI is kept, once. */
  lemma WithinLimitsKeepsEverything(uris: seq<Uri>, isVideo: Uri -> bool)
    requires |Videos(uris, isVideo)| <= MAX_VIDEOS && |Images(uris, isVideo)| <= MAX_IMAGES
    ensures forall u :: u in Selection(uris, isVideo) <==> u in uris
    ensures Warning(|Videos(uris, isVideo)|, |Images(uris, isVideo)|).None?
  {
    PartitionSizes(uris, isVideo);
    SelectionShape(uris, isVideo);
    assert Take(Videos(uris, isVideo), MAX_VIDEOS) == Videos(uris, isVideo);
    assert Take(Images(uris, isVideo), MAX_IMAGES) == Images(uris, isVideo);
  }

  /** `canPickMore`: the picker stays enabled while either kind has room left. */
  function CanPickMore(imageCount: nat, videoCount: nat): (b: bool)
    ensures !b <==> imageCount >= MAX_IMAGES && videoCount >= MAX_VIDEOS
  {
    imageCount < 4 || videoCount < 1
  }

  /** A full selection (one video and four images) disables the picker; any smaller one does not. */
  lemma FullSelectionDisablesPicker(uris: seq<Uri>, isVideo: Uri -> bool)
    ensures var r := Selection(uris, isVideo);
            !CanPickMore(|Images(r, isVideo)|, |Videos(r, isVideo)|) <==>
              |Videos(r, isVideo)| == MAX_VIDEOS && |Images(r, isVideo)| == MAX_IMAGES
  {
    var r := Selection(uris, isVideo);
    SelectionShape(uris, isVideo);
    var v := Take(Videos(uris, isVideo), MAX_VIDEOS);
    assert r == v + r[|v|..];
    VideosOfSplit(v, r[|v|..], isVideo);
    PartitionSizes(r, isVideo);
  }

  /** Counting videos and images of a selection split at its last video. */
  lemma {:induction false} VideosOfSplit(v: seq<Uri>, rest: seq<Uri>, isVideo: Uri -> bool)
    requires forall i :: 0 <= i < |v| ==> isVideo(v[i])
    requires forall i :: 0 <= i < |rest| ==> !isVideo(rest[i])
    ensures |Videos(v + rest, isVideo)| == |v|
  {
    if rest == [] {
      assert v + rest == v;
      AllVideos(v, isVideo);
    } else {
      var init := rest[..|rest| - 1];
      assert (v + rest)[..|v + rest| - 1] == v + init;
      VideosOfSplit(v, init, isVideo);
    }
  }

  /** A list of videos only is its own video part. */
  lemma {:induction false} AllVideos(v: seq<Uri>, isVideo: Uri -> bool)
    requires forall i :: 0 <= i < |v| ==> isVideo(v[i])
    ensures Videos(v, isVideo) == v
  {
    if v != [] {
      AllVideos(v[..|v| - 1], isVideo);
    }
  }

  /** `canSubmit`: a post needs an attachment or some non-blank text. */
  function CanSubmit(mediaCount: nat, text: string): (b: bool)
    ensures b <==> mediaCount > 0 || Text.Trim(text) != []
  {
    mediaCount > 0 || !Text.IsBlank(text)
  }
}
