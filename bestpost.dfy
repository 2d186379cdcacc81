/**
 * The best-post screen, `BestPostViewModel`: the three posts of a fetched
 * page with the most likes, ranked by Kotlin's stable `sortedByDescending`
 * on the like count, and a like toggle that adjusts the count locally and
 * ranks again.
 */
module BestPosts {
  import opened Wrappers
  import opened Posts
  import Kotlin
  import Feed
  import Repo = PostRepository

  /** Like counts never increase along `s`. */
  predicate Descending(s: seq<Post>) {
    forall i, j :: 0 <= i < j < |s| ==> s[i].likeCount >= s[j].likeCount
  }

  /**
   * `x` inserted before the first entry of `s` whose count is not above its
   * own, so that it precedes the entries of equal count that follow it.
   */
  function Insert(x: Post, s: seq<Post>): (r: seq<Post>)
    ensures |r| == |s| + 1
    ensures r[0] == x || (|s| > 0 && r[0] == s[0])
    ensures multiset(r) == multiset(s) + multiset{x}
  {
    if s == [] then [x]
    else if s[0].likeCount <= x.likeCount then [x] + s
    else
      assert s == [s[0]] + s[1..];
      [s[0]] + Insert(x, s[1..])
  }

  /** Inserting into a list ranked by likes keeps it ranked. */
  lemma {:induction false} InsertDescending(x: Post, s: seq<Post>)
    requires Descending(s)
    ensures Descending(Insert(x, s))
  {
    if s != [] && s[0].likeCount > x.likeCount {
      var rest := Insert(x, s[1..]);
      InsertDescending(x, s[1..]);
      assert s[0].likeCount >= rest[0].likeCount;
      assert Insert(x, s) == [s[0]] + rest;
    }
  }

  /** `sortedByDescending { it.likeCount }`: a stable sort, most likes first. */
  function SortByLikes(s: seq<Post>): (r: seq<Post>)
    ensures multiset(r) == multiset(s)
    ensures |r| == |s|
    ensures Descending(r)
  {
    if s == [] then []
    else
      assert s == [s[0]] + s[1..];
      var sorted := SortByLikes(s[1..]);
      InsertDescending(s[0], sorted);
      Insert(s[0], sorted)
  }

  /** The entries of `s` with exactly `k` likes, in order. */
  function WithLikes(s: seq<Post>, k: int): (r: seq<Post>)
    ensures |r| <= |s|
  {
    if s == [] then []
    else if s[0].likeCount == k then [s[0]] + WithLikes(s[1..], k)
    else WithLikes(s[1..], k)
  }

  lemma {:induction false} InsertWithLikes(x: Post, s: seq<Post>, k: int)
    ensures WithLikes(Insert(x, s), k) == if x.likeCount == k then [x] + WithLikes(s, k) else WithLikes(s, k)
  {
    if s != [] && s[0].likeCount > x.likeCount {
      InsertWithLikes(x, s[1..], k);
      assert ([s[0]] + Insert(x, s[1..]))[1..] == Insert(x, s[1..]);
    } else if s != [] {
      assert ([x] + s)[1..] == s;
    }
  }

  /** The sort is stable: posts with the same count keep their relative order. */
  lemma {:induction false} SortIsStable(s: seq<Post>, k: int)
    ensures WithLikes(SortByLikes(s), k) == WithLikes(s, k)
  {
    if s != [] {
      SortIsStable(s[1..], k);
      InsertWithLikes(s[0], SortByLikes(s[1..]), k);
    }
  }

  /** Keeping the first entries keeps a prefix of each group of equal count. */
  lemma {:induction false} WithLikesOfPrefix(s: seq<Post>, n: nat, k: int)
    requires n <= |s|
    ensures WithLikes(s[..n], k) <= WithLikes(s, k)
  {
    if n > 0 {
      assert s[..n][1..] == s[1..][..n - 1];
      WithLikesOfPrefix(s[1..], n - 1, k);
    }
  }

  /** `sortedByDescending { it.likeCount }.take(3)`: the ranked page cut to three. */
  function TopThree(posts: seq<Post>): (r: seq<Post>)
    ensures |r| == if |posts| < 3 then |posts| else 3
    ensures Descending(r)
    ensures multiset(r) <= multiset(posts)
  {
    var sorted := SortByLikes(posts);
    if |sorted| <= 3 then sorted
    else
      assert sorted == sorted[..3] + sorted[3..];
      assert multiset(sorted) == multiset(sorted[..3]) + multiset(sorted[3..]);
      sorted[..3]
  }

  /** In a descending list, nothing after position `n` has more likes than anything before it. */
  lemma DescendingSplit(s: seq<Post>, n: nat)
    requires Descending(s) && n <= |s|
    ensures forall x, y :: x in s[n..] && y in s[..n] ==> x.likeCount <= y.likeCount
  {
    forall x, y | x in s[n..] && y in s[..n]
      ensures x.likeCount <= y.likeCount
    {
      var i :| 0 <= i < |s[n..]| && s[n..][i] == x;
      var j :| 0 <= j < |s[..n]| && s[..n][j] == y;
      assert s[n + i] == x && s[j] == y;
    }
  }

  /** No fetched post left out of the three has more likes than one shown. */
  lemma TopThreeDominates(posts: seq<Post>)
    ensures forall x, y :: x in multiset(posts) - multiset(TopThree(posts)) && y in TopThree(posts) ==>
      x.likeCount <= y.likeCount
  {
    var sorted := SortByLikes(posts);
    if |sorted| > 3 {
      assert sorted == sorted[..3] + sorted[3..];
      assert multiset(posts) - multiset(sorted[..3]) == multiset(sorted[3..]);
      DescendingSplit(sorted, 3);
    } else {
      assert multiset(posts) - multiset(sorted) == multiset{};
    }
  }

  /** Among the three shown, posts with the same count are the earliest such posts of the page, in page order. */
  lemma TopThreeKeepsTies(posts: seq<Post>, k: int)
    ensures WithLikes(TopThree(posts), k) <= WithLikes(posts, k)
  {
    var sorted := SortByLikes(posts);
    SortIsStable(posts, k);
    if |sorted| > 3 {
      WithLikesOfPrefix(sorted, 3, k);
    }
  }

  /**
   * The local effect of `toggleLike(post)` before ranking again: every post
   * with `post`'s id takes the opposite of `post`'s like state, and a count
   * one lower if `post` was liked and one higher otherwise (Kotlin `Int`
   * arithmetic, which wraps).
   */
  function Bump(posts: seq<Post>, post: Post): (r: seq<Post>)
    ensures |r| == |posts|
    ensures forall i :: 0 <= i < |posts| && posts[i].id != post.id ==> r[i] == posts[i]
    ensures forall i :: 0 <= i < |posts| && posts[i].id == post.id ==>
      r[i] == posts[i].(likeCount := Kotlin.ToInt32(posts[i].likeCount + (if post.isLiked then -1 else 1)),
                        isLiked := !post.isLiked)
    ensures forall i :: 0 <= i < |posts| ==> r[i].id == posts[i].id
  {
    seq(|posts|, i requires 0 <= i < |posts| =>
      if posts[i].id == post.id then
        posts[i].(likeCount := Kotlin.ToInt32(posts[i].likeCount + (if post.isLiked then -1 else 1)),
                  isLiked := !post.isLiked)
      else posts[i])
  }

  /** The list after a successful `toggleLike(post)`: adjusted, then ranked again. */
  function ToggledRanking(posts: seq<Post>, post: Post): (r: seq<Post>)
    ensures Descending(r)
  {
    SortByLikes(Bump(posts, post))
  }

  /**
   * Toggling a like re-ranks a permutation of the adjusted list: same
   * length, same ids, and the changed count moves by exactly one.
   */
  lemma ToggledRankingPermutes(posts: seq<Post>, post: Post)
    ensures multiset(ToggledRanking(posts, post)) == multiset(Bump(posts, post))
    ensures |ToggledRanking(posts, post)| == |posts|
    ensures Feed.Ids(ToggledRanking(posts, post)) == Feed.Ids(posts)
    ensures forall i :: 0 <= i < |posts| && posts[i].id == post.id && Kotlin.INT_MIN < posts[i].likeCount < Kotlin.INT_MAX ==>
      Bump(posts, post)[i].likeCount == posts[i].likeCount + (if post.isLiked then -1 else 1)
  {
    var bumped := Bump(posts, post);
    var r := ToggledRanking(posts, post);
    assert forall x :: x in r <==> x in bumped by {
      assert forall x :: x in r <==> x in multiset(r);
      assert forall x :: x in bumped <==> x in multiset(bumped);
    }
    forall id | id in Feed.Ids(r) ensures id in Feed.Ids(posts) {
      var x :| x in r && x.id == id;
      var i :| 0 <= i < |bumped| && bumped[i] == x;
      assert posts[i] in posts;
    }
    forall id | id in Feed.Ids(posts) ensures id in Feed.Ids(r) {
      var x :| x in posts && x.id == id;
      var i :| 0 <= i < |posts| && posts[i] == x;
      assert bumped[i] in bumped;
    }
  }

  // ---------------------------------------------------------------------------
  // The view model

  datatype BestPostUiState = BestPostUiState(
    posts: seq<Post>,
    isLoading: bool,
    isRefreshing: bool,
    error: Option<string>)

  const FETCH_FAILED: string := "投稿の取得に失敗しました: "
  const REFRESH_FAILED: string := "更新に失敗しました: "

  class BestPostViewModel {
    var uiState: BestPostUiState

    constructor ()
      ensures uiState == BestPostUiState([], false, false, None)
    {
      uiState := BestPostUiState([], false, false, None);
    }

    /**
     * `fetchBestPosts` up to the repository call (a first page of up to 100
     * posts): nothing while loading; otherwise loading without an error.
     */
    method FetchBestPosts() returns (launched: bool)
      modifies this
      ensures launched == !old(uiState.isLoading)
      ensures !launched ==> uiState == old(uiState)
      ensures launched ==> uiState == old(uiState).(isLoading := true, error := None)
    {
      if uiState.isLoading {
        return false;
      }
      uiState := uiState.(isLoading := true, error := None);
      launched := true;
    }

    /** The rest of `fetchBestPosts`: the top three of the page, or the error with the old posts kept. */
    method CompleteFetchBestPosts(outcome: Outcome<Repo.FetchPostsResult>)
      modifies this
      ensures outcome.Ok? ==> uiState == old(uiState).(posts := TopThree(outcome.value.posts), isLoading := false, error := None)
      ensures outcome.Err? ==> uiState == old(uiState).(isLoading := false, error := Some(FETCH_FAILED + MessageText(outcome.error)))
    {
      match outcome {
        case Ok(result) =>
          var bestPosts := TopThree(result.posts);
          uiState := uiState.(posts := bestPosts, isLoading := false, error := None);
        case Err(message) =>
          uiState := uiState.(isLoading := false, error := Some(FETCH_FAILED + MessageText(message)));
      }
    }

    /** `refreshBestPosts` up to the repository call; there is no guard. */
    method RefreshBestPosts()
      modifies this
      ensures uiState == old(uiState).(isRefreshing := true, error := None)
    {
      uiState := uiState.(isRefreshing := true, error := None);
    }

    /** The rest of `refreshBestPosts`. */
    method CompleteRefreshBestPosts(outcome: Outcome<Repo.FetchPostsResult>)
      modifies this
      ensures outcome.Ok? ==> uiState == old(uiState).(posts := TopThree(outcome.value.posts), isRefreshing := false, error := None)
      ensures outcome.Err? ==> uiState == old(uiState).(isRefreshing := false, error := Some(REFRESH_FAILED + MessageText(outcome.error)))
    {
      match outcome {
        case Ok(result) =>
          var bestPosts := TopThree(result.posts);
          uiState := uiState.(posts := bestPosts, isRefreshing := false, error := None);
        case Err(message) =>
          uiState := uiState.(isRefreshing := false, error := Some(REFRESH_FAILED + MessageText(message)));
      }
    }

    /**
     * `toggleLike(post)`, with the signed-in user's id and the outcome of the
     * repository call (whose count is not used): once the call succeeds the
     * list is adjusted locally and ranked again; nothing changes otherwise.
     */
    method ToggleLike(uid: Option<string>, post: Post, outcome: Outcome<int>)
      modifies this
      ensures uid.None? || outcome.Err? ==> uiState == old(uiState)
      ensures uid.Some? && outcome.Ok? ==> uiState == old(uiState).(posts := ToggledRanking(old(uiState.posts), post))
    {
      if uid.None? {
        return;
      }
      if outcome.Ok? {
        var updatedPosts := ToggledRanking(uiState.posts, post);
        uiState := uiState.(posts := updatedPosts);
      }
    }
  }
}
