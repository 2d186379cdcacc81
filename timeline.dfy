/**
 * The timeline screen's state holder, `TimelineViewModel`: a newest-first
 * list of posts fed by paginated fetches, pull-to-refresh and a live
 * listener, with a buffer of live posts held back while the viewer is
 * scrolled away from the top, a category filter and like toggling.
 *
 * The pure part states each operation as a transition of `TimelineState`;
 * the class `TimelineViewModel` performs the same updates on its fields.
 * An operation that suspends (a fetch, a refresh) is split into the part
 * before the suspension and its completion, with the repository's answer
 * as an input of the completion; other operations may run in between.
 */
module Timeline {
  import opened Wrappers
  import opened Posts
  import opened Feed
  import Tags
  import Filters
  import Repo = PostRepository

  /** `TimelineUiState`, the state the screen observes. */
  datatype TimelineUiState = TimelineUiState(
    posts: seq<Post>,
    isLoading: bool,
    isRefreshing: bool,
    selectedFilter: Filters.TimelineFilter,
    newBadgeCount: int,
    error: Option<string>)

  /** The whole state of the view model: the observed state and its private fields. */
  datatype TimelineState = TimelineState(
    ui: TimelineUiState,
    lastSnapshot: Option<Repo.PostDoc>,
    pendingPosts: seq<Post>,
    isAtTop: bool,
    currentRoomId: Option<string>)

  const FETCH_FAILED: string := "投稿の取得に失敗しました: "
  const REFRESH_FAILED: string := "更新に失敗しました: "
  const LISTENER_FAILED: string := "リアルタイム更新エラー: "

  /**
   * The invariant the view model keeps: the badge shows the size of the
   * buffer, and nothing is buffered while the viewer is at the top.
   */
  predicate Valid(s: TimelineState) {
    s.ui.newBadgeCount == |s.pendingPosts| && (s.isAtTop ==> s.pendingPosts == [])
  }

  /** The state of a new view model. */
  function Initial(): (s: TimelineState)
    ensures Valid(s) && s.ui.posts == [] && s.isAtTop && s.ui.selectedFilter == Filters.ALL
  {
    TimelineState(TimelineUiState([], false, false, Filters.ALL, 0, None), None, [], true, None)
  }

  // ---------------------------------------------------------------------------
  // Transitions

  /**
   * `fetchPosts(reset)` up to the repository call: nothing while a fetch is
   * loading; otherwise loading, no error, and the cursor dropped on a reset.
   */
  function StartFetch(s: TimelineState, reset: bool): (t: TimelineState)
    ensures s.ui.isLoading ==> t == s
    ensures !s.ui.isLoading ==> t.ui == s.ui.(isLoading := true, error := None)
    ensures !s.ui.isLoading ==> t.lastSnapshot == (if reset then None else s.lastSnapshot)
    ensures t.pendingPosts == s.pendingPosts && t.isAtTop == s.isAtTop && t.currentRoomId == s.currentRoomId
  {
    if s.ui.isLoading then s
    else
      var t := s.(ui := s.ui.(isLoading := true, error := None));
      if reset then t.(lastSnapshot := None) else t
  }

  /** The cursor a started fetch passes to the repository: none on a reset. */
  function FetchCursor(s: TimelineState, reset: bool): (c: Option<Repo.PostDoc>)
    ensures reset ==> c.None?
    ensures !reset ==> c == s.lastSnapshot
  {
    if reset then None else s.lastSnapshot
  }

  /** The list after a page arrives: the page on a reset, otherwise the page appended and deduplicated. */
  function MergePage(posts: seq<Post>, page: seq<Post>, reset: bool): (r: seq<Post>)
    ensures reset ==> r == page
    ensures !reset ==> UniqueIds(r) && Ids(r) == Ids(posts) + Ids(page)
  {
    IdsAppend(posts, page);
    if reset then page else DistinctById(posts + page)
  }

  /**
   * The completion of `fetchPosts(roomId, reset)`: on success the page is
   * merged, the cursor moves to the page's last document and the room is
   * remembered; on failure the posts stay and the error is shown.
   * Loading ends either way.
   */
  function CompleteFetch(s: TimelineState, roomId: string, reset: bool, outcome: Outcome<Repo.FetchPostsResult>): (t: TimelineState)
    ensures t.pendingPosts == s.pendingPosts && t.isAtTop == s.isAtTop
    ensures !t.ui.isLoading && t.ui.newBadgeCount == s.ui.newBadgeCount
    ensures outcome.Ok? ==> t.ui.posts == MergePage(s.ui.posts, outcome.value.posts, reset)
    ensures outcome.Ok? ==> t.ui.error.None? && t.lastSnapshot == outcome.value.lastSnapshot && t.currentRoomId == Some(roomId)
    ensures outcome.Err? ==> t.ui.posts == s.ui.posts && t.ui.error == Some(FETCH_FAILED + MessageText(outcome.error))
    ensures outcome.Err? ==> t.lastSnapshot == s.lastSnapshot && t.currentRoomId == s.currentRoomId
    ensures t.ui.(posts := s.ui.posts, isLoading := s.ui.isLoading, error := s.ui.error) == s.ui
  {
    match outcome
    case Ok(result) =>
      s.(ui := s.ui.(posts := MergePage(s.ui.posts, result.posts, reset), isLoading := false, error := None),
         lastSnapshot := result.lastSnapshot,
         currentRoomId := Some(roomId))
    case Err(message) =>
      s.(ui := s.ui.(isLoading := false, error := Some(FETCH_FAILED + MessageText(message))))
  }

  /** `refreshHead` up to the repository call: refreshing, no error. */
  function StartRefresh(s: TimelineState): (t: TimelineState)
    ensures t.ui == s.ui.(isRefreshing := true, error := None)
    ensures t.(ui := s.ui) == s
  {
    s.(ui := s.ui.(isRefreshing := true, error := None))
  }

  /**
   * The completion of `refreshHead`: on success the first page replaces the
   * list, the buffer and the badge are cleared and the cursor moves; on
   * failure the posts stay and the error is shown.
   */
  function CompleteRefresh(s: TimelineState, outcome: Outcome<Repo.FetchPostsResult>): (t: TimelineState)
    ensures !t.ui.isRefreshing && t.isAtTop == s.isAtTop && t.ui.isLoading == s.ui.isLoading
    ensures outcome.Ok? ==> t.ui.posts == outcome.value.posts && t.pendingPosts == [] && t.ui.newBadgeCount == 0
    ensures outcome.Ok? ==> t.ui.error.None? && t.lastSnapshot == outcome.value.lastSnapshot
    ensures outcome.Err? ==> t.ui.posts == s.ui.posts && t.pendingPosts == s.pendingPosts
    ensures outcome.Err? ==> t.ui.newBadgeCount == s.ui.newBadgeCount && t.lastSnapshot == s.lastSnapshot
    ensures outcome.Err? ==> t.ui.error == Some(REFRESH_FAILED + MessageText(outcome.error))
    ensures t.ui.(posts := s.ui.posts, isRefreshing := s.ui.isRefreshing, newBadgeCount := s.ui.newBadgeCount,
                  error := s.ui.error) == s.ui
    ensures t.currentRoomId == s.currentRoomId
  {
    match outcome
    case Ok(result) =>
      s.(ui := s.ui.(posts := result.posts, isRefreshing := false, newBadgeCount := 0, error := None),
         lastSnapshot := result.lastSnapshot,
         pendingPosts := [])
    case Err(message) =>
      s.(ui := s.ui.(isRefreshing := false, error := Some(REFRESH_FAILED + MessageText(message))))
  }

  /**
   * `handleNewPosts`: the posts of a live batch not yet in the list go to
   * the head of the list at the top, and otherwise to the head of the
   * buffer, whose size the badge then shows.
   */
  function MergeLiveBatch(s: TimelineState, latest: seq<Post>): (t: TimelineState)
    ensures t.isAtTop == s.isAtTop && t.lastSnapshot == s.lastSnapshot && t.currentRoomId == s.currentRoomId
    ensures s.isAtTop ==> t.pendingPosts == s.pendingPosts && t.ui.newBadgeCount == s.ui.newBadgeCount
    ensures !s.isAtTop ==> t.ui.posts == s.ui.posts
    ensures UniqueIds(s.pendingPosts) ==> UniqueIds(t.pendingPosts)
    ensures !s.isAtTop ==> Ids(t.pendingPosts) == Ids(s.pendingPosts) + (Ids(latest) - Ids(s.ui.posts))
    ensures s.isAtTop ==> Ids(t.ui.posts) == Ids(s.ui.posts) + Ids(latest)
    ensures NewPosts(latest, s.ui.posts) == [] ==> t == s
    ensures NewPosts(latest, s.ui.posts) != [] && !s.isAtTop ==>
              t.pendingPosts == DistinctById(NewPosts(latest, s.ui.posts) + s.pendingPosts) &&
              t.ui.newBadgeCount == |t.pendingPosts|
    ensures NewPosts(latest, s.ui.posts) != [] && s.isAtTop ==>
              t.ui.posts == DistinctById(NewPosts(latest, s.ui.posts) + s.ui.posts)
    ensures t.ui.(posts := s.ui.posts, newBadgeCount := s.ui.newBadgeCount) == s.ui
  {
    var newPosts := NewPosts(latest, s.ui.posts);
    IdsAppend(newPosts, s.ui.posts);
    IdsAppend(newPosts, s.pendingPosts);
    if newPosts == [] then s
    else if s.isAtTop then
      s.(ui := s.ui.(posts := DistinctById(newPosts + s.ui.posts)))
    else
      var pending := DistinctById(newPosts + s.pendingPosts);
      s.(pendingPosts := pending, ui := s.ui.(newBadgeCount := |pending|))
  }

  /** The listener's error: shown, nothing else changes. */
  function ShowListenerError(s: TimelineState, message: Option<string>): (t: TimelineState)
    ensures t.ui == s.ui.(error := Some(LISTENER_FAILED + MessageText(message)))
    ensures t.(ui := s.ui) == s
  {
    s.(ui := s.ui.(error := Some(LISTENER_FAILED + MessageText(message))))
  }

  /**
   * `revealPending`: nothing on an empty buffer; otherwise the buffered
   * posts go in front of the list, deduplicated, and buffer and badge are emptied.
   */
  function Reveal(s: TimelineState): (t: TimelineState)
    ensures s.pendingPosts == [] ==> t == s
    ensures s.pendingPosts != [] ==> t.pendingPosts == [] && t.ui.newBadgeCount == 0
    ensures s.pendingPosts != [] ==> UniqueIds(t.ui.posts) && Ids(t.ui.posts) == Ids(s.pendingPosts) + Ids(s.ui.posts)
    ensures s.pendingPosts != [] ==> t.ui.posts == DistinctById(s.pendingPosts + s.ui.posts)
    ensures t.isAtTop == s.isAtTop && t.lastSnapshot == s.lastSnapshot && t.currentRoomId == s.currentRoomId
    ensures t.ui.(posts := s.ui.posts, newBadgeCount := s.ui.newBadgeCount) == s.ui
  {
    IdsAppend(s.pendingPosts, s.ui.posts);
    if s.pendingPosts == [] then s
    else
      s.(ui := s.ui.(posts := DistinctById(s.pendingPosts + s.ui.posts), newBadgeCount := 0), pendingPosts := [])
  }

  /** `markAtTop(atTop)`: records the position, and arriving at the top reveals the buffer. */
  function ChangePosition(s: TimelineState, atTop: bool): (t: TimelineState)
    ensures t.isAtTop == atTop
    ensures atTop ==> t.pendingPosts == []
    ensures !atTop ==> t == s.(isAtTop := false)
    ensures atTop ==> t == Reveal(s.(isAtTop := true))
  {
    var t := s.(isAtTop := atTop);
    if atTop && t.pendingPosts != [] then Reveal(t) else t
  }

  /** `setFilter`. */
  function SelectFilter(s: TimelineState, f: Filters.TimelineFilter): (t: TimelineState)
    ensures t.ui.selectedFilter == f
    ensures t.(ui := t.ui.(selectedFilter := s.ui.selectedFilter)) == s
  {
    s.(ui := s.ui.(selectedFilter := f))
  }

  /** The posts that pass filter `f`, in list order. */
  function FilterPosts(posts: seq<Post>, f: Filters.TimelineFilter): (r: seq<Post>)
    ensures forall x :: x in r <==> x in posts && Filters.Matches(f, x.tag)
    ensures |r| <= |posts|
    ensures f == Filters.ALL ==> r == posts
  {
    if posts == [] then []
    else
      var rest := FilterPosts(posts[1..], f);
      assert posts == [posts[0]] + posts[1..];
      if Filters.Matches(f, posts[0].tag) then [posts[0]] + rest else rest
  }

  /** Filtering a concatenation filters each part: the kept posts keep their order. */
  lemma {:induction false} FilterPostsAppend(a: seq<Post>, b: seq<Post>, f: Filters.TimelineFilter)
    ensures FilterPosts(a + b, f) == FilterPosts(a, f) + FilterPosts(b, f)
  {
    if a == [] {
      assert a + b == b;
    } else {
      assert (a + b)[0] == a[0];
      assert (a + b)[1..] == a[1..] + b;
      FilterPostsAppend(a[1..], b, f);
    }
  }

  /** Every post with id `postId` takes the like state and the count the server returned. */
  function ApplyLike(posts: seq<Post>, postId: string, isLiked: bool, likeCount: int): (r: seq<Post>)
    ensures |r| == |posts|
    ensures forall i :: 0 <= i < |posts| && posts[i].id == postId ==>
      r[i] == posts[i].(isLiked := isLiked, likeCount := likeCount)
    ensures forall i :: 0 <= i < |posts| && posts[i].id != postId ==> r[i] == posts[i]
    ensures Ids(r) == Ids(posts)
  {
    var r := seq(|posts|, i requires 0 <= i < |posts| =>
      if posts[i].id == postId then posts[i].(isLiked := isLiked, likeCount := likeCount) else posts[i]);
    assert forall x :: x in r ==> exists i :: 0 <= i < |r| && r[i] == x;
    assert forall x :: x in posts ==> exists i :: 0 <= i < |posts| && posts[i] == x;
    assert forall i :: 0 <= i < |r| ==> r[i].id == posts[i].id;
    r
  }

  /**
   * `toggleLike(post)` with its outcome: nothing without a signed-in user
   * or when the repository fails; otherwise the posts with `post`'s id take
   * the opposite of `post`'s like state and the returned count.
   */
  function ApplyToggleLike(s: TimelineState, uid: Option<string>, post: Post, outcome: Outcome<int>): (t: TimelineState)
    ensures uid.None? || outcome.Err? ==> t == s
    ensures uid.Some? && outcome.Ok? ==> t == s.(ui := s.ui.(posts := ApplyLike(s.ui.posts, post.id, !post.isLiked, outcome.value)))
  {
    if uid.None? then s
    else match outcome
      case Ok(count) => s.(ui := s.ui.(posts := ApplyLike(s.ui.posts, post.id, !post.isLiked, count)))
      case Err(_) => s
  }

  // ---------------------------------------------------------------------------
  // Properties of the transitions

  /** Everything that can happen to the view model, one step at a time. */
  datatype Event =
    | FetchStarted(reset: bool)
    | FetchCompleted(roomId: string, fetchReset: bool, page: Outcome<Repo.FetchPostsResult>)
    | RefreshStarted
    | RefreshCompleted(head: Outcome<Repo.FetchPostsResult>)
    | LiveBatch(latest: seq<Post>)
    | ListenerFailed(message: Option<string>)
    | Revealed
    | PositionChanged(atTop: bool)
    | FilterSelected(filter: Filters.TimelineFilter)
    | LikeToggled(uid: Option<string>, post: Post, count: Outcome<int>)

  function Step(s: TimelineState, e: Event): TimelineState {
    match e
    case FetchStarted(reset) => StartFetch(s, reset)
    case FetchCompleted(roomId, reset, page) => CompleteFetch(s, roomId, reset, page)
    case RefreshStarted => StartRefresh(s)
    case RefreshCompleted(head) => CompleteRefresh(s, head)
    case LiveBatch(latest) => MergeLiveBatch(s, latest)
    case ListenerFailed(message) => ShowListenerError(s, message)
    case Revealed => Reveal(s)
    case PositionChanged(atTop) => ChangePosition(s, atTop)
    case FilterSelected(f) => SelectFilter(s, f)
    case LikeToggled(uid, post, count) => ApplyToggleLike(s, uid, post, count)
  }

  function Run(s: TimelineState, events: seq<Event>): TimelineState
    decreases |events|
  {
    if events == [] then s else Run(Step(s, events[0]), events[1..])
  }

  /** Every operation keeps the badge equal to the buffer size and the buffer empty at the top. */
  lemma StepKeepsValid(s: TimelineState, e: Event)
    requires Valid(s)
    ensures Valid(Step(s, e))
  {
  }

  /** Every state the view model reaches from a new one, whatever happens in whatever order, is valid. */
  lemma {:induction false} RunKeepsValid(s: TimelineState, events: seq<Event>)
    requires Valid(s)
    ensures Valid(Run(s, events))
    decreases |events|
  {
    if events != [] {
      StepKeepsValid(s, events[0]);
      RunKeepsValid(Step(s, events[0]), events[1..]);
    }
  }

  lemma ReachableIsValid(events: seq<Event>)
    ensures Valid(Run(Initial(), events))
  {
    RunKeepsValid(Initial(), events);
  }

  /** Neither the list nor the buffer holds two posts with the same id. */
  predicate ListsUnique(s: TimelineState) {
    UniqueIds(s.ui.posts) && UniqueIds(s.pendingPosts)
  }

  /**
   * The repository's side of uniqueness: a page that replaces the list (a
   * reset fetch or a refreshed head) has no repeated id. Appended pages and
   * live batches need nothing, since they go through `distinctBy`.
   */
  predicate UniquePage(e: Event) {
    match e
    case FetchCompleted(_, reset, page) => reset && page.Ok? ==> UniqueIds(page.value.posts)
    case RefreshCompleted(head) => head.Ok? ==> UniqueIds(head.value.posts)
    case _ => true
  }

  /** Every operation keeps ids unique in the list and in the buffer, given pages without repeats. */
  lemma StepKeepsUnique(s: TimelineState, e: Event)
    requires ListsUnique(s) && UniquePage(e)
    ensures ListsUnique(Step(s, e))
  {
    match e
    case LikeToggled(uid, post, count) =>
      if uid.Some? && count.Ok? {
        var r := ApplyLike(s.ui.posts, post.id, !post.isLiked, count.value);
        assert forall i :: 0 <= i < |r| ==> r[i].id == s.ui.posts[i].id;
      }
    case PositionChanged(atTop) =>
      if atTop {
        assert Step(s, e) == Reveal(s.(isAtTop := true));
      }
    case _ =>
  }

  /** Whatever happens in whatever order, ids stay unique as long as the pages that replace the list have none repeated. */
  lemma {:induction false} RunKeepsUnique(s: TimelineState, events: seq<Event>)
    requires ListsUnique(s)
    requires forall i :: 0 <= i < |events| ==> UniquePage(events[i])
    ensures ListsUnique(Run(s, events))
    decreases |events|
  {
    if events != [] {
      StepKeepsUnique(s, events[0]);
      RunKeepsUnique(Step(s, events[0]), events[1..]);
    }
  }

  /** A new view model shows and buffers every post once, whatever events follow. */
  lemma ReachableHasUniqueIds(events: seq<Event>)
    requires forall i :: 0 <= i < |events| ==> UniquePage(events[i])
    ensures ListsUnique(Run(Initial(), events))
  {
    RunKeepsUnique(Initial(), events);
  }

  /** A live batch whose ids are all in the list changes nothing. */
  lemma KnownBatchChangesNothing(s: TimelineState, latest: seq<Post>)
    requires Ids(latest) <= Ids(s.ui.posts)
    ensures MergeLiveBatch(s, latest) == s
  {
    NoNewPosts(latest, s.ui.posts);
  }

  /** Delivering the same live batch twice ends as delivering it once. */
  lemma LiveBatchIdempotent(s: TimelineState, latest: seq<Post>)
    ensures MergeLiveBatch(MergeLiveBatch(s, latest), latest) == MergeLiveBatch(s, latest)
  {
    var once := MergeLiveBatch(s, latest);
    var newPosts := NewPosts(latest, s.ui.posts);
    if newPosts != [] {
      if s.isAtTop {
        assert Ids(latest) <= Ids(once.ui.posts);
        NoNewPosts(latest, once.ui.posts);
      } else {
        assert NewPosts(latest, once.ui.posts) == newPosts;
        DistinctAbsorbs(newPosts, s.pendingPosts);
      }
    }
  }

  /**
   * At the top, a live batch puts its new posts at the head of the list in
   * delivered order, followed by the previous posts in their old order.
   */
  lemma LiveBatchAtTop(s: TimelineState, latest: seq<Post>)
    requires s.isAtTop && UniqueIds(s.ui.posts) && UniqueIds(latest)
    ensures MergeLiveBatch(s, latest).ui.posts == NewPosts(latest, s.ui.posts) + s.ui.posts
  {
    var newPosts := NewPosts(latest, s.ui.posts);
    if newPosts != [] {
      NewPostsUnique(latest, s.ui.posts);
      DistinctAppend(newPosts, s.ui.posts);
      DistinctOfUnique(newPosts);
      DedupOfUnique(s.ui.posts, Ids(newPosts));
    }
  }

  /** Revealing puts the buffered posts in front, followed by the list's other posts in their order. */
  lemma RevealPutsPendingFirst(s: TimelineState)
    requires s.pendingPosts != [] && UniqueIds(s.pendingPosts)
    ensures Reveal(s).ui.posts == s.pendingPosts + Dedup(s.ui.posts, Ids(s.pendingPosts))
  {
    DistinctAppend(s.pendingPosts, s.ui.posts);
    DistinctOfUnique(s.pendingPosts);
  }

  /**
   * A fetch that is not a reset keeps the list as a prefix and adds the
   * page's posts with new ids after it, in page order.
   */
  lemma FetchKeepsPrefix(posts: seq<Post>, page: seq<Post>)
    requires UniqueIds(posts)
    ensures MergePage(posts, page, false) == posts + Dedup(page, Ids(posts))
    ensures MergePage(posts, page, false)[..|posts|] == posts
  {
    DistinctAppend(posts, page);
    DistinctOfUnique(posts);
  }

  /** Liking changes the posts with the liked id and nothing else, and keeps the filter view in step. */
  lemma LikeKeepsOtherPosts(s: TimelineState, uid: string, post: Post, count: int)
    ensures var t := ApplyToggleLike(s, Some(uid), post, Ok(count));
      && |t.ui.posts| == |s.ui.posts| && Ids(t.ui.posts) == Ids(s.ui.posts)
      && (forall i :: 0 <= i < |s.ui.posts| ==>
            t.ui.posts[i].tag == s.ui.posts[i].tag && t.ui.posts[i].id == s.ui.posts[i].id)
      && t.pendingPosts == s.pendingPosts && t.ui.newBadgeCount == s.ui.newBadgeCount
  {
  }

  // ---------------------------------------------------------------------------
  // The view model

  class TimelineViewModel {
    var uiState: TimelineUiState
    var lastSnapshot: Option<Repo.PostDoc>
    var pendingPosts: seq<Post>
    var isAtTop: bool
    var currentRoomId: Option<string>

    /** The view model's fields as one value. */
    function State(): TimelineState
      reads this
    {
      TimelineState(uiState, lastSnapshot, pendingPosts, isAtTop, currentRoomId)
    }

    constructor ()
      ensures State() == Initial()
    {
      uiState := TimelineUiState([], false, false, Filters.ALL, 0, None);
      lastSnapshot := None;
      pendingPosts := [];
      isAtTop := true;
      currentRoomId := None;
    }

    /**
     * `fetchPosts(roomId, reset)` up to the repository call. Returns whether
     * a fetch was launched and the cursor to fetch after.
     */
    method FetchPosts(reset: bool) returns (launched: bool, startAfter: Option<Repo.PostDoc>)
      modifies this
      ensures State() == StartFetch(old(State()), reset)
      ensures launched == !old(uiState.isLoading)
      ensures launched ==> startAfter == FetchCursor(old(State()), reset)
    {
      if uiState.isLoading {
        return false, None;
      }
      uiState := uiState.(isLoading := true, error := None);
      if reset {
        lastSnapshot := None;
        startAfter := None;
      } else {
        startAfter := lastSnapshot;
      }
      launched := true;
    }

    /** The rest of a launched `fetchPosts`, once the repository has answered. */
    method CompleteFetchPosts(roomId: string, reset: bool, outcome: Outcome<Repo.FetchPostsResult>)
      modifies this
      ensures State() == CompleteFetch(old(State()), roomId, reset, outcome)
    {
      match outcome {
        case Ok(result) =>
          uiState := uiState.(posts := MergePage(uiState.posts, result.posts, reset), isLoading := false, error := None);
          lastSnapshot := result.lastSnapshot;
          currentRoomId := Some(roomId);
        case Err(message) =>
          uiState := uiState.(isLoading := false, error := Some(FETCH_FAILED + MessageText(message)));
      }
    }

    /** `refreshHead` up to the repository call, which fetches the first page. */
    method RefreshHead()
      modifies this
      ensures State() == StartRefresh(old(State()))
    {
      uiState := uiState.(isRefreshing := true, error := None);
    }

    /** The rest of `refreshHead`, once the repository has answered. */
    method CompleteRefreshHead(outcome: Outcome<Repo.FetchPostsResult>)
      modifies this
      ensures State() == CompleteRefresh(old(State()), outcome)
    {
      match outcome {
        case Ok(result) =>
          uiState := uiState.(posts := result.posts, isRefreshing := false, newBadgeCount := 0, error := None);
          lastSnapshot := result.lastSnapshot;
          pendingPosts := [];
        case Err(message) =>
          uiState := uiState.(isRefreshing := false, error := Some(REFRESH_FAILED + MessageText(message)));
      }
    }

    /** A batch from the live listener. */
    method HandleNewPosts(latest: seq<Post>)
      modifies this
      ensures State() == MergeLiveBatch(old(State()), latest)
    {
      var currentPosts := uiState.posts;
      var newPosts := NewPosts(latest, currentPosts);
      if newPosts == [] {
        return;
      }
      if isAtTop {
        uiState := uiState.(posts := DistinctById(newPosts + currentPosts));
      } else {
        pendingPosts := DistinctById(newPosts + pendingPosts);
        uiState := uiState.(newBadgeCount := |pendingPosts|);
      }
    }

    /** An error of the live listener. */
    method OnListenerError(message: Option<string>)
      modifies this
      ensures State() == ShowListenerError(old(State()), message)
    {
      uiState := uiState.(error := Some(LISTENER_FAILED + MessageText(message)));
    }

    method RevealPending()
      modifies this
      ensures State() == Reveal(old(State()))
    {
      var pending := pendingPosts;
      if pending == [] {
        return;
      }
      uiState := uiState.(posts := DistinctById(pending + uiState.posts), newBadgeCount := 0);
      pendingPosts := [];
    }

    method MarkAtTop(atTop: bool)
      modifies this
      ensures State() == ChangePosition(old(State()), atTop)
    {
      isAtTop := atTop;
      if atTop && pendingPosts != [] {
        RevealPending();
      }
    }

    method SetFilter(filter: Filters.TimelineFilter)
      modifies this
      ensures State() == SelectFilter(old(State()), filter)
    {
      uiState := uiState.(selectedFilter := filter);
    }

    /** `getFilteredPosts`: the posts of the selected category, in list order. */
    function GetFilteredPosts(): (r: seq<Post>)
      reads this
      ensures uiState.selectedFilter == Filters.ALL ==> r == uiState.posts
      ensures forall x :: x in r <==> x in uiState.posts && Filters.Matches(uiState.selectedFilter, x.tag)
      ensures r == FilterPosts(uiState.posts, uiState.selectedFilter)
    {
      match uiState.selectedFilter
      case ALL => uiState.posts
      case CEREMONY => FilterPosts(uiState.posts, Filters.CEREMONY)
      case RECEPTION => FilterPosts(uiState.posts, Filters.RECEPTION)
    }

    /**
     * `toggleLike(post)`, with the signed-in user's id and the repository's
     * answer (the new count, or a failure that is only logged).
     */
    method ToggleLike(uid: Option<string>, post: Post, outcome: Outcome<int>)
      modifies this
      ensures State() == ApplyToggleLike(old(State()), uid, post, outcome)
    {
      if uid.None? {
        return;
      }
      var newIsLiked := !post.isLiked;
      match outcome {
        case Ok(newLikeCount) =>
          uiState := uiState.(posts := ApplyLike(uiState.posts, post.id, newIsLiked, newLikeCount));
        case Err(_) =>
      }
    }
  }
}
