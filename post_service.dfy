/**
  The post and comment hooks (src/services/postService.js). Each is a table of
  option values handed to `useApiQuery` or `useApiMutation`; this module
  builds the option object the query library finally receives, and states
  which caches each mutation invalidates, which message it shows, which URL
  it requests, and how a caller's options override the table.
*/
module PostService {

  import opened Wrappers
  import opened JsValues
  import opened Closures
  import opened ServiceHooks
  import Endpoints
  import Api

  const RefetchIntervalMs := 3000
  const GcTimeMs := 5 * 60 * 1000

  /** The polling defaults the three post queries share. */
  const QueryDefaults: Options := map[
    RefetchOnWindowFocus := Bool(false),
    RefetchOnMount := Bool(false),
    RefetchInterval := Num(RefetchIntervalMs),
    StaleTime := Num(0),
    GcTime := Num(GcTimeMs),
    StructuralSharing := Bool(true)
  ]

  /** `GetPost(postId, options)`: key ["post", postId], GET /posts/<id>, enabled iff `postId` is truthy. */
  function GetPost(postId: Value, options: Options): (r: Options)
    ensures QueryKey in r && QueryFn in r && Enabled in r
    ensures QueryKey !in options ==> r[QueryKey] == Arr([Str("post"), postId])
    ensures QueryFn !in options ==> r[QueryFn] == Fn(QueryFetch("/" + Endpoints.PostById(postId)))
    ensures Enabled !in options ==> r[Enabled] == Bool(Truthy(postId))
  {
    var table := QueryDefaults[Enabled := Bool(Truthy(postId))];
    assert QueryKey !in table && QueryFn !in table && Enabled in table && table[Enabled] == Bool(Truthy(postId));
    ServiceQuery(Arr([Str("post"), postId]), "/" + Endpoints.PostById(postId), table, options)
  }

  /** `GetAllPosts(options)`: key ["posts"], GET /posts, with no `enabled` entry unless the caller gives one. */
  function GetAllPosts(options: Options): (r: Options)
    ensures QueryKey in r && QueryFn in r
    ensures QueryKey !in options ==> r[QueryKey] == Arr([Str("posts")])
    ensures QueryFn !in options ==> r[QueryFn] == Fn(QueryFetch("/" + Endpoints.Posts))
    ensures Enabled !in options ==> Enabled !in r
  {
    assert Enabled !in QueryDefaults && QueryKey !in QueryDefaults && QueryFn !in QueryDefaults;
    ServiceQuery(Str("posts"), "/" + Endpoints.Posts, QueryDefaults, options)
  }

  /** `GetUserPosts(userId, options)`: key ["userPosts", userId], GET /users/<id>/posts, enabled iff `userId` is truthy. */
  function GetUserPosts(userId: Value, options: Options): (r: Options)
    ensures QueryKey in r && QueryFn in r && Enabled in r
    ensures QueryKey !in options ==> r[QueryKey] == Arr([Str("userPosts"), userId])
    ensures QueryFn !in options ==> r[QueryFn] == Fn(QueryFetch("/" + Endpoints.UserPosts(userId)))
    ensures Enabled !in options ==> r[Enabled] == Bool(Truthy(userId))
  {
    var table := QueryDefaults[Enabled := Bool(Truthy(userId))];
    assert QueryKey !in table && QueryFn !in table && Enabled in table && table[Enabled] == Bool(Truthy(userId));
    ServiceQuery(Arr([Str("userPosts"), userId]), "/" + Endpoints.UserPosts(userId), table, options)
  }

  /**
    The polling policy the three post queries share: no refetch on focus or
    mount, a 3000 ms interval, `staleTime` 0, a five-minute `gcTime` and
    structural sharing unless the caller sets them; every other option of the
    caller wins, but its `onSuccess` is only forwarded to.
  */
  predicate FeedPolicy(r: Options, options: Options) {
    (RefetchOnWindowFocus !in options ==> RefetchOnWindowFocus in r && r[RefetchOnWindowFocus] == Bool(false))
    && (RefetchOnMount !in options ==> RefetchOnMount in r && r[RefetchOnMount] == Bool(false))
    && (RefetchInterval !in options ==> RefetchInterval in r && r[RefetchInterval] == Num(3000))
    && (StaleTime !in options ==> StaleTime in r && r[StaleTime] == Num(0))
    && (GcTime !in options ==> GcTime in r && r[GcTime] == Num(300000))
    && (StructuralSharing !in options ==> StructuralSharing in r && r[StructuralSharing] == Bool(true))
    && (forall k :: k in options && k != OnSuccess ==> k in r && r[k] == options[k])
    && OnSuccess in r && r[OnSuccess] == Fn(ForwardOnSuccess(Get(options, OnSuccess)))
  }

  /** What the shared defaults hold, for the lemmas below. */
  lemma QueryDefaultsValues()
    ensures QueryDefaults[RefetchOnWindowFocus] == Bool(false) && QueryDefaults[RefetchOnMount] == Bool(false)
    ensures QueryDefaults[RefetchInterval] == Num(3000) && QueryDefaults[StaleTime] == Num(0)
    ensures QueryDefaults[GcTime] == Num(300000) && QueryDefaults[StructuralSharing] == Bool(true)
    ensures OnSuccess !in QueryDefaults
  {
  }

  /** Any table that carries the shared defaults and no `onSuccess` yields the shared policy. */
  lemma TablePolicy(key: Value, url: string, table: Options, options: Options)
    requires forall k :: k in QueryDefaults ==> k in table && table[k] == QueryDefaults[k]
    requires OnSuccess !in table
    ensures FeedPolicy(ServiceQuery(key, url, table, options), options)
  {
    QueryDefaultsValues();
  }

  /** The feed list follows the shared policy. */
  lemma AllPostsPolicy(options: Options)
    ensures FeedPolicy(GetAllPosts(options), options)
  {
    QueryDefaultsValues();
  }

  /** A single post follows the shared policy. */
  lemma PostPolicy(postId: Value, options: Options)
    ensures FeedPolicy(GetPost(postId, options), options)
  {
    TablePolicy(Arr([Str("post"), postId]), "/" + Endpoints.PostById(postId), QueryDefaults[Enabled := Bool(Truthy(postId))], options);
  }

  /** A user's posts follow the shared policy. */
  lemma UserPostsPolicy(userId: Value, options: Options)
    ensures FeedPolicy(GetUserPosts(userId, options), options)
  {
    TablePolicy(Arr([Str("userPosts"), userId]), "/" + Endpoints.UserPosts(userId), QueryDefaults[Enabled := Bool(Truthy(userId))], options);
  }

  // ------------------------------------------------------------- mutations

  /** The caches every post and comment change but CreatePost invalidates: "posts" and ["userPosts"]. */
  const FeedKeys: Value := Arr([Str("posts"), Arr([Str("userPosts")])])
  const PostsOnly: Value := Arr([Str("posts")])

  const CreatePostTable: Options := map[
    InvalidateQueries := PostsOnly, SkipLoading := Bool(true),
    SuccessMessage := Str("Post created successfully!")]
  const UpdatePostTable: Options := map[SkipLoading := Bool(true), InvalidateQueries := FeedKeys]
  const DeletePostTable: Options := map[
    SkipLoading := Bool(true), InvalidateQueries := FeedKeys,
    SuccessMessage := Str("Post deleted successfully!")]
  const LikePostTable: Options := map[SkipLoading := Bool(true), InvalidateQueries := FeedKeys]
  const CreateCommentTable: Options := map[
    SkipLoading := Bool(true), InvalidateQueries := FeedKeys,
    SuccessMessage := Str("Comment added successfully!")]
  const UpdateCommentTable: Options := map[
    InvalidateQueries := FeedKeys, SuccessMessage := Str("Comment updated successfully!")]
  const DeleteCommentTable: Options := map[
    SkipLoading := Bool(true), InvalidateQueries := FeedKeys,
    SuccessMessage := Str("Comment deleted successfully!")]

  const CreatePostHook := MutationHook("post", Path("/" + Endpoints.Posts), CreatePostTable)
  const UpdatePostHook := MutationHook("put", Builder(PostUrlFromIdOrForm), UpdatePostTable)
  const DeletePostHook := MutationHook("delete", Builder(PostUrlFromId), DeletePostTable)
  const LikePostHook := MutationHook("patch", Builder(PostUrlFromId), LikePostTable)
  const CreateCommentHook := MutationHook("post", Path("/" + Endpoints.Comments), CreateCommentTable)
  const DeleteCommentHook := MutationHook("delete", Builder(CommentUrlFromId), DeleteCommentTable)

  /** UpdateComment's URL is fixed from `commentId` when the hook is created. */
  function UpdateCommentHook(commentId: Value): MutationHook {
    MutationHook("put", Path("/" + Endpoints.CommentById(commentId)), UpdateCommentTable)
  }

  /** `CreatePost(options)`: POST /posts. */
  function CreatePost(options: Options): Options {
    Configure(CreatePostHook, options)
  }

  /** `UpdatePost(options)`: PUT to the URL function reading the id from a FormData or from `data.id`. */
  function UpdatePost(options: Options): Options {
    Configure(UpdatePostHook, options)
  }

  /** `DeletePost(options)`: DELETE to the URL function reading `data.id`. */
  function DeletePost(options: Options): Options {
    Configure(DeletePostHook, options)
  }

  /** `LikePost(options)`: PATCH to the URL function reading `data.id`. */
  function LikePost(options: Options): Options {
    Configure(LikePostHook, options)
  }

  /** `CreateComment(options)`: POST /comments. */
  function CreateComment(options: Options): Options {
    Configure(CreateCommentHook, options)
  }

  /** `UpdateComment(commentId, options)`: PUT /comments/<commentId>. */
  function UpdateComment(commentId: Value, options: Options): Options {
    Configure(UpdateCommentHook(commentId), options)
  }

  /** `DeleteComment(options)`: DELETE to the URL function reading `data.id`. */
  function DeleteComment(options: Options): Options {
    Configure(DeleteCommentHook, options)
  }

  // What each mutation does on success when the caller overrides none of
  // `onSuccess`, `invalidateQueries` and `successMessage`: which caches it
  // invalidates and which message it shows, in that order.

  /** `CreatePost` invalidates ["posts"] only, then shows "Post created successfully!". */
  lemma CreatePostSucceeds(options: Options, data: Value)
    requires NoSuccessOverride(options)
    ensures Api.SuccessEffects(CreatePost(options), data) == [Invalidated(PostsOnly), ToastedSuccess(Str("Post created successfully!"))]
  {
    assert LeavesHandlers(CreatePostTable) && InvalidateQueries in CreatePostTable;
    TableSuccessEffects(CreatePostHook, options, data);
  }

  /** `UpdatePost` invalidates "posts" and ["userPosts"] and shows no message. */
  lemma UpdatePostSucceeds(options: Options, data: Value)
    requires NoSuccessOverride(options)
    ensures Api.SuccessEffects(UpdatePost(options), data) == [Invalidated(FeedKeys)]
  {
    assert LeavesHandlers(UpdatePostTable) && InvalidateQueries in UpdatePostTable;
    TableSuccessEffects(UpdatePostHook, options, data);
  }

  /** `DeletePost` invalidates "posts" and ["userPosts"], then shows "Post deleted successfully!". */
  lemma DeletePostSucceeds(options: Options, data: Value)
    requires NoSuccessOverride(options)
    ensures Api.SuccessEffects(DeletePost(options), data) == [Invalidated(FeedKeys), ToastedSuccess(Str("Post deleted successfully!"))]
  {
    assert LeavesHandlers(DeletePostTable) && InvalidateQueries in DeletePostTable;
    TableSuccessEffects(DeletePostHook, options, data);
  }

  /** `LikePost` invalidates "posts" and ["userPosts"] and shows no message. */
  lemma LikePostSucceeds(options: Options, data: Value)
    requires NoSuccessOverride(options)
    ensures Api.SuccessEffects(LikePost(options), data) == [Invalidated(FeedKeys)]
  {
    assert LeavesHandlers(LikePostTable) && InvalidateQueries in LikePostTable;
    TableSuccessEffects(LikePostHook, options, data);
  }

  /** `CreateComment` invalidates "posts" and ["userPosts"], then shows "Comment added successfully!". */
  lemma CreateCommentSucceeds(options: Options, data: Value)
    requires NoSuccessOverride(options)
    ensures Api.SuccessEffects(CreateComment(options), data) == [Invalidated(FeedKeys), ToastedSuccess(Str("Comment added successfully!"))]
  {
    assert LeavesHandlers(CreateCommentTable) && InvalidateQueries in CreateCommentTable;
    TableSuccessEffects(CreateCommentHook, options, data);
  }

  /** `UpdateComment` invalidates "posts" and ["userPosts"], then shows "Comment updated successfully!". */
  lemma UpdateCommentSucceeds(commentId: Value, options: Options, data: Value)
    requires NoSuccessOverride(options)
    ensures Api.SuccessEffects(UpdateComment(commentId, options), data) == [Invalidated(FeedKeys), ToastedSuccess(Str("Comment updated successfully!"))]
  {
    assert LeavesHandlers(UpdateCommentTable) && InvalidateQueries in UpdateCommentTable;
    TableSuccessEffects(UpdateCommentHook(commentId), options, data);
  }

  /** `DeleteComment` invalidates "posts" and ["userPosts"], then shows "Comment deleted successfully!". */
  lemma DeleteCommentSucceeds(options: Options, data: Value)
    requires NoSuccessOverride(options)
    ensures Api.SuccessEffects(DeleteComment(options), data) == [Invalidated(FeedKeys), ToastedSuccess(Str("Comment deleted successfully!"))]
  {
    assert LeavesHandlers(DeleteCommentTable) && InvalidateQueries in DeleteCommentTable;
    TableSuccessEffects(DeleteCommentHook, options, data);
  }

  /** UpdateComment's URL does not depend on the data the mutation is called with. */
  lemma UpdateCommentUrlFixed(commentId: Value, data: Value)
    ensures Run(UpdateComment(commentId, map[])[MutationFn].closure, data)
            == [Requested("put", Path("/" + Endpoints.CommentById(commentId)), data)]
  {
    MutationRequest(UpdateCommentHook(commentId), map[], data);
  }

  /** Only UpdateComment leaves `skipLoading` unset; the others set it, to no effect (see Api.SkipLoadingIgnored). */
  lemma SkipLoadingFlags(commentId: Value)
    ensures SkipLoading !in UpdateCommentHook(commentId).table
    ensures forall h :: h in {CreatePostHook, UpdatePostHook, DeletePostHook, LikePostHook, CreateCommentHook, DeleteCommentHook} ==>
              SkipLoading in h.table && h.table[SkipLoading] == Bool(true)
  {
  }
}
