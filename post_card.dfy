/**
  One post in the feed (src/components/PostCard/PostCard.jsx): whether the
  viewer has liked it, which comments are shown, when the delete control
  appears, and the handlers that gate the parent's callbacks behind the
  viewer's identity and a confirmation. `window.confirm` answers are inputs;
  the parent's callbacks are recorded as calls, in order.
*/
module PostCard {

  import opened Wrappers
  import opened JsValues
  import opened Browser
  import CommentView

  const VisibleComments := 2
  const CollapseThreshold := 5

  const NotYourPostMessage := "You can only delete your own posts"
  const LogInToLikeMessage := "Please log in to like posts"
  const CommentAddedMessage := "Comment added successfully"
  const AddFailedMessage := "Failed to add comment"
  const CommentDeletedMessage := "Comment deleted successfully"
  const DeleteFailedMessage := "Failed to delete comment"
  const NotYourCommentMessage := "You can only delete your own comments"

  // ------------------------------------------------------------------ display

  /** `post || {}`, the object the card's fields are read from. */
  function Source(post: Value): (r: Value)
    ensures !Nullish(r)
  {
    if Truthy(post) then post else Obj(map[])
  }

  /** A field of the post, with the destructuring default applied to `undefined`. */
  function Field(post: Value, key: string, default: Value): Value {
    CommentView.WithDefault(OptionalMember(Source(post), key), default)
  }

  /** Spread syntax `[...v]` accepts arrays, strings and FormData; any other value throws. */
  predicate Iterable(v: Value) {
    v.Arr? || v.Str? || v.Form?
  }

  /**
    The card throws while rendering, before its `null` guard is reached:
    `commentsCount = postComments.length` reads `length` of a `null` comment
    list; the dependency list of `handleDeleteComment` reads `user._id` of a
    `null` author; `[...(postComments || [])]` spreads a truthy value that is
    not iterable.
  */
  predicate RenderThrows(post: Value) {
    var comments := Field(post, "comments", Arr([]));
    (OptionalMember(Source(post), "commentsCount") == Undefined && Member(comments, "length").None?)
    || Member(Field(post, "user", Obj(map[])), "_id").None?
    || (Truthy(comments) && !Iterable(comments))
  }

  /**
    The card throws while building its markup, after the `null` guard:
    `isLiked()` calls `.some` on likes that are neither an array nor nullish
    when the viewer has an id, and `postComments.length > 0` reads `length`
    of a `null` comment list (a `commentsCount` skips the earlier read).
  */
  predicate MarkupThrows(post: Value, authUser: Value) {
    IsLiked(authUser, Field(post, "likes", Arr([]))).None?
    || Field(post, "comments", Arr([])) == Null
  }

  /** The card renders when nothing throws, neither the post nor its body is falsy, and building the markup does not throw. */
  predicate Renders(post: Value, authUser: Value) {
    !RenderThrows(post) && Truthy(post) && Truthy(Field(post, "body", Str(""))) && !MarkupThrows(post, authUser)
  }

  /**
    Only a post object renders, and only when its body is truthy, its `user`
    and its comment list are not `null`, a truthy comment list is iterable,
    and, for a viewer with an id, its likes are an array or nullish.
  */
  lemma RendersIff(post: Value, authUser: Value)
    ensures Renders(post, authUser) <==>
              post.Obj? && Truthy(Get(post.fields, "body"))
              && Get(post.fields, "user") != Null
              && Get(post.fields, "comments") != Null
              && (!Truthy(Get(post.fields, "comments")) || Iterable(Get(post.fields, "comments")))
              && (!Truthy(OptionalMember(authUser, "_id")) || Nullish(Get(post.fields, "likes")) || Get(post.fields, "likes").Arr?)
  {
  }

  /** A falsy post never throws: every field takes its default. */
  lemma MissingPostRendersNothing(post: Value, authUser: Value)
    requires !Truthy(post)
    ensures !RenderThrows(post) && !Renders(post, authUser)
  {
  }

  /** A post whose author is `null` throws during render, whatever its body. */
  lemma NullAuthorThrows(fields: Fields)
    requires "user" in fields && fields["user"] == Null
    ensures RenderThrows(Obj(fields))
  {
  }

  /** A `null` comment list throws while rendering even when a `commentsCount` is given. */
  lemma NullCommentsThrow(fields: Fields, authUser: Value)
    requires "comments" in fields && fields["comments"] == Null
    ensures !Renders(Obj(fields), authUser)
  {
  }

  /** Likes that are neither an array nor nullish throw for a viewer with an id. */
  lemma NonArrayLikesThrow(fields: Fields, authUser: Value)
    requires Truthy(OptionalMember(authUser, "_id"))
    requires "likes" in fields && !Nullish(fields["likes"]) && !fields["likes"].Arr?
    ensures !Renders(Obj(fields), authUser)
  {
  }

  /** Some like in `items` is by the user `uid`. */
  predicate LikedBy(items: seq<Value>, uid: Value) {
    items != [] && (OptionalMember(items[0], "user") == uid || LikedBy(items[1..], uid))
  }

  lemma {:induction false} LikedByIff(items: seq<Value>, uid: Value)
    ensures LikedBy(items, uid) <==> exists i :: 0 <= i < |items| && OptionalMember(items[i], "user") == uid
  {
    if items != [] {
      LikedByIff(items[1..], uid);
      if exists i :: 0 <= i < |items| && OptionalMember(items[i], "user") == uid {
        var i :| 0 <= i < |items| && OptionalMember(items[i], "user") == uid;
        if i > 0 { assert items[1..][i - 1] == items[i]; }
      }
    }
  }

  /**
    `isLiked()`: false without a signed-in id or without likes; `None` when the
    likes are neither an array nor missing and `.some` throws.
  */
  function IsLiked(authUser: Value, likes: Value): (r: Option<bool>)
    ensures !Truthy(OptionalMember(authUser, "_id")) || Nullish(likes) ==> r == Some(false)
    ensures r.None? <==> Truthy(OptionalMember(authUser, "_id")) && !Nullish(likes) && !likes.Arr?
  {
    var uid := OptionalMember(authUser, "_id");
    if !Truthy(uid) || Nullish(likes) then Some(false)
    else if !likes.Arr? then None
    else Some(LikedBy(likes.items, uid))
  }

  /** The post counts as liked exactly when the viewer has an id and some like carries it. */
  lemma IsLikedIff(authUser: Value, items: seq<Value>)
    ensures IsLiked(authUser, Arr(items)) == Some(true) <==>
              Truthy(OptionalMember(authUser, "_id"))
              && exists i :: 0 <= i < |items| && OptionalMember(items[i], "user") == OptionalMember(authUser, "_id")
  {
    LikedByIff(items, OptionalMember(authUser, "_id"));
  }

  /** The comments shown: all of them when expanded, else the first two. */
  function Displayed(comments: seq<Value>, showAll: bool): (r: seq<Value>)
    ensures showAll ==> r == comments
    ensures !showAll ==> |r| == if |comments| < VisibleComments then |comments| else VisibleComments
    ensures r == comments[..|r|]
  {
    if showAll || |comments| <= VisibleComments then comments else comments[..VisibleComments]
  }

  /** "View more" is offered exactly when the list is collapsed and hides comments. */
  predicate ShowMoreOffered(comments: seq<Value>, showAll: bool) {
    |comments| > VisibleComments && !showAll
  }

  /** "Show fewer" is offered when the list is expanded and the post counts more than five comments. */
  predicate ShowFewerOffered(showAll: bool, commentsCount: int) {
    showAll && commentsCount > CollapseThreshold
  }

  /** A collapsed list hides a comment exactly when "view more" is offered. */
  lemma ShowMoreWhenHidden(comments: seq<Value>)
    ensures |Displayed(comments, false)| < |comments| <==> ShowMoreOffered(comments, false)
  {
  }

  /**
    With the default count (the array's length), a post of three to five
    comments, once expanded, offers no way back: "view more" is gone and
    "show fewer" is not offered.
  */
  lemma ExpandedSmallListStaysExpanded(comments: seq<Value>)
    requires VisibleComments < |comments| <= CollapseThreshold
    ensures ShowMoreOffered(comments, false)
    ensures !ShowMoreOffered(comments, true) && !ShowFewerOffered(true, |comments|)
  {
  }

  /** A comment's `_id`, read as `comment?._id`. */
  function CommentId(comment: Value): Value {
    OptionalMember(comment, "_id")
  }

  /** The ids of the shown comments that are rendered: those without a truthy `_id` are skipped. */
  function RenderedIds(shown: seq<Value>): (ids: seq<Value>)
    ensures |ids| <= |shown|
    ensures forall i :: 0 <= i < |ids| ==> Truthy(ids[i])
  {
    if shown == [] then []
    else (if Truthy(CommentId(shown[0])) then [CommentId(shown[0])] else []) + RenderedIds(shown[1..])
  }

  lemma {:induction false} RenderedIdsIff(shown: seq<Value>, id: Value)
    ensures id in RenderedIds(shown) <==> Truthy(id) && exists i :: 0 <= i < |shown| && CommentId(shown[i]) == id
  {
    if shown != [] {
      RenderedIdsIff(shown[1..], id);
      if Truthy(id) && exists i :: 0 <= i < |shown| && CommentId(shown[i]) == id {
        var i :| 0 <= i < |shown| && CommentId(shown[i]) == id;
        if i > 0 { assert shown[1..][i - 1] == shown[i]; }
      }
      if id in RenderedIds(shown[1..]) {
        var i :| 0 <= i < |shown[1..]| && CommentId(shown[1..][i]) == id;
        assert shown[i + 1] == shown[1..][i];
      }
    }
  }

  /** The gate of `handleDeletePost`: the viewer's id is the author's (`undefined` equals `undefined`). */
  predicate MayDeletePost(authUser: Value, author: Value) {
    OptionalMember(authUser, "_id") == OptionalMember(author, "_id")
  }

  /** The post's delete control: both ids present and equal. */
  predicate ShowDeleteButton(authUser: Value, author: Value) {
    var viewer := OptionalMember(authUser, "_id");
    var owner := OptionalMember(author, "_id");
    Truthy(viewer) && Truthy(owner) && viewer == owner
  }

  // ------------------------------------------------------------------ handlers

  /** A call of one of the parent's callbacks. */
  datatype Call =
    | PostDeleted(postId: Value)
    | LikeToggled(postId: Value)
    | CommentAdded(postId: Value, text: string)
    | CommentDeleted(postId: Value, commentId: Value)

  /** `error.message || fallback`; `None` when the rejection is `null` or `undefined` and reading it throws. */
  function FailureText(error: Value, fallback: string): (r: Option<Value>)
    requires fallback != ""
    ensures r.None? <==> Nullish(error)
    ensures r.Some? ==> Truthy(r.value)
    ensures r.Some? && Truthy(Member(error, "message").value) ==> r.value == Member(error, "message").value
    ensures r.Some? && !Truthy(Member(error, "message").value) ==> r.value == Str(fallback)
  {
    match Member(error, "message")
    case None => None
    case Some(message) => Some(if Truthy(message) then message else Str(fallback))
  }

  /** The toasts a caught rejection leaves: one error toast with its text, none when reading its message throws. */
  function FailureToasts(error: Value, fallback: string): (ts: seq<Toast>)
    requires fallback != ""
    ensures |ts| <= 1
    ensures ts == [] <==> Nullish(error)
    ensures ts != [] ==> ts[0] == ErrorToast(FailureText(error, fallback).value)
  {
    match FailureText(error, fallback)
    case Some(m) => [ErrorToast(m)]
    case None => []
  }

  class Card {
    var showAllComments: bool
    var newComment: string
    var calls: seq<Call>

    constructor ()
      ensures !showAllComments && newComment == "" && calls == []
    {
      showAllComments := false;
      newComment := "";
      calls := [];
    }

    /**
      `handleDeletePost`: nothing without confirmation; with it, the parent is
      asked to delete the post only when the viewer's id equals the author's,
      and an error toast is shown otherwise.
    */
    method HandleDeletePost(w: Window, confirmed: bool, authUser: Value, author: Value, postId: Value)
      modifies this, w
      ensures var allowed := MayDeletePost(authUser, author);
              (!confirmed ==> calls == old(calls) && w.toasts == old(w.toasts))
              && (confirmed && allowed ==> calls == old(calls) + [PostDeleted(postId)] && w.toasts == old(w.toasts))
              && (confirmed && !allowed ==> calls == old(calls) && w.toasts == old(w.toasts) + [ErrorToast(Str(NotYourPostMessage))])
      ensures showAllComments == old(showAllComments) && newComment == old(newComment)
      ensures w.storage == old(w.storage) && w.location == old(w.location) && w.routes == old(w.routes)
    {
      if !confirmed {
        return;
      }
      if !MayDeletePost(authUser, author) {
        w.Show(ErrorToast(Str(NotYourPostMessage)));
        return;
      }
      calls := calls + [PostDeleted(postId)];
    }

    /** `handleLike`: a signed-in viewer toggles the like; anyone else gets an error toast. */
    method HandleLike(w: Window, authUser: Value, postId: Value)
      modifies this, w
      ensures Truthy(authUser) ==> calls == old(calls) + [LikeToggled(postId)] && w.toasts == old(w.toasts)
      ensures !Truthy(authUser) ==> calls == old(calls) && w.toasts == old(w.toasts) + [ErrorToast(Str(LogInToLikeMessage))]
      ensures showAllComments == old(showAllComments) && newComment == old(newComment)
      ensures w.storage == old(w.storage) && w.location == old(w.location) && w.routes == old(w.routes)
    {
      if !Truthy(authUser) {
        w.Show(ErrorToast(Str(LogInToLikeMessage)));
        return;
      }
      calls := calls + [LikeToggled(postId)];
    }

    /**
      `handleAddComment`, with how the parent's `onAddComment` settles (`None`
      when it resolves, the rejection otherwise). A blank comment is not sent.
      On success the input is cleared and a success toast shown; on failure
      the input is kept and an error toast shows the rejection's message.
    */
    method HandleAddComment(w: Window, postId: Value, rejection: Option<Value>)
      modifies this, w
      ensures AllTrimmable(old(newComment)) ==>
                calls == old(calls) && newComment == old(newComment) && w.toasts == old(w.toasts)
      ensures !AllTrimmable(old(newComment)) ==> calls == old(calls) + [CommentAdded(postId, old(newComment))]
      ensures !AllTrimmable(old(newComment)) && rejection.None? ==>
                newComment == "" && w.toasts == old(w.toasts) + [SuccessToast(Str(CommentAddedMessage))]
      ensures !AllTrimmable(old(newComment)) && rejection.Some? ==>
                newComment == old(newComment)
                && w.toasts == old(w.toasts) + FailureToasts(rejection.value, AddFailedMessage)
      ensures showAllComments == old(showAllComments)
      ensures w.storage == old(w.storage) && w.location == old(w.location) && w.routes == old(w.routes)
    {
      TrimEmptyIff(newComment);
      if Trim(newComment) == "" {
        return;
      }
      calls := calls + [CommentAdded(postId, newComment)];
      SettleAddComment(w, rejection);
    }

    /** What follows a sent comment: clear the input and toast success, or keep it and toast the failure. */
    method SettleAddComment(w: Window, rejection: Option<Value>)
      modifies this, w
      ensures rejection.None? ==> newComment == "" && w.toasts == old(w.toasts) + [SuccessToast(Str(CommentAddedMessage))]
      ensures rejection.Some? ==>
                newComment == old(newComment) && w.toasts == old(w.toasts) + FailureToasts(rejection.value, AddFailedMessage)
      ensures calls == old(calls) && showAllComments == old(showAllComments)
      ensures w.storage == old(w.storage) && w.location == old(w.location) && w.routes == old(w.routes)
    {
      match rejection {
        case None =>
          newComment := "";
          w.Show(SuccessToast(Str(CommentAddedMessage)));
        case Some(error) =>
          var toasts := FailureToasts(error, AddFailedMessage);
          if toasts != [] {
            w.Show(toasts[0]);
            assert toasts == [toasts[0]];
          }
      }
    }

    /**
      `handleDeleteComment(commentId, commentAuthorId)`: the comment is deleted,
      after confirmation, only when its author is the POST's author; the
      signed-in viewer plays no part. Any other comment gets an error toast.
      Nothing happens when the post's `user` is `null` and reading its id throws.
    */
    method HandleDeleteComment(w: Window, confirmed: bool, author: Value, postId: Value,
                               commentId: Value, commentAuthorId: Value, rejection: Option<Value>)
      modifies this, w
      ensures Nullish(author) ==> calls == old(calls) && w.toasts == old(w.toasts)
      ensures !Nullish(author) ==>
                var matches := Member(author, "_id").value == commentAuthorId;
                (matches && confirmed ==> calls == old(calls) + [CommentDeleted(postId, commentId)])
                && (matches && confirmed && rejection.None? ==>
                      w.toasts == old(w.toasts) + [SuccessToast(Str(CommentDeletedMessage))])
                && (matches && confirmed && rejection.Some? ==>
                      w.toasts == old(w.toasts) + FailureToasts(rejection.value, DeleteFailedMessage))
                && (matches && !confirmed ==> calls == old(calls) && w.toasts == old(w.toasts))
                && (!matches ==> calls == old(calls) && w.toasts == old(w.toasts) + [ErrorToast(Str(NotYourCommentMessage))])
      ensures showAllComments == old(showAllComments) && newComment == old(newComment)
      ensures w.storage == old(w.storage) && w.location == old(w.location) && w.routes == old(w.routes)
    {
      var authorId := Member(author, "_id");
      if authorId.None? {
        return;
      }
      if authorId.value == commentAuthorId {
        if !confirmed {
          return;
        }
        calls := calls + [CommentDeleted(postId, commentId)];
        match rejection {
          case None =>
            w.Show(SuccessToast(Str(CommentDeletedMessage)));
          case Some(error) =>
            var toasts := FailureToasts(error, DeleteFailedMessage);
            if toasts != [] {
              w.Show(toasts[0]);
              assert toasts == [toasts[0]];
            }
        }
      } else {
        w.Show(ErrorToast(Str(NotYourCommentMessage)));
      }
    }

    /** "View more comments". */
    method ShowMore()
      modifies this
      ensures showAllComments && newComment == old(newComment) && calls == old(calls)
    {
      showAllComments := true;
    }

    /** "Show fewer comments". */
    method ShowFewer()
      modifies this
      ensures !showAllComments && newComment == old(newComment) && calls == old(calls)
    {
      showAllComments := false;
    }
  }

  /**
    The delete control is only shown to a viewer whom the delete handler lets
    through; the converse fails, since a viewer and an author without ids
    pass the handler's gate but see no control.
  */
  lemma DeleteButtonImpliesAllowed(authUser: Value, author: Value)
    ensures ShowDeleteButton(authUser, author) ==> MayDeletePost(authUser, author)
    ensures MayDeletePost(Obj(map[]), Obj(map[])) && !ShowDeleteButton(Obj(map[]), Obj(map[]))
  {
    assert OptionalMember(Obj(map[]), "_id") == Undefined;
  }
}
