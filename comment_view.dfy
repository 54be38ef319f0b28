/**
  One rendered comment (src/components/PostCard/components/Comment.jsx): who
  may delete it, and the fallbacks for its author's photo and name and for
  its text. Component props left `undefined` take their defaults.
*/
module CommentView {

  import opened Wrappers
  import opened JsValues

  const DefaultPhoto := "https://linked-posts.routemisr.com/uploads/default-profile.png"
  const UnknownUser := "Unknown User"

  /** A destructured prop with a default: the default replaces `undefined` only. */
  function WithDefault(v: Value, default: Value): (r: Value)
    ensures r != Undefined || default == Undefined
    ensures v != Undefined ==> r == v
  {
    if v == Undefined then default else v
  }

  /** `comment?.commentCreator || {}`. */
  function Creator(comment: Value): (r: Value)
    ensures !Nullish(r)
  {
    var creator := OptionalMember(WithDefault(comment, Obj(map[])), "commentCreator");
    if Truthy(creator) then creator else Obj(map[])
  }

  /** `currentUserId === user?._id || currentUserId === postOwnerId`, with both ids defaulting to "". */
  predicate IsAuthorized(comment: Value, currentUserId: Value, postOwnerId: Value) {
    var current := WithDefault(currentUserId, Str(""));
    current == OptionalMember(Creator(comment), "_id") || current == WithDefault(postOwnerId, Str(""))
  }

  /**
    Without an owner id, whose default is "", a viewer is authorised exactly
    when its id is the author's, or when it has no id at all: an absent or
    empty viewer id equals the owner default.
  */
  lemma AuthorizedWithoutOwner(comment: Value, currentUserId: Value)
    ensures IsAuthorized(comment, currentUserId, Undefined) <==>
              WithDefault(currentUserId, Str("")) == OptionalMember(Creator(comment), "_id")
              || currentUserId == Undefined || currentUserId == Str("")
  {
  }

  /**
    PostCard passes the comment author's own id as `currentUserId` and no
    owner id, so every comment it renders offers its delete control,
    whoever is signed in.
  */
  lemma {:induction false} AlwaysAuthorizedInPostCard(comment: Value)
    ensures IsAuthorized(comment, OptionalMember(OptionalMember(comment, "commentCreator"), "_id"), Undefined)
  {
    var creator := OptionalMember(comment, "commentCreator");
    var current := OptionalMember(creator, "_id");
    if Truthy(creator) {
      assert Creator(comment) == creator;
    } else {
      assert !Nullish(creator) ==> Member(creator, "_id") == Some(Undefined) by {
        if !Nullish(creator) { assert !creator.Obj?; }
      }
      assert current == Undefined;
    }
  }

  /**
    The photo shown: the default profile image when the author's photo URL
    ends in "undefined", the photo as given otherwise; `None` when the photo
    is neither a string nor missing, and calling `endsWith` on it throws.
  */
  function PhotoSource(comment: Value): (r: Option<Value>)
    ensures var photo := OptionalMember(Creator(comment), "photo");
            (photo.Str? && |photo.s| >= 9 && photo.s[|photo.s| - 9..] == "undefined" ==> r == Some(Str(DefaultPhoto)))
            && (photo.Str? && !(|photo.s| >= 9 && photo.s[|photo.s| - 9..] == "undefined") ==> r == Some(photo))
            && (Nullish(photo) ==> r == Some(photo))
            && (r.None? <==> !photo.Str? && !Nullish(photo))
  {
    var photo := OptionalMember(Creator(comment), "photo");
    if Nullish(photo) then Some(photo)
    else if !photo.Str? then None
    else if EndsWith(photo.s, "undefined") then Some(Str(DefaultPhoto))
    else Some(photo)
  }

  predicate EndsWith(s: string, suffix: string) {
    |suffix| <= |s| && s[|s| - |suffix|..] == suffix
  }

  /** The name shown: the author's name if truthy, else "Unknown User". */
  function DisplayName(comment: Value): (r: Value)
    ensures Truthy(r)
    ensures Truthy(OptionalMember(Creator(comment), "name")) ==> r == OptionalMember(Creator(comment), "name")
    ensures !Truthy(OptionalMember(Creator(comment), "name")) ==> r == Str(UnknownUser)
  {
    var name := OptionalMember(Creator(comment), "name");
    if Truthy(name) then name else Str(UnknownUser)
  }

  /** The text shown: `comment.content || ''`; `None` when the comment is `null` and reading it throws. */
  function Content(comment: Value): (r: Option<Value>)
    ensures r.None? <==> comment == Null
    ensures r.Some? ==> Truthy(r.value) || r.value == Str("")
    ensures r.Some? && Truthy(OptionalMember(comment, "content")) ==> r.value == OptionalMember(comment, "content")
    ensures r.Some? && !Truthy(OptionalMember(comment, "content")) ==> r.value == Str("")
  {
    var c := WithDefault(comment, Obj(map[]));
    match Member(c, "content")
    case None => None
    case Some(content) => Some(if Truthy(content) then content else Str(""))
  }
}
