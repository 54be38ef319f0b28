/**
  The REST paths of the social feed API and the two header builders
  (src/constants/apiEndpoints.js). Paths carry no leading slash; the services
  prepend one. A path builder interpolates its argument with a template literal,
  so its argument is any JavaScript value, rendered by `Render`.
*/
module Endpoints {

  import opened Wrappers
  import opened JsValues

  const Login := "users/signin"
  const Signup := "users/signup"
  const Profile := "users/profile-data"
  const UploadPhoto := "users/upload-photo"
  const ChangePassword := "users/change-password"
  const Posts := "posts"
  const Comments := "comments"

  const PostPrefix := "posts/"
  const UserPrefix := "users/"
  const UserPostsSuffix := "/posts"
  const CommentPrefix := "comments/"
  const CommentsSuffix := "/comments"

  /** `POST_BY_ID(id)`: "posts/" followed by the rendered id. */
  function PostById(id: Value): (r: string)
    ensures IsPrefix(PostPrefix, r) && r[|PostPrefix|..] == Render(id)
  {
    PostPrefix + Render(id)
  }

  /** `USER_POSTS(userId)`: "users/", the rendered id, then "/posts". */
  function UserPosts(userId: Value): (r: string)
    ensures |r| == |UserPrefix| + |Render(userId)| + |UserPostsSuffix|
    ensures IsPrefix(UserPrefix, r) && IsSuffix(UserPostsSuffix, r)
    ensures r[|UserPrefix|..|r| - |UserPostsSuffix|] == Render(userId)
  {
    UserPrefix + Render(userId) + UserPostsSuffix
  }

  /** `COMMENT(id)`: "comments/" followed by the rendered id. */
  function CommentById(id: Value): (r: string)
    ensures IsPrefix(CommentPrefix, r) && r[|CommentPrefix|..] == Render(id)
  {
    CommentPrefix + Render(id)
  }

  /** `POST_COMMENTS(postId)`: "posts/", the rendered id, then "/comments". */
  function PostComments(postId: Value): (r: string)
    ensures |r| == |PostPrefix| + |Render(postId)| + |CommentsSuffix|
    ensures IsPrefix(PostPrefix, r) && IsSuffix(CommentsSuffix, r)
    ensures r[|PostPrefix|..|r| - |CommentsSuffix|] == Render(postId)
  {
    PostPrefix + Render(postId) + CommentsSuffix
  }

  predicate IsPrefix(p: string, s: string) {
    |p| <= |s| && s[..|p|] == p
  }

  predicate IsSuffix(p: string, s: string) {
    |p| <= |s| && s[|s| - |p|..] == p
  }

  /** The id a path between `prefix` and `suffix` carries, if it has that shape. */
  function Between(prefix: string, suffix: string, path: string): (r: Option<string>)
    ensures r.Some? <==> |prefix| + |suffix| <= |path| && IsPrefix(prefix, path) && IsSuffix(suffix, path)
  {
    if |prefix| + |suffix| <= |path| && IsPrefix(prefix, path) && IsSuffix(suffix, path)
    then Some(path[|prefix|..|path| - |suffix|])
    else None
  }

  /** Reading the id back out of a built path gives the rendered id: each builder has an inverse. */
  lemma BuildersRoundTrip(id: Value)
    ensures Between(PostPrefix, "", PostById(id)) == Some(Render(id))
    ensures Between(UserPrefix, UserPostsSuffix, UserPosts(id)) == Some(Render(id))
    ensures Between(CommentPrefix, "", CommentById(id)) == Some(Render(id))
    ensures Between(PostPrefix, CommentsSuffix, PostComments(id)) == Some(Render(id))
  {
    Split(PostPrefix, Render(id), "");
    assert PostById(id) == PostPrefix + Render(id) + "";
    Split(CommentPrefix, Render(id), "");
    assert CommentById(id) == CommentPrefix + Render(id) + "";
    Split(UserPrefix, Render(id), UserPostsSuffix);
    Split(PostPrefix, Render(id), CommentsSuffix);
  }

  lemma Split(p: string, x: string, q: string)
    ensures Between(p, q, p + x + q) == Some(x)
  {
    var s := p + x + q;
    assert s[..|p|] == p;
    assert s[|s| - |q|..] == q;
    assert s[|p|..|s| - |q|] == x;
  }

  /** Distinct string ids give distinct paths, for every builder. */
  lemma BuildersInjective(a: string, b: string)
    requires a != b
    ensures PostById(Str(a)) != PostById(Str(b))
    ensures UserPosts(Str(a)) != UserPosts(Str(b))
    ensures CommentById(Str(a)) != CommentById(Str(b))
    ensures PostComments(Str(a)) != PostComments(Str(b))
  {
    BuildersRoundTrip(Str(a));
    BuildersRoundTrip(Str(b));
  }

  /** Rendering is not injective: a `null` id and the string "null" address the same post. */
  lemma NullIdCollides()
    ensures PostById(Null) == PostById(Str("null"))
    ensures Null != Str("null")
  {
  }

  const JsonContentType := "application/json"
  const MultipartContentType := "multipart/form-data"

  /** `HEADERS.getAuthHeader()`: JSON content type and the stored token as a string. */
  function AuthHeader(storedToken: Value): Fields {
    map["Content-Type" := Str(JsonContentType), "token" := Str(Render(storedToken))]
  }

  /** `HEADERS.getMultipartHeader()`: multipart content type and the stored token as a string. */
  function MultipartHeader(storedToken: Value): Fields {
    map["Content-Type" := Str(MultipartContentType), "token" := Str(Render(storedToken))]
  }

  /**
    The two header builders agree on every header except Content-Type, and
    without a stored token (`localStorage.getItem` gives `null`) the token
    header is the string "null", not absent.
  */
  lemma HeaderBuildersDifferOnlyInContentType(storedToken: Value)
    ensures AuthHeader(storedToken).Keys == MultipartHeader(storedToken).Keys == {"Content-Type", "token"}
    ensures forall k :: k in AuthHeader(storedToken) && k != "Content-Type" ==>
              AuthHeader(storedToken)[k] == MultipartHeader(storedToken)[k]
    ensures AuthHeader(storedToken)["Content-Type"] != MultipartHeader(storedToken)["Content-Type"]
    ensures storedToken == Null ==> AuthHeader(storedToken)["token"] == Str("null")
  {
  }
}
