# Social feed client: a verified model of its request, session and form logic

This project models the decision logic of a React client for a small social
feed (posts, comments, likes, a user profile). Most of that client is markup.
Its logic is a set of small rules:

- **Loading indicator** (`Loading`). A global loading indicator is driven by
  a reference count of requests in flight. The count is clamped at 0, and
  the busy flag changes only at the 0/1 boundary.
- **Transport wrapper** (`Api`). The configured HTTP client attaches a bearer
  token to each request and maps every failure to a message. On a 401 it
  drops the session instead of showing a toast. Its query and mutation hooks
  merge the caller's options into the option object given to the query
  library, and they fix the order of the success handler's steps.
- **Ad-hoc request helper** (`RequestHook`). It builds a request
  configuration, pairs the loading start with the loading stop, and keeps an
  error text.
- **Service tables** (`ServiceHooks`, `PostService`, `ProfileService`,
  `AuthService`, `Endpoints`). These say which caches each mutation
  invalidates, which message it shows, which URL it requests, and which
  polling defaults a query uses. They also give the REST path builders.
- **Session** (`AuthContext`, `ProtectRoute`, `LoginHook`). This covers the
  token, user data and error state, the derived `isAuthenticated`, the route
  guard's decision table, and the login callback.
- **Forms and the post card** (`SignupForm`, `CreatePost`, `PostCard`,
  `CommentView`). This covers the sign-up validation rules, the image check
  and submit rule of the post composer, like detection, which comments are
  shown, and who may delete what.

JavaScript values are one datatype, `JsValues.Value`.

- Objects are maps, and object spread is map union in which the later
  object wins. A missing property reads as `undefined`. Reading a property
  of `null` or `undefined` is a TypeError: the result is `None`.
- Option objects are maps from `JsValues.Prop`, the option names the client
  uses, to values.
- Function values are symbolic closures. A component's callback is known by
  its name. A closure the client builds records what it captured, and
  `Closures.Run` gives the effects of calling it, in order.
- The browser is the class `Browser.Window`. It holds `localStorage`,
  `window.location`, the toasts shown and the router navigations, and its
  methods update them in place.
- The stateful parts of the client are classes whose methods change their
  fields: `Loading.LoadingProvider`, `RequestHook.RequestHook`,
  `AuthContext.AuthProvider`, `ProtectRoute.Guard`, `LoginHook.LoginHook`,
  `CreatePost.Composer` and `PostCard.Card`. Each is proved against pure
  functions of the same module.

Some behaviours of the code are easy to misread; the model states them as
the code has them:

- **Which requests count in the loading indicator.** The configured HTTP
  client of src/services/api.js never touches the indicator, and nothing
  reads the `skipLoading` flag that the service tables set. Only the
  ad-hoc request helper counts a request, and only when its `loading`
  argument is omitted (it defaults to `true`) or truthy
  (`Api.SkipLoadingIgnored`, `RequestHook.LoadingPaired`).
- **Where the failure message comes from.** The transport reads only the
  response's `data.message`, falls back to "An error occurred", and
  rejects with the message string itself, not with an error object
  (`Api.FailureMessage`, `Api.Settle`).
- **A 401 shows no toast.** On a 401 the transport removes the stored
  token and sends the browser to /login; every other failure shows exactly
  one error toast (`Api.InterceptResponse`).
- **URL functions are not resolved.** A mutation whose URL is a function
  passes that function to the HTTP client unchanged
  (`ServiceHooks.MutationRequest`).
- **Success handler order.** The mutation wrapper invalidates, then calls
  the caller's `onSuccess`, then shows the success toast. Because the
  caller's options are spread last, a caller `onSuccess` replaces the
  whole wrapper (`Api.WrapperOrder`, `Api.CallerOnSuccessReplacesWrapper`).
- **Idle is signalled on every stop at 0.** `stopLoading` lowers the flag
  again on every stop that leaves the count at 0, a redundant stop at 0
  included (`Loading.Stop`).

## Model

| member | source | states |
|---|---|---|
| JsValues.Get | src/services/api.js:72 | reading an absent option gives `undefined`, a present one its value |
| JsValues.Spread | src/services/api.js:44-52 | `{...base, ...over}` has the keys of both, `over`'s value wherever it has one, `base`'s elsewhere |
| JsValues.Member | src/services/postService.js:82 | `data.id` throws exactly on `null`/`undefined`; on an object it is the property or `undefined` |
| JsValues.OptionalMember | src/components/PostCard/PostCard.jsx:38 | `v?.k` is `undefined` on a nullish value and the property read otherwise |
| JsValues.FormGet | src/services/postService.js:68 | `FormData.get` gives the first value stored under the name, and `null` when no entry has it |
| JsValues.TrimEmptyIff | src/pages/CreatePost.jsx:140 | `s.trim()` is empty exactly when every character of `s` is white space or a line terminator |
| Endpoints.PostById | src/constants/apiEndpoints.js:13 | the path is "posts/" followed by the rendered id |
| Endpoints.UserPosts | src/constants/apiEndpoints.js:14 | the path is "users/", the rendered id, then "/posts" |
| Endpoints.CommentById | src/constants/apiEndpoints.js:18 | the path is "comments/" followed by the rendered id |
| Endpoints.PostComments | src/constants/apiEndpoints.js:19 | the path is "posts/", the rendered id, then "/comments" |
| Endpoints.Between | src/constants/apiEndpoints.js:13-19 | the inverse of the builders: it finds an id exactly when the path has the builder's prefix and suffix |
| Endpoints.BuildersRoundTrip | src/constants/apiEndpoints.js:13-19 | reading the id back out of every built path gives the rendered id |
| Endpoints.BuildersInjective | src/constants/apiEndpoints.js:13-19 | distinct string ids give distinct paths, for all four builders |
| Endpoints.NullIdCollides | src/constants/apiEndpoints.js:13 | a `null` id and the string "null" give the same path |
| Endpoints.HeaderBuildersDifferOnlyInContentType | src/constants/apiEndpoints.js:24-31 | the two header sets agree on everything but Content-Type, and a missing token becomes the string "null" |
| Browser.Window.GetItem | src/services/api.js:17 | `localStorage.getItem` is `null` exactly for an absent key, else the stored string |
| Browser.Window.SetItem | src/services/authService.js:9 | `setItem` stores the value's string form under the key and changes nothing else |
| Browser.Window.RemoveItem | src/services/api.js:32 | `removeItem` removes exactly that key |
| Browser.Window.Show | src/services/api.js:36 | a toast is appended to the shown toasts |
| Browser.Window.Navigate | src/components/Protect/Protect.Route.jsx:15 | a navigation is appended to the router's log |
| Browser.Window.Assign | src/services/api.js:33 | assigning `window.location.href` sets the location only |
| Closures.NonCallable | src/services/api.js:75 | `f?.()` on a non-function does nothing for `null`/`undefined` and throws otherwise |
| Closures.ThrowEndsRun | src/services/api.js:71-82 | once a handler throws, nothing further happens: a TypeError is always the last effect of any call |
| Closures.CallOptional | src/services/api.js:75 | an absent handler does nothing; a function runs |
| Closures.BuildUrl | src/services/postService.js:67-70 | a URL function throws exactly when the data is `null` or `undefined` |
| Closures.UpdatePostUrlSource | src/services/postService.js:67-70 | UpdatePost reads the id from a FormData's "id" entry ("null" without one) and from `data.id` otherwise |
| Loading.Start | src/contexts/LoadingContext.jsx:12-17 | the count goes up by one; the flag is raised, with a notification, only on the 0 to 1 step |
| Loading.Stop | src/contexts/LoadingContext.jsx:19-24 | the count goes down by one but never below 0; at 0 the flag is lowered and notified, a redundant stop included |
| Loading.ApplyMakesExact | src/contexts/LoadingContext.jsx:12-24 | after any start or stop, `loading == (count > 0)` |
| Loading.RunMakesExact | src/contexts/LoadingContext.jsx:12-24 | after any non-empty sequence of starts and stops the flag is exact |
| Loading.StartsFromIdle | src/contexts/LoadingContext.jsx:12-17 | k starts from idle give count k and exactly one busy notification |
| Loading.StopsKeepBusy | src/contexts/LoadingContext.jsx:19-24 | stops that leave requests outstanding touch neither the flag nor the notifications |
| Loading.StopsToIdle | src/contexts/LoadingContext.jsx:19-24 | j stops on a count of j reach 0 with exactly one idle notification |
| Loading.BalancedBurstNotifiesOnce | src/contexts/LoadingContext.jsx:12-24 | k starts then k stops return to count 0 with the flag down, notifying busy once and idle once |
| Loading.MatchedRunCountsOutstanding | src/contexts/LoadingContext.jsx:12-24 | under any interleaving where each stop follows its start, the count is the number outstanding and the flag says whether any is |
| Loading.LoadingProvider.constructor | src/contexts/LoadingContext.jsx:9-10 | the provider starts with count 0 and `loading == (token !== undefined)` |
| Loading.LoadingProvider.StartLoading | src/contexts/LoadingContext.jsx:12-17 | the provider's state moves as `Start` says, and afterwards `loading == (count > 0)` |
| Loading.LoadingProvider.StopLoading | src/contexts/LoadingContext.jsx:19-24 | the provider's state moves as `Stop` says, and afterwards `loading == (count > 0)` |
| Api.BearerRoundTrip | src/services/api.js:19 | the token is read back unchanged from the `Bearer` credentials of section 2.1 of RFC 6750 |
| Api.AttachToken | src/services/api.js:16-22 | a stored token adds an `Authorization` header carrying exactly that token; without one the request is unchanged; no other header is touched |
| Api.MutationRequest | src/services/api.js:61-68 | a mutation sends its method, URL and variables as given, with a `token` header holding the raw stored value |
| Api.FailureMessage | src/services/api.js:28 | the message is the server's truthy `message`, else "An error occurred", also without a response |
| Api.Settle | src/services/api.js:26-39 | a response is unwrapped to its payload; a failure rejects with the (always truthy) message itself |
| Api.InterceptResponse | src/services/api.js:25-41 | a 401 removes the token and goes to /login without a toast; any other failure shows exactly one error toast with the message |
| Api.NormalizeKey | src/services/api.js:46 | an array key is kept, any other key is wrapped in a one-element array |
| Api.NormalizeKeyIdempotent | src/services/api.js:46 | normalising a normalised key changes nothing |
| Api.QueryOptions | src/services/api.js:44-53 | the key and fetch are set unless the caller's options replace them; every caller option wins |
| Api.MutationOptions | src/services/api.js:56-85 | the wrapper handlers are set unless the caller's options replace them; every caller option wins |
| Api.WrapperOrder | src/services/api.js:71-79 | on success: invalidate, then the caller's `onSuccess`, then the success toast |
| Api.WrapperInEffect | src/services/api.js:71-79 | without a caller `onSuccess`, success invalidates if configured and toasts if configured, in that order |
| Api.CallerOnSuccessReplacesWrapper | src/services/api.js:71-83 | a caller `onSuccess` runs alone: no invalidation and no toast |
| Api.SkipLoadingIgnored | src/services/api.js:56-85 | removing `skipLoading` changes no other property of the mutation |
| Api.ErrorForwarding | src/services/api.js:80-82 | the wrapper `onError` does nothing without a caller handler and calls it otherwise |
| RequestHook.MethodOrDefault | src/hooks/useHandleApiRequest.js:12 | an `undefined` method becomes "GET"; any other is kept |
| RequestHook.BuildConfig | src/hooks/useHandleApiRequest.js:25-36 | JSON Content-Type unless the caller's headers replace it; a body exactly when truthy and the method is "POST", "PUT" or "PATCH" |
| RequestHook.LowerCaseMethodSendsNoBody | src/hooks/useHandleApiRequest.js:34 | the method comparison is case-sensitive: "post" and "patch" send no body |
| RequestHook.ErrorText | src/hooks/useHandleApiRequest.js:47-48 | the server's truthy `error`, else the error's message, else "Unknown error"; never falsy |
| RequestHook.Settle | src/hooks/useHandleApiRequest.js:38-53 | success returns the payload; failure never returns, and throws a TypeError when there is no response data |
| RequestHook.OutcomeSteps | src/hooks/useHandleApiRequest.js:38-53 | the outcome's handler steps end with storing the response or the error text |
| RequestHook.CoreSteps | src/hooks/useHandleApiRequest.js:22-53 | the error and response are reset before the request is sent |
| RequestHook.LoadingOrDefault | src/hooks/useHandleApiRequest.js:18 | an omitted `loading` argument becomes `true`; any other is kept |
| RequestHook.CountsIff | src/hooks/useHandleApiRequest.js:18-20 | the request counts in the indicator exactly when a provider is present and `loading` is omitted or truthy |
| RequestHook.LoadingPaired | src/hooks/useHandleApiRequest.js:18-56 | on both outcomes there is one start and one stop when a provider is present and `loading` is omitted or truthy, neither otherwise |
| RequestHook.LoadingBracketsCall | src/hooks/useHandleApiRequest.js:18-59 | the start comes first, the stop after the outcome, and `onFinally` last; a request that does not count neither starts nor stops the indicator |
| RequestHook.ResetBeforeSend | src/hooks/useHandleApiRequest.js:22-23 | `error` and `response` are reset to null, and the request is sent once with the built configuration |
| RequestHook.RequestHook.constructor | src/hooks/useHandleApiRequest.js:6-7 | `response` and `error` start as null |
| RequestHook.RequestHook.Exchange | src/hooks/useHandleApiRequest.js:22-53 | after the request, `response` holds the response on success and `error` holds the error text on failure |
| RequestHook.RequestHook.HandleApiRequest | src/hooks/useHandleApiRequest.js:10-62 | the call takes the steps of `RequestSteps` in order, settles as `Settle`, and leaves the provider's count as it found it, with `loading` defaulting to `true` |
| ServiceHooks.ServiceQuery | src/services/postService.js:21-32 | the caller overrides every default, but `onSuccess` always forwards to the caller's |
| ServiceHooks.QueryOnSuccessForwards | src/services/postService.js:29-31 | a service query's `onSuccess` runs the caller's handler and nothing else |
| ServiceHooks.Configure | src/services/postService.js:55-62 | a mutation table followed by `...options`: the caller wins on every entry |
| ServiceHooks.TableSuccessEffects | src/services/api.js:71-79 | without caller overrides a mutation invalidates what its table lists, then shows the table's message |
| ServiceHooks.CallerOnSuccessSilencesTable | src/services/api.js:83 | a caller `onSuccess` silences the table's invalidation and message |
| ServiceHooks.MutationRequest | src/services/api.js:60-69 | a mutation sends its method and its URL as written, a URL function included, never resolved |
| PostService.GetPost | src/services/postService.js:4-17 | key ["post", id], GET /posts/<id>, enabled exactly when the id is truthy, unless the caller sets these |
| PostService.PostPolicy | src/services/postService.js:4-17 | the single-post query has the feed's polling defaults, the caller wins on all but `onSuccess`, and the final `onSuccess` forwards to the caller's |
| PostService.GetAllPosts | src/services/postService.js:20-33 | key ["posts"], GET /posts, and no `enabled` entry unless the caller gives one |
| PostService.GetUserPosts | src/services/postService.js:35-53 | key ["userPosts", id], GET /users/<id>/posts, enabled exactly when the id is truthy |
| PostService.UserPostsPolicy | src/services/postService.js:35-53 | the user's-posts query has the feed's polling defaults, the caller wins on all but `onSuccess`, and the final `onSuccess` forwards to the caller's |
| PostService.AllPostsPolicy | src/services/postService.js:21-32 | no refetch on focus or mount, 3000 ms polling, `staleTime` 0, `gcTime` 300000 and structural sharing by default; the caller wins on all but `onSuccess`, and the final `onSuccess` forwards to the caller's |
| PostService.CreatePostSucceeds | src/services/postService.js:55-62 | invalidates ["posts"] only, then shows "Post created successfully!" |
| PostService.UpdatePostSucceeds | src/services/postService.js:64-77 | invalidates "posts" and ["userPosts"] and shows no message |
| PostService.DeletePostSucceeds | src/services/postService.js:79-90 | invalidates "posts" and ["userPosts"], then shows "Post deleted successfully!" |
| PostService.LikePostSucceeds | src/services/postService.js:92-102 | invalidates "posts" and ["userPosts"] and shows no message |
| PostService.CreateCommentSucceeds | src/services/postService.js:104-111 | invalidates "posts" and ["userPosts"], then shows "Comment added successfully!" |
| PostService.UpdateCommentSucceeds | src/services/postService.js:113-119 | invalidates "posts" and ["userPosts"], then shows "Comment updated successfully!" |
| PostService.DeleteCommentSucceeds | src/services/postService.js:121-132 | invalidates "posts" and ["userPosts"], then shows "Comment deleted successfully!" |
| PostService.UpdateCommentUrlFixed | src/services/postService.js:113-114 | UpdateComment's URL is fixed from the comment id, whatever the data |
| PostService.SkipLoadingFlags | src/services/postService.js:113-118 | only UpdateComment leaves `skipLoading` unset; every other mutation sets it to true |
| ProfileService.GetProfile | src/services/profileService.js:4-14 | key ["profile"], GET /users/profile-data, 3000 ms polling and `staleTime` 0 unless the caller sets them |
| ProfileService.GetProfileForwards | src/services/profileService.js:10-12 | the final `onSuccess` always forwards to the caller's, even when the caller passed one |
| ProfileService.UploadPhotoSucceeds | src/services/profileService.js:16-22 | a photo upload invalidates ["profile"] and shows no message |
| ProfileService.ChangePasswordSucceeds | src/services/profileService.js:24-29 | a password change invalidates nothing and shows its success message |
| ProfileService.ProfileMutationRequests | src/services/profileService.js:16-29 | the upload is a PUT and the password change a PATCH of their fixed paths |
| AuthService.Login | src/services/authService.js:4-14 | POST /users/signin; its `onSuccess` is the token-persisting one, whatever the caller passes |
| AuthService.Signup | src/services/authService.js:16-23 | POST /users/signup; its `onSuccess` only forwards |
| AuthService.LoginSuccessEffects | src/services/authService.js:7-12 | the token is stored exactly when truthy, then the caller's `onSuccess` runs in either case |
| AuthService.LoginNeverInvalidatesOrToasts | src/services/authService.js:4-14 | login never invalidates a cache or shows a success toast |
| AuthService.SignupForwardsOnly | src/services/authService.js:19-21 | sign-up success calls the caller's `onSuccess` and nothing else |
| AuthService.AuthRequests | src/services/authService.js:4-17 | both hooks POST their fixed path with the variables as body |
| AuthService.PersistLoginToken | src/services/authService.js:8-10 | a truthy `data.token` is written under "access_token"; nothing else changes |
| AuthContext.ProfileQuery | src/contexts/AuthContext.jsx:18-22 | the profile query is enabled exactly when a token is stored, never retried, stale after 5 minutes, polling every 3000 ms |
| AuthContext.AuthProvider.constructor | src/contexts/AuthContext.jsx:13-17 | the token is read from storage; user data and error start as null |
| AuthContext.AuthProvider.ApplyProfile | src/contexts/AuthContext.jsx:25-32 | a successful load with data sets the user data; otherwise an error clears it; otherwise nothing changes |
| AuthContext.AuthProvider.CheckToken | src/contexts/AuthContext.jsx:39-52 | with a stored token it takes the token, clears the error and answers true; with none, false and no change; when storage throws, false with the caught error's message or "Token check failed" |
| AuthContext.AuthProvider.Login | src/contexts/AuthContext.jsx:54-61 | a truthy token is persisted and held (true); a falsy one changes nothing (false); then `isAuthenticated` follows the user data or loading |
| AuthContext.AuthProvider.Logout | src/contexts/AuthContext.jsx:63-72 | the persisted token is removed, token, user data and error are null, and the session is not authenticated; when storage throws, nothing else changes and the error is the caught message or "Logout failed" |
| AuthContext.CaughtError | src/contexts/AuthContext.jsx:49 | the caught error's truthy message, else the fallback; never falsy |
| ProtectRoute.Decide | src/components/Protect/Protect.Route.jsx:11-28 | redirect exactly when no token, or not authenticated with user data; keep checking exactly when a token, not authenticated and user data null; never both |
| ProtectRoute.Guard.constructor | src/components/Protect/Protect.Route.jsx:9 | the guard starts out checking and renders the verifying view |
| ProtectRoute.Guard.Effect | src/components/Protect/Protect.Route.jsx:11-28 | the effect navigates and sets `isChecking` as the decision table says, and touches nothing else |
| ProtectRoute.GuardOverProviderState | src/components/Protect/Protect.Route.jsx:20-21 | while the profile loads a session with a token passes; after the profile fails the guard stays in the verifying view |
| LoginHook.Arguments | src/hooks/useLogin.js:14-16 | a form event takes the e-mail from the second argument and a `null` password |
| LoginHook.FormEventIncomplete | src/hooks/useLogin.js:14-26 | a form event never passes validation |
| LoginHook.CaughtMessage | src/hooks/useLogin.js:47-49 | the caught error's truthy `error`, else "Login failed. Please try again." |
| LoginHook.StringRejectionFallsBack | src/hooks/useLogin.js:45-51 | a transport failure rejects with a string, so the hook reports the fallback, never the server's text |
| LoginHook.LoginHook.constructor | src/hooks/useLogin.js:6-7 | `loginData` and `error` start as null |
| LoginHook.LoginHook.Login | src/hooks/useLogin.js:11-53 | incomplete arguments are refused without a request; a truthy token is stored, handed to the session and returned; otherwise the fallback or caught message |
| SignupForm.FirstLine | src/pages/signup.jsx:21 | the longest prefix without a line terminator, the text a look-ahead's `.*?` can cross |
| SignupForm.SingleLinePattern | src/pages/signup.jsx:20-23 | on one line the pattern asks for an upper-case letter, a lower-case letter, a digit and one of `#?!@$%^&*-` |
| SignupForm.SecondLineIgnored | src/pages/signup.jsx:21 | a class that occurs only after a line break does not count |
| SignupForm.ReportedEmptyIff | src/pages/signup.jsx:13-34 | nothing is reported exactly when no rule failed |
| SignupForm.ReportedIff | src/pages/signup.jsx:13-34 | an issue is reported exactly when a rule carrying it failed |
| SignupForm.AcceptedIff | src/pages/signup.jsx:13-34 | the form is accepted exactly when the name, e-mail, password length and pattern, date of birth, repetition and gender rules all hold |
| SignupForm.MismatchOnRePassword | src/pages/signup.jsx:27-30 | "Passwords do not match" is reported, on `rePassword`, exactly when the passwords differ |
| SignupForm.SubmitRoutes | src/pages/signup.jsx:46-52 | navigation to /login happens exactly for an accepted form whose result is truthy without a truthy `error` |
| CreatePost.Classify | src/pages/CreatePost.jsx:23-37 | a file is acceptable exactly when present, of an allowed type and at most 5 MiB, the size compared as JavaScript's `>` converts it; it is unsupported exactly when present and not of an allowed type, whatever its size |
| CreatePost.ToNumber | src/pages/CreatePost.jsx:31 | the number `>` compares: numbers as they are, booleans 1 or 0, `null` 0, a string of decimal digits (blanks trimmed) its value, everything else NaN |
| CreatePost.DecimalRoundTrip | src/pages/CreatePost.jsx:31 | reading a natural number's decimal text back gives the number |
| CreatePost.SizeStringRoundTrip | src/pages/CreatePost.jsx:31 | a size given as its decimal string is compared exactly as the number |
| CreatePost.NumericStringSizeTooLarge | src/pages/CreatePost.jsx:31-34 | an allowed image whose size is the decimal string of any number over 5 MiB is rejected as too large |
| CreatePost.OversizedAllowedFile | src/pages/CreatePost.jsx:26-34 | an allowed image whose size exceeds the limit, of whatever kind, is too large |
| CreatePost.VerdictMessage | src/pages/CreatePost.jsx:26-33 | a message is left exactly for an unsupported type or an oversized file |
| CreatePost.SizeBoundary | src/pages/CreatePost.jsx:31-34 | exactly 5 MiB is accepted; one byte more is too large |
| CreatePost.TypeCheckedFirst | src/pages/CreatePost.jsx:26-34 | the type is checked before the size: a file refused for its type stays refused for its type whatever size it is given |
| CreatePost.SubmitDisabled | src/pages/CreatePost.jsx:140 | submit is disabled exactly while submitting, or when the body is blank and no image is selected |
| CreatePost.Composer.constructor | src/pages/CreatePost.jsx:15-19 | empty body and error, not submitting, no image and no preview |
| CreatePost.Composer.ValidateImage | src/pages/CreatePost.jsx:23-37 | true exactly for an acceptable file; a rejected one records its message |
| CreatePost.Composer.HandleImageChange | src/pages/CreatePost.jsx:39-51 | an acceptable file becomes the selection with its preview and clears the error; any other leaves the selection |
| CreatePost.Composer.RemoveImage | src/pages/CreatePost.jsx:53-62 | no image is selected and no preview is shown |
| CreatePost.Composer.ChangeBody | src/pages/CreatePost.jsx:88-89 | the body keeps at most its first 1000 characters |
| CommentView.WithDefault | src/components/PostCard/components/Comment.jsx:3-8 | a default replaces `undefined` only |
| CommentView.Creator | src/components/PostCard/components/Comment.jsx:9 | the comment's author object is never nullish |
| CommentView.AuthorizedWithoutOwner | src/components/PostCard/components/Comment.jsx:10-11 | without an owner id a viewer is authorised exactly when it is the author or has no id |
| CommentView.AlwaysAuthorizedInPostCard | src/components/PostCard/PostCard.jsx:162-170 | as the card renders it, every comment is authorised for deletion |
| CommentView.PhotoSource | src/components/PostCard/components/Comment.jsx:16-20 | a photo URL ending in "undefined" becomes the default image; other strings and nullish values pass through |
| CommentView.DisplayName | src/components/PostCard/components/Comment.jsx:29 | the author's truthy name, else "Unknown User" |
| CommentView.Content | src/components/PostCard/components/Comment.jsx:31 | the truthy content, else the empty string; reading it throws exactly for a `null` comment |
| PostCard.Source | src/components/PostCard/PostCard.jsx:24-33 | the fields are read from an object that is never nullish |
| PostCard.RendersIff | src/components/PostCard/PostCard.jsx:24-149 | the card renders without throwing exactly for a post object with a truthy body whose `user` is not `null`, whose `comments` are not `null`, whose truthy `comments` can be spread, and whose `likes`, for a viewer with an id, are an array or nullish |
| PostCard.MissingPostRendersNothing | src/components/PostCard/PostCard.jsx:33-102 | a falsy post renders nothing and does not throw |
| PostCard.NullAuthorThrows | src/components/PostCard/PostCard.jsx:93 | a post whose `user` is `null` throws while rendering |
| PostCard.NullCommentsThrow | src/components/PostCard/PostCard.jsx:149 | a post whose `comments` are `null` never renders, even when a `commentsCount` skips the first `length` read |
| PostCard.NonArrayLikesThrow | src/components/PostCard/PostCard.jsx:38 | for a viewer with an id, likes that are neither an array nor nullish make the card throw |
| PostCard.LikedByIff | src/components/PostCard/PostCard.jsx:38 | `likes.some(...)` holds exactly when some like's `user` is the viewer's id |
| PostCard.IsLiked | src/components/PostCard/PostCard.jsx:36-41 | not liked without a viewer id or likes; it throws exactly for likes that are neither an array nor nullish |
| PostCard.IsLikedIff | src/components/PostCard/PostCard.jsx:36-41 | liked exactly when the viewer has an id and some like carries it |
| PostCard.Displayed | src/components/PostCard/PostCard.jsx:97-99 | all comments when expanded, else the first two |
| PostCard.ShowMoreWhenHidden | src/components/PostCard/PostCard.jsx:97-100 | a collapsed list hides a comment exactly when "view more" is offered |
| PostCard.ExpandedSmallListStaysExpanded | src/components/PostCard/PostCard.jsx:174-190 | a post of three to five comments, once expanded, offers no way back |
| PostCard.RenderedIds | src/components/PostCard/PostCard.jsx:151-172 | every rendered comment has a truthy id |
| PostCard.RenderedIdsIff | src/components/PostCard/PostCard.jsx:159 | an id is rendered exactly when it is truthy and some shown comment has it |
| PostCard.FailureText | src/components/PostCard/PostCard.jsx:71 | the rejection's truthy message, else the fallback; reading it throws exactly on a nullish rejection |
| PostCard.FailureToasts | src/components/PostCard/PostCard.jsx:69-72 | a caught rejection shows one error toast with that text, none when reading it throws |
| PostCard.Card.constructor | src/components/PostCard/PostCard.jsx:21-22 | comments collapsed and an empty comment input |
| PostCard.Card.HandleDeletePost | src/components/PostCard/PostCard.jsx:43-50 | after confirmation the parent deletes the post exactly when the viewer's id equals the author's (`MayDeletePost`); otherwise an error toast |
| PostCard.Card.HandleLike | src/components/PostCard/PostCard.jsx:52-58 | a signed-in viewer toggles the like; anyone else gets an error toast |
| PostCard.Card.HandleAddComment | src/components/PostCard/PostCard.jsx:60-75 | a blank comment is not sent; success clears the input and toasts; failure keeps it and toasts the error |
| PostCard.Card.HandleDeleteComment | src/components/PostCard/PostCard.jsx:77-94 | after confirmation a comment is deleted only when its author is the post's author; otherwise an error toast |
| PostCard.Card.ShowMore | src/components/PostCard/PostCard.jsx:176 | "view more" expands the list |
| PostCard.Card.ShowFewer | src/components/PostCard/PostCard.jsx:185 | "show fewer" collapses it |
| PostCard.DeleteButtonImpliesAllowed | src/components/PostCard/PostCard.jsx:111-113 | the delete control is only shown to a viewer whom the delete handler's gate lets through; a viewer and author without ids pass the gate but see no control |

## Left out

- The HTTP client and the query library are not modelled. This covers
  transport, timeouts, caching, polling timers, staleness, garbage
  collection, structural sharing, de-duplication, and how an invalidation
  filter matches keys. Only the option values and the call order that the
  client's own code sets up are modelled. `Api.DefaultBaseUrl` and
  `Api.TimeoutMs` are recorded but have no effect.
- src/config.js is not part of this model. The base URL it supplies is
  therefore not used either.
- The `useAuth` and `useLoading` hooks are not part of this model. What
  they give is an input: the viewer, the token, and whether a loading
  provider is present. The login hook assumes `useAuth` returns the session
  of `AuthContext.AuthProvider`.
- Browser APIs are inputs. `window.confirm` answers, the preview URL from
  `URL.createObjectURL`, `revokeObjectURL`, the file input reset,
  `console` output and `preventDefault` calls are not modelled.
- React's scheduling is not modelled. State updates take effect at once,
  and memoisation and effect timing are not modelled.
- Markup-only files, the other pages and hooks, and the validation
  libraries are not modelled. Whether an e-mail is well formed is an input
  of `SignupForm`.
- Values are simplified.
  - Numbers are integers, so fractions do not arise. NaN appears only as a size that does not convert (`CreatePost.ToNumber` gives `None`).
  - Strings are sequences of characters, not UTF-16 code units.
  - Value equality stands for `===`, so two equal objects count as the same
    object.
  - A function's text, as `String(f)` renders it, is "function".
- Handlers receive only their first argument. The `variables` and `context`
  arguments are not modelled.
- Comment.jsx passes the comment's `_id` to its delete callback. The card's
  callback ignores that argument, so it is not modelled.
- The composer's submit handler is not in the source. `isSubmitting`
  therefore never changes.
- RequestHook.OutcomeSteps: states only the final step of each outcome. The callback step before it is stated through `RequestHook.RequestHook.HandleApiRequest`, which is tied to the full step function.
- LoginHook.LoginHook.Login: after a failed request it does not restate the storage, location and toasts. `Api.InterceptResponse`, which it calls, states them.
- PostCard.Card.HandleDeleteComment: a rejection from the parent on a confirmed delete is stated through `PostCard.FailureToasts`. When the post's `user` is `null`, the card throws while rendering (`PostCard.NullAuthorThrows`), so the handler is never reached; the model's "nothing happens" branch for it is unreachable from a rendered card.
- RequestHook.RequestHook.Exchange and RequestHook.RequestHook.HandleApiRequest: component callbacks are taken to return normally. A throwing `onSuccess` would send a successful response down the `catch` path (`onError` runs, `error` is set, the response is not stored, and the call rejects); that path is not modelled.
- PostCard.IsLiked: when `likes` is an array, the result is stated by `PostCard.IsLikedIff`, not by its own contract.
- CreatePost.ToNumber: strings with a sign, a fraction, an exponent, a hex prefix or "Infinity", and arrays, are treated as NaN, so such sizes are never too large. Numbers are integers in this model.
- AuthContext.AuthProvider.CheckToken and AuthContext.AuthProvider.Logout: a storage failure is an input, given as the thrown error's `message` value. Other storage calls are taken not to throw.
