/**
  The profile hooks (src/services/profileService.js): the profile query, and
  the photo upload and password change mutations.
*/
module ProfileService {

  import opened JsValues
  import opened Closures
  import opened ServiceHooks
  import Endpoints
  import Api

  /** The profile query's polling defaults. */
  const ProfileDefaults: Options := map[
    RefetchInterval := Num(3000),
    StaleTime := Num(0),
    StructuralSharing := Bool(true)
  ]

  /**
    `useGetProfile(options)`: key ["profile"], GET /users/profile-data, polling
    every 3000 ms with `staleTime` 0 unless the caller sets them.
  */
  function GetProfile(options: Options): (r: Options)
    ensures QueryKey in r && QueryFn in r && RefetchInterval in r && StaleTime in r
    ensures QueryKey !in options ==> r[QueryKey] == Arr([Str("profile")])
    ensures QueryFn !in options ==> r[QueryFn] == Fn(QueryFetch("/" + Endpoints.Profile))
    ensures r[RefetchInterval] == if RefetchInterval in options then options[RefetchInterval] else Num(3000)
    ensures r[StaleTime] == if StaleTime in options then options[StaleTime] else Num(0)
  {
    assert QueryKey !in ProfileDefaults && QueryFn !in ProfileDefaults;
    assert ProfileDefaults[RefetchInterval] == Num(3000) && ProfileDefaults[StaleTime] == Num(0);
    ServiceQuery(Str("profile"), "/" + Endpoints.Profile, ProfileDefaults, options)
  }

  /**
    The profile query's `onSuccess` is always the forwarding one, even when the
    caller passes its own: the caller's handler then runs, and nothing else.
  */
  lemma GetProfileForwards(options: Options, data: Value)
    ensures Api.SuccessEffects(GetProfile(options), data) == CallOptional(Get(options, OnSuccess), data)
    ensures forall name :: OnSuccess in options && options[OnSuccess] == Fn(Callback(name)) ==>
              Api.SuccessEffects(GetProfile(options), data) == [Called(name, data)]
  {
    QueryOnSuccessForwards(Str("profile"), "/" + Endpoints.Profile, ProfileDefaults, options, data);
  }

  const ProfileKeys: Value := Arr([Str("profile")])

  const UploadPhotoHook := MutationHook("put", Path("/" + Endpoints.UploadPhoto),
                                        map[SkipLoading := Bool(true), InvalidateQueries := ProfileKeys])
  const ChangePasswordHook := MutationHook("patch", Path("/" + Endpoints.ChangePassword),
                                           map[SuccessMessage := Str("Password changed successfully!")])

  /** `useUploadPhoto(options)`: PUT /users/upload-photo. */
  function UploadPhoto(options: Options): Options {
    Configure(UploadPhotoHook, options)
  }

  /** `useChangePassword(options)`: PATCH /users/change-password. */
  function ChangePassword(options: Options): Options {
    Configure(ChangePasswordHook, options)
  }

  /** A photo upload invalidates ["profile"] and shows no message. */
  lemma UploadPhotoSucceeds(options: Options, data: Value)
    requires NoSuccessOverride(options)
    ensures Api.SuccessEffects(UploadPhoto(options), data) == [Invalidated(ProfileKeys)]
  {
    TableSuccessEffects(UploadPhotoHook, options, data);
  }

  /** A password change invalidates nothing and shows "Password changed successfully!". */
  lemma ChangePasswordSucceeds(options: Options, data: Value)
    requires NoSuccessOverride(options)
    ensures Api.SuccessEffects(ChangePassword(options), data) == [ToastedSuccess(Str("Password changed successfully!"))]
  {
    TableSuccessEffects(ChangePasswordHook, options, data);
  }

  /** The two mutations send a PUT and a PATCH of their fixed paths, with the variables as body. */
  lemma ProfileMutationRequests(data: Value)
    ensures Run(UploadPhoto(map[])[MutationFn].closure, data) == [Requested("put", Path("/" + Endpoints.UploadPhoto), data)]
    ensures Run(ChangePassword(map[])[MutationFn].closure, data) == [Requested("patch", Path("/" + Endpoints.ChangePassword), data)]
  {
    MutationRequest(UploadPhotoHook, map[], data);
    MutationRequest(ChangePasswordHook, map[], data);
  }
}
