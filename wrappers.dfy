/**
  Stock optional-value datatype used across the model. `None` has no fixed
  JavaScript meaning: each use says what it stands for, such as a property
  read that throws a TypeError (`JsValues.Member`), NaN
  (`CreatePost.ToNumber`), an absent request body (`RequestHook.Config`) or
  a callback that settles without a rejection (`PostCard.Card`).
*/
module Wrappers {

  datatype Option<+T> = None | Some(value: T)
}
