/** The `Option` monad of monads/option.ts and its combinators. */
module OptionMonad {
  import ResultMonad

  /** `none` and `some(value)`. */
  datatype Option<+T> = None | Some(value: T)

  /** A JavaScript value that may also be `undefined` or `null`. */
  datatype Nullable<+T> = Undefined | Null | Defined(value: T)

  /** `toOptional(fn)`: lifts a type guard into a function that keeps its
      argument exactly when the guard accepts it. */
  function ToOptional<T(!new)>(guard: T -> bool): (f: T -> Option<T>)
    ensures forall x :: f(x).Some? <==> guard(x)
    ensures forall x :: f(x).Some? ==> f(x).value == x
  {
    x => if guard(x) then Some(x) else None
  }

  /** The guard of `optionalDefined`: neither `undefined` nor `null`. */
  predicate IsDefined<T>(x: Nullable<T>) {
    !x.Undefined? && !x.Null?
  }

  /** `optionalDefined(x)`: `some(x)` unless `x` is `undefined` or `null`. */
  function OptionalDefined<T(!new)>(x: Nullable<T>): (r: Option<Nullable<T>>)
    ensures r.Some? <==> x.Defined?
    ensures r.Some? ==> r.value == x
    ensures r.None? <==> x.Undefined? || x.Null?
  {
    ToOptional(IsDefined)(x)
  }

  /** `unwrap(option)`; unwrapping `none` throws, so callers must pass a `some`. */
  function Unwrap<T>(option: Option<T>): (r: T)
    requires option.Some?
    ensures option == Some(r)
  {
    option.value
  }

  /** `unwrapOr(option, defaultValue)`. */
  function UnwrapOr<T>(option: Option<T>, defaultValue: T): (r: T)
    ensures option.Some? ==> r == option.value
    ensures option.None? ==> r == defaultValue
  {
    match option
    case Some(v) => v
    case None => defaultValue
  }

  /** `unwrapOrElse(option, fn)`: `fn` supplies the value only for `none`. */
  function UnwrapOrElse<T>(option: Option<T>, fn: () -> T): (r: T)
    ensures option.Some? ==> r == option.value
    ensures option.None? ==> r == fn()
  {
    match option
    case Some(v) => v
    case None => fn()
  }

  /** `unwrapExpect(option, message)`: like `unwrap`, but a `none` would
      throw an error carrying `message`; callers must pass a `some`. */
  function UnwrapExpect<T>(option: Option<T>, message: string): (r: T)
    requires option.Some?
    ensures option == Some(r)
  {
    option.value
  }

  /** `unwrapWithResult(option, error)`. */
  function UnwrapWithResult<T, E>(option: Option<T>, error: E): (r: ResultMonad.Result<T, E>)
    ensures option.Some? <==> r.Ok?
    ensures option.Some? ==> r == ResultMonad.Ok(option.value)
    ensures option.None? ==> r == ResultMonad.Error(error)
  {
    match option
    case Some(v) => ResultMonad.Ok(v)
    case None => ResultMonad.Error(error)
  }

  /** The three ways of unwrapping agree: `unwrapOr` is `unwrapWithResult`
      followed by replacing the error with the default, `unwrapOrElse` with a
      constant function is `unwrapOr`, and on a `some` all return what
      `unwrap` returns. */
  lemma UnwrapFamilyAgrees<T, E>(option: Option<T>, defaultValue: T, error: E)
    ensures UnwrapOr(option, defaultValue)
            == match UnwrapWithResult(option, error)
               case Ok(v) => v
               case Error(_) => defaultValue
    ensures UnwrapOrElse(option, () => defaultValue) == UnwrapOr(option, defaultValue)
    ensures option.Some? ==> Unwrap(option) == UnwrapOr(option, defaultValue)
                             && UnwrapExpect(option, "") == Unwrap(option)
  {
  }

  /** `optionalDefined` followed by `unwrapOr` with a default gives the value
      back when it is defined and the default otherwise. */
  lemma OptionalDefinedRoundTrip<T(!new)>(x: Nullable<T>, defaultValue: Nullable<T>)
    ensures UnwrapOr(OptionalDefined(x), defaultValue) == if x.Defined? then x else defaultValue
  {
  }
}
