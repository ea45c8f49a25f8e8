/** `useEntitlements`: the client hook that loads the caller's entitlements.
    Its state is a tagged union: the entitlements are present exactly when
    loaded, and the error text exactly after a failure. `refresh` moves the
    state to loading and then to ready or error. */
module UseEntitlements {
  import opened Common
  import opened EntitlementCheck

  datatype Status = Idle | Loading | Ready | Failed

  const NoTokenText: string := "Not logged in (no access token)"
  const LoadFailedText: string := "Failed to load entitlements"

  /** The hook's state, updated by `setState`. */
  class Hook {
    var status: Status
    var entitlements: Option<EntitlementsResponse>
    var error: Option<string>

    /** The four shapes of `State`. */
    predicate Valid()
      reads this
    {
      && (entitlements.Some? <==> status == Ready)
      && (error.Some? <==> status == Failed)
    }

    /** `useState<State>({ status: "idle", entitlements: null, error: null })`. */
    constructor ()
      ensures Valid()
      ensures status == Idle && entitlements.None? && error.None?
    {
      status := Idle;
      entitlements := None;
      error := None;
    }

    /** The first `setState` of `refresh`. */
    method Begin()
      modifies this
      ensures Valid()
      ensures status == Loading && entitlements.None? && error.None?
    {
      status := Loading;
      entitlements := None;
      error := None;
    }

    /** The rest of `refresh`. `token` is the outcome of reading the session's
        access token and `fetched` that of `fetchEntitlements`, which is
        consulted only when a token was found. `didFetch` reports whether the
        fetch ran. */
    method Complete(token: Try<Option<string>>, fetched: Try<EntitlementsResponse>) returns (didFetch: bool)
      requires Valid() && status == Loading
      modifies this
      ensures Valid()
      ensures didFetch <==> token.Returned? && Truthy(token.value)
      ensures token.Threw? ==> status == Failed && error == Some(OrElse(Some(token.message), LoadFailedText))
      ensures token.Returned? && !Truthy(token.value) ==> status == Failed && error == Some(NoTokenText)
      ensures didFetch && fetched.Returned? ==> status == Ready && entitlements == Some(fetched.value)
      ensures didFetch && fetched.Threw? ==> status == Failed && error == Some(OrElse(Some(fetched.message), LoadFailedText))
    {
      didFetch := false;
      if token.Threw? {
        SetFailed(token.message);
        return;
      }
      if !Truthy(token.value) {
        status, entitlements, error := Failed, None, Some(NoTokenText);
        return;
      }
      didFetch := true;
      if fetched.Threw? {
        SetFailed(fetched.message);
        return;
      }
      status, entitlements, error := Ready, Some(fetched.value), None;
    }

    /** The `catch` of `refresh`: the exception's message, or the default
        text when it has none. */
    method SetFailed(message: string)
      modifies this
      ensures Valid()
      ensures status == Failed && entitlements.None? && error == Some(OrElse(Some(message), LoadFailedText))
      ensures error.value != ""
    {
      status, entitlements, error := Failed, None, Some(if message != "" then message else LoadFailedText);
    }

    /** `refresh()` from any state. */
    method Refresh(token: Try<Option<string>>, fetched: Try<EntitlementsResponse>) returns (didFetch: bool)
      requires Valid()
      modifies this
      ensures Valid()
      ensures status == Ready <==> token.Returned? && Truthy(token.value) && fetched.Returned?
      ensures status == Ready ==> entitlements == Some(fetched.value)
      ensures status != Ready ==> status == Failed && error.Some? && error.value != ""
      ensures didFetch <==> token.Returned? && Truthy(token.value)
      // the error texts: the session read's exception, no token, the fetch's exception
      ensures token.Threw? ==> error == Some(OrElse(Some(token.message), LoadFailedText))
      ensures token.Returned? && !Truthy(token.value) ==> error == Some(NoTokenText)
      ensures didFetch && fetched.Threw? ==> error == Some(OrElse(Some(fetched.message), LoadFailedText))
    {
      Begin();
      didFetch := Complete(token, fetched);
    }
  }
}
