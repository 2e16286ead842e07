/**
 * The sign-in page (src/pages/Login.tsx): its error message, its
 * "processing" flag, and when it shows a spinner instead of the button.
 */
module Login {
  import opened Wrappers
  import Auth
  import Storage

  const GenericLoginError := "Authentication error. Please try again."

  /**
   * The page's message for an OAuth error code, with the generic fallback for
   * every code outside the table (src/pages/Login.tsx:21-31), which is what the
   * lookup is meant to give; `LoginErrorLookup` is the lookup as written.
   */
  function LoginErrorMessage(code: string): (msg: string)
    ensures code == "access_denied" ==> msg == "Access denied. Authentication failed."
    ensures code == "token_generation_failed" ==> msg == "Authentication failed. Please try again."
    ensures code == "authentication_failed" ==> msg == "Authentication failed. Please contact support if this continues."
    ensures msg == GenericLoginError <==>
              code != "access_denied" && code != "token_generation_failed" && code != "authentication_failed"
  {
    if code == "access_denied" then "Access denied. Authentication failed."
    else if code == "token_generation_failed" then "Authentication failed. Please try again."
    else if code == "authentication_failed" then "Authentication failed. Please contact support if this continues."
    else GenericLoginError
  }

  /** The names a plain object literal inherits from `Object.prototype`, apart from `__proto__`; each reads as a function. */
  const InheritedMethods := ["constructor", "hasOwnProperty", "isPrototypeOf", "propertyIsEnumerable",
                             "toLocaleString", "toString", "valueOf", "__defineGetter__", "__defineSetter__",
                             "__lookupGetter__", "__lookupSetter__"]

  /** A value `setError` can receive: text, a function inherited by the literal, or `Object.prototype` itself. */
  datatype ErrorValue = Message(text: string) | InheritedMethod(name: string) | PrototypeObject

  /**
   * The lookup as the page writes it (src/pages/Login.tsx:21-31): the code
   * indexes a plain object literal, so an inherited name finds a truthy
   * non-string value before the `||` fallback is reached.
   */
  function LoginErrorLookup(code: string): (v: ErrorValue)
    ensures v.Message? <==> code !in InheritedMethods && code != "__proto__"
    ensures v.Message? ==> v.text == LoginErrorMessage(code)
  {
    if code in InheritedMethods then InheritedMethod(code)
    else if code == "__proto__" then PrototypeObject
    else Message(LoginErrorMessage(code))
  }

  /**
   * `?error=constructor` sets a function and `?error=__proto__` an object as
   * the error, where the generic message was meant; rendering that object
   * as the message paragraph's child throws.
   */
  lemma InheritedCodesNotGeneric()
    ensures LoginErrorLookup("constructor") == InheritedMethod("constructor")
    ensures LoginErrorLookup("__proto__") == PrototypeObject
    ensures LoginErrorMessage("constructor") == GenericLoginError && LoginErrorMessage("__proto__") == GenericLoginError
  {
  }

  /**
   * The page's table and the provider's agree on every code but
   * `authentication_failed`, which only the page knows.
   */
  lemma TablesAgree(code: string)
    ensures code != "authentication_failed" ==> LoginErrorMessage(code) == Auth.OAuthErrorMessage(code)
    ensures code == "authentication_failed" ==> Auth.OAuthErrorMessage(code) == Auth.GenericAuthError != LoginErrorMessage(code)
  {
  }

  class LoginPage {
    var error: string
    var isProcessing: bool
    /** Whether the query string has been stripped from the address bar. */
    var queryStripped: bool

    /** An empty message, not processing (src/pages/Login.tsx:7-8). */
    constructor()
      ensures error == "" && !isProcessing && !queryStripped
    {
      error, isProcessing, queryStripped := "", false, false;
    }

    /** The spinner replaces the page while the provider loads or a sign-in is under way. */
    predicate ShowsSpinner(isLoading: bool)
      reads this
    {
      isLoading || isProcessing
    }

    /** The spinner's caption. */
    function SpinnerCaption(): (caption: string)
      reads this
      ensures caption == "Processing authentication..." <==> isProcessing
      ensures !isProcessing ==> caption == "Loading..."
    {
      if isProcessing then "Processing authentication..." else "Loading..."
    }

    /**
     * The mount effect (src/pages/Login.tsx:16-39): an `error` parameter sets
     * its message, stops processing and strips the query; a `token` parameter
     * then starts processing, so a URL with both ends up processing. The
     * message is the intended one, `LoginErrorMessage`; for inherited names
     * the page as written stores what `LoginErrorLookup` returns.
     */
    method OnMount(errorParam: Option<string>, tokenParam: Option<string>)
      modifies this
      ensures Auth.Present(errorParam) ==> error == LoginErrorMessage(errorParam.value) && queryStripped
      ensures !Auth.Present(errorParam) ==> error == old(error) && queryStripped == old(queryStripped)
      ensures isProcessing == if Auth.Present(tokenParam) then true
                              else if Auth.Present(errorParam) then false
                              else old(isProcessing)
    {
      if Auth.Present(errorParam) {
        error := LoginErrorMessage(errorParam.value);
        isProcessing := false;
        queryStripped := true;
      }
      if Auth.Present(tokenParam) {
        isProcessing := true;
      }
    }

    /** The effect on the provider's flags: processing ends once loading is over and the user is authenticated (src/pages/Login.tsx:10-14). */
    method OnAuthChange(isLoading: bool, isAuthenticated: bool)
      modifies this
      ensures !isLoading && isAuthenticated ==> !isProcessing
      ensures isLoading || !isAuthenticated ==> isProcessing == old(isProcessing)
      ensures error == old(error) && queryStripped == old(queryStripped)
    {
      if !isLoading && isAuthenticated {
        isProcessing := false;
      }
    }

    /** `handleGoogleLogin`: processing, no message, and the provider starts the Google flow (src/pages/Login.tsx:41-45). */
    method HandleGoogleLogin(auth: Auth.AuthProvider, pathname: string)
      modifies this, auth, auth.store
      ensures isProcessing && error == "" && queryStripped == old(queryStripped)
      ensures auth.isLoading && auth.calls == old(auth.calls) + [Auth.InitiateGoogleLogin]
      ensures auth.isAuthenticated == old(auth.isAuthenticated) && auth.user == old(auth.user)
      ensures auth.store.available ==> auth.store.session == old(auth.store.session)[Storage.PreAuthKey := pathname]
      ensures auth.store.local == old(auth.store.local) && auth.store.available == old(auth.store.available)
      ensures !auth.store.available ==> auth.store.session == old(auth.store.session)
      ensures ShowsSpinner(auth.isLoading)
    {
      isProcessing := true;
      error := "";
      auth.LoginWithGoogle(pathname);
    }
  }
}
