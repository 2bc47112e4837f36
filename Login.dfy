/**
 * The sign-in / sign-up form (app/login/page.js): the redirect target and the
 * error text derived from the query string, and the state transitions of
 * submitting, of the Google sign-in button and of switching between the two modes.
 * The backend's answers are inputs; `router.push` targets and profile upserts are
 * recorded as outputs.
 */
module Login {
  import opened Js
  import AuthCallback

  const DomainRestrictedMessage: string := "Sign in restricted to @uw.edu email addresses."
  const SignUpSuccessMessage: string :=
    "Account created! Check your email for a confirmation link, or sign in if email confirmation is disabled."

  /** `searchParams.get('redirect') || '/'`: a missing or empty parameter falls back to '/'. */
  function RedirectTarget(param: Option<string>): (target: string)
    ensures target != ""
    ensures Truthy(param) ==> target == param.value
    ensures !Truthy(param) ==> target == "/"
  {
    Or(param, "/")
  }

  /** `displayError`: the local error, else the text for the `error` query parameter (null when there is none). */
  function DisplayError(error: string, errorParam: Option<string>): (shown: Option<string>)
    ensures error != "" ==> shown == Some(error)
    ensures error == "" && errorParam == Some("domain_restricted") ==> shown == Some(DomainRestrictedMessage)
    ensures error == "" && errorParam != Some("domain_restricted") ==> shown == errorParam
  {
    if error != "" then Some(error)
    else if errorParam == Some("domain_restricted") then Some(DomainRestrictedMessage)
    else errorParam
  }

  /** The error banner is rendered exactly when there is a local error or a non-empty `error` parameter. */
  lemma ErrorBannerShown(error: string, errorParam: Option<string>)
    ensures Truthy(DisplayError(error, errorParam)) <==> error != "" || Truthy(errorParam)
  {
  }

  /** An `error` parameter that is the callback's domain code always shows the @uw.edu message when no local error hides it. */
  lemma DomainCodeShowsMessage()
    ensures DisplayError("", Some("domain_restricted")) == Some(DomainRestrictedMessage)
    ensures DisplayError("", Some("auth_failed")) == Some("auth_failed")
  {
  }

  /** The `{ data: { user }, error }` answer of `auth.signUp`. */
  datatype SignUpAnswer = SignUpAnswer(userId: Option<string>, error: Option<string>)

  /** The profile row upserted after a sign-up: the same shape the OAuth callback writes. */
  type ProfileUpsert = AuthCallback.ProfileUpsert

  /** The state slots of `LoginForm` and the two query parameters it reads. */
  class LoginForm {
    var isSignUp: bool
    var email: string
    var password: string
    var fullName: string
    var error: string
    var loading: bool
    var successMessage: string
    /** The `router.push` targets so far. */
    var navigations: seq<string>
    const redirect: string
    const errorParam: Option<string>

    constructor (redirectParam: Option<string>, errorParam: Option<string>)
      ensures redirect == RedirectTarget(redirectParam) && this.errorParam == errorParam
      ensures !isSignUp && email == "" && password == "" && fullName == ""
      ensures error == "" && !loading && successMessage == "" && navigations == []
    {
      redirect := RedirectTarget(redirectParam);
      this.errorParam := errorParam;
      isSignUp := false;
      email, password, fullName := "", "", "";
      error := "";
      loading := false;
      successMessage := "";
      navigations := [];
    }

    /** The text of the error banner. */
    function Banner(): (shown: Option<string>)
      reads this
      ensures Truthy(shown) <==> error != "" || Truthy(errorParam)
      ensures error != "" ==> shown == Some(error)
    {
      ErrorBannerShown(error, errorParam);
      DisplayError(error, errorParam)
    }

    /** The three text inputs' `onChange`. */
    method Edit(newEmail: string, newPassword: string, newFullName: string)
      modifies this`email, this`password, this`fullName
      ensures email == newEmail && password == newPassword && fullName == newFullName
    {
      email, password, fullName := newEmail, newPassword, newFullName;
    }

    /** The first steps of `handleSubmit`, before the backend is called. */
    method BeginSubmit()
      modifies this`error, this`successMessage, this`loading
      ensures error == "" && successMessage == "" && loading
    {
      error := "";
      successMessage := "";
      loading := true;
    }

    /** The sign-up branch of `handleSubmit` once `auth.signUp` answered; returns the profile upsert, if any. */
    method FinishSignUp(answer: SignUpAnswer) returns (upsert: Option<ProfileUpsert>)
      modifies this`error, this`successMessage, this`loading
      ensures answer.error.Some? ==>
        error == answer.error.value && !loading && upsert.None? && successMessage == old(successMessage)
      ensures answer.error.None? ==>
        successMessage == SignUpSuccessMessage && !loading && error == old(error)
        && upsert == (if answer.userId.Some? then Some(AuthCallback.ProfileUpsert(answer.userId.value, email, fullName)) else None)
    {
      upsert := None;
      if answer.error.Some? {
        error := answer.error.value;
        loading := false;
        return;
      }
      if answer.userId.Some? {
        upsert := Some(AuthCallback.ProfileUpsert(answer.userId.value, email, fullName));
      }
      successMessage := SignUpSuccessMessage;
      loading := false;
    }

    /** The sign-in branch of `handleSubmit` once `auth.signInWithPassword` answered. */
    method FinishSignIn(signInError: Option<string>)
      modifies this`error, this`loading, this`navigations
      ensures signInError.Some? ==> error == signInError.value && !loading && navigations == old(navigations)
      // on success the page navigates away and `loading` is left set
      ensures signInError.None? ==>
        navigations == old(navigations) + [redirect] && loading == old(loading) && error == old(error)
    {
      if signInError.Some? {
        error := signInError.value;
        loading := false;
        return;
      }
      navigations := navigations + [redirect];
    }

    /** `handleSubmit`, given the answer of whichever backend call the current mode makes. */
    method HandleSubmit(signUpAnswer: SignUpAnswer, signInError: Option<string>)
      returns (upsert: Option<ProfileUpsert>)
      modifies this`error, this`successMessage, this`loading, this`navigations
      ensures isSignUp && signUpAnswer.error.Some? ==>
        error == signUpAnswer.error.value && !loading && successMessage == "" && upsert.None?
        && navigations == old(navigations)
      ensures isSignUp && signUpAnswer.error.None? ==>
        error == "" && !loading && successMessage == SignUpSuccessMessage
        && upsert == (if signUpAnswer.userId.Some? then Some(AuthCallback.ProfileUpsert(signUpAnswer.userId.value, email, fullName)) else None)
        && navigations == old(navigations)
      ensures !isSignUp && signInError.Some? ==>
        error == signInError.value && !loading && successMessage == "" && upsert.None?
        && navigations == old(navigations)
      ensures !isSignUp && signInError.None? ==>
        error == "" && loading && successMessage == "" && upsert.None?
        && navigations == old(navigations) + [redirect]
    {
      BeginSubmit();
      if isSignUp {
        upsert := FinishSignUp(signUpAnswer);
      } else {
        upsert := None;
        FinishSignIn(signInError);
      }
    }

    /** `handleGoogleSignIn`, given the OAuth start's error, if any; returns the `redirectTo` it asks for. */
    method GoogleSignIn(origin: string, oauthError: Option<string>) returns (redirectTo: string)
      modifies this`error, this`loading
      ensures redirectTo == origin + "/auth/callback?redirect=" + redirect
      ensures oauthError.Some? ==> error == oauthError.value && !loading
      ensures oauthError.None? ==> error == "" && loading
    {
      loading := true;
      error := "";
      redirectTo := origin + "/auth/callback?redirect=" + redirect;
      if oauthError.Some? {
        error := oauthError.value;
        loading := false;
      }
    }

    /** The 'Sign In' link shown in sign-up mode. */
    method ShowSignIn()
      modifies this`isSignUp, this`error, this`successMessage
      ensures !isSignUp && error == "" && successMessage == ""
    {
      isSignUp := false;
      error := "";
      successMessage := "";
    }

    /** The 'Create Account' link shown in sign-in mode. */
    method ShowSignUp()
      modifies this`isSignUp, this`error, this`successMessage
      ensures isSignUp && error == "" && successMessage == ""
    {
      isSignUp := true;
      error := "";
      successMessage := "";
    }
  }
}
