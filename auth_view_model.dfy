/**
 * `AuthViewModel`: the login screen's state and its transitions. The
 * sign-in calls go to the authentication service; their outcome is an
 * input, and a launched sign-in is one step from start to result.
 */
module AuthViewModel {
  import opened Common

  datatype LoginUiState = LoginUiState(
    emailInput: string,
    passwordInput: string,
    isLoading: bool,
    errorMessage: Option<string>,
    loginSuccess: bool)

  /** `LoginUiState()`. */
  const InitialState := LoginUiState("", "", false, None, false)

  /** The result of a sign-in call: success, or a failure with the exception's message. */
  datatype SignInResult = SignedIn | SignInFailed(message: Option<string>)

  const UnknownError: string := "An unknown error occurred"
  const NoTokenError: string := "Google Sign-In failed: No token received"
  const GoogleError: string := "Google Sign-In failed"

  /** The state a finished sign-in leaves; `fallback` replaces a missing exception message. */
  function Finished(state: LoginUiState, result: SignInResult, fallback: string): (r: LoginUiState)
    ensures !r.isLoading && r.emailInput == state.emailInput && r.passwordInput == state.passwordInput
    ensures result.SignedIn? ==> r.loginSuccess && r.errorMessage == state.errorMessage
    ensures result.SignInFailed? ==> r.loginSuccess == state.loginSuccess
                                     && r.errorMessage == Some(OrElse(result.message, fallback))
  {
    match result
    case SignedIn => state.(isLoading := false, loginSuccess := true)
    case SignInFailed(message) => state.(isLoading := false, errorMessage := Some(OrElse(message, fallback)))
  }

  class AuthViewModel {
    var loginUiState: LoginUiState

    constructor ()
      ensures loginUiState == InitialState
    {
      loginUiState := InitialState;
    }

    method OnEmailChange(email: string)
      modifies this
      ensures loginUiState == old(loginUiState).(emailInput := email, errorMessage := None)
    {
      loginUiState := loginUiState.(emailInput := email, errorMessage := None);
    }

    method OnPasswordChange(password: string)
      modifies this
      ensures loginUiState == old(loginUiState).(passwordInput := password, errorMessage := None)
    {
      loginUiState := loginUiState.(passwordInput := password, errorMessage := None);
    }

    /**
     * `signInWithEmailPassword`: ignored while loading; otherwise the
     * trimmed email and the password as typed are sent (`sent`) and the
     * result is applied.
     */
    method SignInWithEmailPassword(result: SignInResult) returns (sent: Option<(string, string)>)
      modifies this
      ensures old(loginUiState).isLoading ==> sent.None? && loginUiState == old(loginUiState)
      ensures !old(loginUiState).isLoading ==>
                sent == Some((Trim(old(loginUiState).emailInput), old(loginUiState).passwordInput))
                && loginUiState == Finished(old(loginUiState).(isLoading := true, errorMessage := None), result, UnknownError)
    {
      if loginUiState.isLoading {
        return None;
      }
      loginUiState := loginUiState.(isLoading := true, errorMessage := None);
      sent := Some((Trim(loginUiState.emailInput), loginUiState.passwordInput));
      loginUiState := Finished(loginUiState, result, UnknownError);
    }

    /**
     * `signInWithGoogleToken`: a missing token is reported whatever the
     * loading flag says; a token while loading is ignored.
     */
    method SignInWithGoogleToken(idToken: Option<string>, result: SignInResult) returns (sent: bool)
      modifies this
      ensures idToken.None? ==> !sent && loginUiState == old(loginUiState).(errorMessage := Some(NoTokenError))
      ensures idToken.Some? && old(loginUiState).isLoading ==> !sent && loginUiState == old(loginUiState)
      ensures idToken.Some? && !old(loginUiState).isLoading ==>
                sent && loginUiState == Finished(old(loginUiState).(isLoading := true, errorMessage := None), result, GoogleError)
    {
      if idToken.None? {
        loginUiState := loginUiState.(errorMessage := Some(NoTokenError));
        return false;
      }
      if loginUiState.isLoading {
        return false;
      }
      loginUiState := loginUiState.(isLoading := true, errorMessage := None);
      sent := true;
      loginUiState := Finished(loginUiState, result, GoogleError);
    }

    method ResetLoginSuccess()
      modifies this
      ensures loginUiState == old(loginUiState).(loginSuccess := false)
    {
      loginUiState := loginUiState.(loginSuccess := false);
    }
  }

  /** A finished sign-in never leaves the screen loading, and a failure always leaves a message. */
  lemma SignInSettles(state: LoginUiState, result: SignInResult)
    ensures !Finished(state, result, UnknownError).isLoading
    ensures result.SignInFailed? ==> Finished(state, result, UnknownError).errorMessage.Some?
    ensures result.SignInFailed? && result.message.None? ==> Finished(state, result, UnknownError).errorMessage == Some(UnknownError)
  {
  }

  /** A sign-in started from a clean state with a failure that names nothing reports the fallback. */
  lemma FailureWithoutMessage(email: string, password: string)
    ensures var s := LoginUiState(email, password, true, None, false);
            Finished(s, SignInFailed(None), UnknownError) == LoginUiState(email, password, false, Some(UnknownError), false)
  {
  }
}
