/** The sign-in page (Login.tsx): its form, error banner and loading flag, and the
    submit handler that signs in through the session store and then navigates. */
module LoginScreen {
  import opened Common
  import Api
  import Session

  const UnreachableMessage := "Unable to connect to the server. Please check your backend is running."
  const FallbackMessage := "Login failed"
  /** What a browser's `fetch` rejects with when the server cannot be reached. */
  const TransportMessage := "Failed to fetch"
  const DashboardPath := "/dashboard"

  /** The banner shown for the message of the error `login` threw. */
  function LoginErrorMessage(message: string): (shown: string)
    ensures Contains(message, TransportMessage) ==> shown == UnreachableMessage
    ensures !Contains(message, TransportMessage) && message != "" ==> shown == message
    ensures message == "" ==> shown == FallbackMessage
    ensures shown != ""
  {
    if Truthy(message) && Contains(message, TransportMessage) then UnreachableMessage
    else Or(message, FallbackMessage)
  }

  /** An unreachable server (a rejected `fetch`) is reported as such, and a rejected
      credential is reported with the backend's own `detail`. */
  lemma BannerForBackendErrors<T>(data: T)
    ensures LoginErrorMessage(Api.Outcome<T>(Api.TransportFailure(TransportMessage)).error) == UnreachableMessage
    ensures var detail := "Incorrect username or password";
            LoginErrorMessage(Api.Outcome<T>(Api.Reply(false, 400, Api.Json(Some(detail), data))).error)
            == detail
  {
    assert StartsWith(TransportMessage, TransportMessage);
    MissingFirstChar("Incorrect username or password", TransportMessage);
  }

  class LoginPage {
    var username: string
    var password: string
    var error: Option<string>
    var loading: bool
    /** The paths navigated to so far, in order. */
    var navigations: seq<string>

    constructor ()
      ensures username == "" && password == "" && error.None? && !loading && navigations == []
    {
      username := "";
      password := "";
      error := None;
      loading := false;
      navigations := [];
    }

    /** What the page shows while `login` is pending. */
    method BeginSubmit()
      modifies this
      ensures loading && error.None?
      ensures username == old(username) && password == old(password) && navigations == old(navigations)
    {
      loading := true;
      error := None;
    }

    /** How `handleSubmit` ends, once `login` resolved (`thrown` is None) or threw. */
    method FinishSubmit(thrown: Option<string>)
      modifies this
      ensures !loading
      ensures thrown.None? ==> navigations == old(navigations) + [DashboardPath] && error == old(error)
      ensures thrown.Some? ==> navigations == old(navigations) && error == Some(LoginErrorMessage(thrown.value))
      ensures username == old(username) && password == old(password)
    {
      if thrown.None? {
        navigations := navigations + [DashboardPath];
      } else {
        error := Some(LoginErrorMessage(thrown.value));
      }
      loading := false;
    }

    /** `handleSubmit`: signs in with the form's two fields. It navigates to the dashboard
        only when every step of `login` succeeded, and otherwise shows the mapped
        message; loading ends false either way. */
    method HandleSubmit(auth: Session.AuthProvider, tokenReply: Result<string, string>,
                        currentUser: Result<Session.UserData, string>,
                        perms: Result<Session.Perms, string>)
      requires auth.Valid()
      modifies this, auth
      ensures auth.Valid() && !auth.isLoading && !loading
      ensures |auth.calls| > |old(auth.calls)|
              && auth.calls[|old(auth.calls)|] == Api.LoginRequest(old(username), old(password))
      ensures var failure := Session.LoginFailure(tokenReply, currentUser);
              (failure.None? ==> navigations == old(navigations) + [DashboardPath] && error.None?
                                 && auth.user.Some? && auth.user.value.data == currentUser.value)
              && (failure.Some? ==> navigations == old(navigations)
                                    && error == Some(LoginErrorMessage(failure.value)))
      ensures tokenReply.Ok? ==> auth.token == Some(tokenReply.value)
    {
      BeginSubmit();
      var thrown := auth.Login(username, password, tokenReply, currentUser, perms);
      FinishSubmit(thrown);
    }
  }
}
