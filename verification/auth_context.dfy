/** The admin session: the signed-in user, the token and the loading flag,
    kept in step with the stored token and the API client's default header.
    The login request, the profile request and the saved token are taken as
    inputs. */
module AuthContext {
  import opened Common
  import opened ApiService

  datatype User = User(id: int, username: string, fullName: string, email: string, role: string)

  const AccessDenied: string := "Access denied. Admin privileges required."
  const LoginFailed: string := "Login failed"

  /** `isAuthenticated`: a non-empty token and a user. */
  function IsAuthenticated(token: Option<string>, user: Option<User>): (b: bool)
    ensures b ==> token.Some? && user.Some?
    ensures token.None? || user.None? || token == Some("") ==> !b
  {
    Truthy(token) && user.Some?
  }

  /** The toast of a failed login: the body's non-empty `message`, else
      the fixed text. */
  function LoginErrorText(err: HttpError): (m: string)
    ensures err.body.JsonBody? && Truthy(err.body.message) ==> m == err.body.message.value
    ensures !(err.body.JsonBody? && Truthy(err.body.message)) ==> m == LoginFailed
  {
    if err.body.JsonBody? && Truthy(err.body.message) then err.body.message.value else LoginFailed
  }

  class AuthSession {
    const api: ApiClient
    var user: Option<User>
    var token: Option<string>
    var isLoading: bool

    /** The provider starts with the stored token, no user, and loading. */
    constructor(api: ApiClient)
      ensures this.api == api && token == api.storedToken && user == None && isLoading
    {
      this.api := api;
      token := api.storedToken;
      user := None;
      isLoading := true;
    }

    function Authenticated(): bool
      reads this
    {
      IsAuthenticated(token, user)
    }

    /** `initializeAuth`: with a saved token the client is given it and the
        profile is requested; a profile makes the user signed in, a failure
        (after the response interceptor has had its say) removes the stored
        token and clears the header, though the token
        state keeps the value it started with. Loading ends in every case. */
    method InitializeAuth(profile: Outcome<User>)
      modifies this, api
      ensures !isLoading
      ensures !Truthy(old(api.storedToken)) ==> (user == old(user) && token == old(token)
                                                && api.storedToken == old(api.storedToken)
                                                && api.defaultAuthorization == old(api.defaultAuthorization))
      ensures Truthy(old(api.storedToken)) && profile.Success? ==>
        user == Some(profile.data) && token == old(api.storedToken) && api.storedToken == old(api.storedToken)
        && api.defaultAuthorization == Some("Bearer " + old(api.storedToken).value)
      ensures Truthy(old(api.storedToken)) && profile.Failure? ==>
        user == old(user) && token == old(token) && api.storedToken == None && api.defaultAuthorization == None
    {
      var saved := api.storedToken;
      if Truthy(saved) {
        api.SetToken(saved.value);
        if profile.Success? {
          user := Some(profile.data);
          token := saved;
        } else {
          var _, _ := api.OnResponseError(profile.err);
          api.Store(None);
          api.SetToken("");
        }
      }
      isLoading := false;
    }

    /** `login`: a non-admin account is refused with nothing changed; an
        admin's token is stored, installed as the header and kept with the
        user. A failed request passes through the client's response
        interceptor first, which removes the stored token on a 401 or a ban
        and leaves everything else as it was. */
    method Login(outcome: Outcome<(string, User)>) returns (ok: bool, error: Option<string>)
      modifies this, api
      ensures ok <==> outcome.Success? && outcome.data.1.role == "ADMIN"
      ensures !ok ==> user == old(user) && token == old(token)
                      && api.defaultAuthorization == old(api.defaultAuthorization)
      ensures outcome.Success? && !ok ==> api.storedToken == old(api.storedToken)
      ensures outcome.Failure? ==>
        api.storedToken == (if ErrorDecision(outcome.err).EndSession? then None else old(api.storedToken))
      ensures outcome.Failure? ==> error == Some(LoginErrorText(outcome.err))
      ensures outcome.Success? && !ok ==> error == Some(AccessDenied)
      ensures ok ==> error == None && token == Some(outcome.data.0) && user == Some(outcome.data.1)
                     && api.storedToken == Some(outcome.data.0)
      ensures ok && outcome.data.0 != "" ==>
        Authenticated() && RequestAuthorization(api.storedToken, api.defaultAuthorization) == Some("Bearer " + outcome.data.0)
      ensures isLoading == old(isLoading)
    {
      if outcome.Failure? {
        var _, rejected := api.OnResponseError(outcome.err);
        return false, Some(LoginErrorText(rejected));
      }
      var (authToken, userData) := outcome.data;
      if userData.role != "ADMIN" {
        return false, Some(AccessDenied);
      }
      api.Store(Some(authToken));
      api.SetToken(authToken);
      token := Some(authToken);
      user := Some(userData);
      ok, error := true, None;
    }

    /** `logout`: the stored token, the header, the token and the user are
        all cleared, so no later request carries a token. */
    method Logout()
      modifies this, api
      ensures api.storedToken == None && api.defaultAuthorization == None && token == None && user == None
      ensures !Authenticated() && RequestAuthorization(api.storedToken, api.defaultAuthorization) == None
      ensures isLoading == old(isLoading)
    {
      api.Store(None);
      api.SetToken("");
      token := None;
      user := None;
    }
  }

  /** A failed start-up leaves the session signed out even though the token
      state still holds the saved token. */
  method FailedStartStaysSignedOut(saved: string, err: HttpError) returns (session: AuthSession)
    requires saved != ""
    ensures session.token == Some(saved) && session.api.storedToken == None
    ensures !session.Authenticated() && !session.isLoading
  {
    var api := new ApiClient(Some(saved));
    session := new AuthSession(api);
    session.InitializeAuth(Failure(err));
  }
}
