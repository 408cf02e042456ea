/** The login state shared by the whole application: whether the user is logged in, the
    GitHub user name, and whether the first check is still running. */
module AuthContext {
  import opened Nullable
  import opened Api

  const NoProviderMessage: string := "useAuth must be used within an AuthProvider"

  /** What `useAuth` hands to a component. */
  datatype AuthValue = AuthValue(isLogin: bool, username: Option<string>, isLoading: bool)

  /** The result of `useAuth`: the context's value, or the error it throws. */
  datatype Checked = Provided(value: AuthValue) | ThrownError(message: string)

  /** `useAuth`: the provider's value, or an error when no provider is above the caller. */
  function UseAuth(context: Option<AuthValue>): (r: Checked)
    ensures r.ThrownError? <==> context.None?
    ensures r.ThrownError? ==> r.message == NoProviderMessage
    ensures r.Provided? ==> r.value == context.value
  {
    if context.None? then ThrownError(NoProviderMessage) else Provided(context.value)
  }

  class AuthProvider {
    var isLogin: bool
    var username: Option<string>
    var isLoading: bool
    var log: seq<UiEffect>

    /** Logged in exactly when a user name is known. */
    ghost predicate Valid()
      reads this
    {
      isLogin <==> username.Some?
    }

    /** First render: logged out, no name, the check still to come. */
    constructor ()
      ensures !isLogin && username == None && isLoading && log == []
      ensures Valid()
    {
      isLogin, username, isLoading, log := false, None, true, [];
    }

    /** What the provider hands out. */
    function Value(): AuthValue
      reads this
    {
      AuthValue(isLogin, username, isLoading)
    }

    /** `refreshLoginStatus`: the status from `checkLogin`; when it is true the name from
        `getUsername`, otherwise no name; a failure of either call means logged out with no
        name. The check is over whatever happened, and the state is consistent. */
    method RefreshLoginStatus(status: Reply<bool>, name: Reply<string>)
      modifies this
      ensures isLogin == (status == Ok(true) && name.Ok?)
      ensures username == if status == Ok(true) && name.Ok? then Some(name.value) else None
      ensures !isLoading && Valid()
      ensures log == old(log) + [Call(CheckLogin)] + if status == Ok(true) then [Call(GetUsername)] else []
    {
      log := log + [Call(CheckLogin)];
      match status {
        case Err(_) =>
          isLogin := false;
          username := None;
        case Ok(loggedIn) =>
          isLogin := loggedIn;
          if loggedIn {
            log := log + [Call(GetUsername)];
            match name {
              case Ok(n) =>
                username := Some(n);
              case Err(_) =>
                isLogin := false;
                username := None;
            }
          } else {
            username := None;
          }
      }
      isLoading := false;
    }
  }
}
