/** The authentication context (`src/contexts/AuthContext.tsx`): a provider that keeps whether
    the user is signed in and the user id, stores the session token and the user name in the
    browser's key/value storage, and offers login, register and logout. The API calls are
    parameters: each one's outcome is given, and a thrown error is rethrown to the caller after
    an error toast. */
module AuthContext {
  import opened Wrappers

  /** The storage keys the provider writes. */
  const AuthTokenKey := "authToken"
  const UsernameKey := "username"

  /** What a successful login call answers. */
  datatype LoginResponse = LoginResponse(token: string, userId: string)

  datatype Toast = SuccessToast(text: string) | ErrorToast(text: string)

  /** What the provider hands to its consumers. */
  datatype AuthValue = AuthValue(isAuthenticated: bool, userId: Option<string>, token: Option<string>)

  /** `localStorage.getItem(key)`: the stored text, or null. */
  function GetItem(storage: map<string, string>, key: string): (r: Option<string>)
    ensures r.Some? <==> key in storage
    ensures r.Some? ==> r.value == storage[key]
  {
    if key in storage then Some(storage[key]) else None
  }

  /** `useAuth`: the provider's value, or the error thrown when there is no provider above the
      caller. */
  function UseAuth(context: Option<AuthValue>): (r: Result<AuthValue, string>)
    ensures r.Err? <==> context.None?
    ensures r.Ok? ==> r.value == context.value
    ensures r.Err? ==> r.error == "useAuth must be used within an AuthProvider"
  {
    match context
    case Some(value) => Ok(value)
    case None => Err("useAuth must be used within an AuthProvider")
  }

  class AuthProvider {
    var storage: map<string, string>
    var isAuthenticated: bool
    var userId: Option<string>
    var toasts: seq<Toast>

    /** The session flag agrees with the storage: signed in exactly while a token is stored, and
        a user id only while signed in. */
    ghost predicate Valid()
      reads this
    {
      (isAuthenticated <==> AuthTokenKey in storage)
      && (userId.Some? ==> isAuthenticated)
    }

    /** The provider's value at a render; the token is read from storage each time. */
    function Value(): (v: AuthValue)
      reads this
      ensures Valid() ==> (v.isAuthenticated <==> v.token.Some?)
      ensures v.token == GetItem(storage, AuthTokenKey) && v.userId == userId
    {
      AuthValue(isAuthenticated, userId, GetItem(storage, AuthTokenKey))
    }

    /** The initial state: signed in exactly when a token is already stored; no user id. */
    constructor(storage: map<string, string>)
      ensures Valid()
      ensures this.storage == storage && isAuthenticated == (AuthTokenKey in storage)
      ensures userId == None && toasts == []
    {
      this.storage := storage;
      isAuthenticated := AuthTokenKey in storage;
      userId := None;
      toasts := [];
    }

    /** The mount effect: a non-empty stored token marks the session signed in. Under `Valid`
        that is already so, so the effect changes nothing. */
    method MountEffect()
      requires Valid()
      modifies this
      ensures Valid()
      ensures isAuthenticated == old(isAuthenticated)
      ensures storage == old(storage) && userId == old(userId) && toasts == old(toasts)
    {
      var token := GetItem(storage, AuthTokenKey);
      if token.Some? && token.value != "" {
        isAuthenticated := true;
      }
    }

    /** `login`: on success the token and the user name are stored, the user id is kept and the
        session is signed in; on failure only an error toast appears and the error is rethrown
        (`thrown`). `outcome` is the API's answer, `None` when it threw. */
    method Login(username: string, outcome: Option<LoginResponse>) returns (thrown: bool)
      requires Valid()
      modifies this
      ensures Valid()
      ensures thrown <==> outcome.None?
      ensures outcome.Some? ==>
        storage == old(storage)[AuthTokenKey := outcome.value.token][UsernameKey := username]
        && userId == Some(outcome.value.userId) && isAuthenticated
        && toasts == old(toasts) + [SuccessToast("Login successful")]
      ensures outcome.None? ==>
        storage == old(storage) && userId == old(userId) && isAuthenticated == old(isAuthenticated)
        && toasts == old(toasts) + [ErrorToast("Login failed. Please check your credentials")]
    {
      if outcome.None? {
        toasts := toasts + [ErrorToast("Login failed. Please check your credentials")];
        return true;
      }
      storage := storage[AuthTokenKey := outcome.value.token];
      storage := storage[UsernameKey := username];
      userId := Some(outcome.value.userId);
      isAuthenticated := true;
      toasts := toasts + [SuccessToast("Login successful")];
      return false;
    }

    /** `register`: only a toast, whatever the API answers; a failure is rethrown. */
    method Register(succeeded: bool) returns (thrown: bool)
      modifies this
      ensures thrown <==> !succeeded
      ensures toasts == old(toasts) + [if succeeded then SuccessToast("Registration successful. Please login.")
                                       else ErrorToast("Registration failed. Please try again.")]
      ensures storage == old(storage) && isAuthenticated == old(isAuthenticated) && userId == old(userId)
    {
      if succeeded {
        toasts := toasts + [SuccessToast("Registration successful. Please login.")];
        return false;
      }
      toasts := toasts + [ErrorToast("Registration failed. Please try again.")];
      return true;
    }

    /** `logout`: on success the token is removed (the user name stays), the user id is cleared
        and the session is signed out; on failure only an error toast appears and the error is
        rethrown. */
    method Logout(succeeded: bool) returns (thrown: bool)
      requires Valid()
      modifies this
      ensures Valid()
      ensures thrown <==> !succeeded
      ensures succeeded ==>
        storage == old(storage) - {AuthTokenKey} && userId == None && !isAuthenticated
        && toasts == old(toasts) + [SuccessToast("Logged out successfully")]
      ensures !succeeded ==>
        storage == old(storage) && userId == old(userId) && isAuthenticated == old(isAuthenticated)
        && toasts == old(toasts) + [ErrorToast("Logout failed. Please try again.")]
    {
      if !succeeded {
        toasts := toasts + [ErrorToast("Logout failed. Please try again.")];
        return true;
      }
      storage := storage - {AuthTokenKey};
      userId := None;
      isAuthenticated := false;
      toasts := toasts + [SuccessToast("Logged out successfully")];
      return false;
    }
  }
}
