/** The session of src/context/AuthContext.jsx: user, isAuthenticated,
    loading, and the two tokens kept in localStorage (a map field here). Each
    operation is one atomic step with the backend's reply as a parameter. */
module AuthContext {
  import opened JsValue
  import opened Records

  const AccessKey := "accessToken"
  const RefreshKey := "refreshToken"
  const ConnectionFailed := "Ошибка подключения к серверу"
  const ProfileUpdateFailed := "Ошибка обновления профиля"

  /** The payload of a successful login or registration. */
  datatype Session = Session(user: Record, accessToken: string, refreshToken: string)

  /** What login, register and updateProfile return. */
  datatype AuthOutcome = AuthOutcome(success: bool, message: string, user: Option<Record>)

  /** The storage without the two token keys. */
  function WithoutTokens(storage: map<string, string>): (r: map<string, string>)
    ensures AccessKey !in r && RefreshKey !in r
    ensures forall k :: k != AccessKey && k != RefreshKey ==> (k in r <==> k in storage)
    ensures forall k :: k in r ==> r[k] == storage[k]
  {
    storage - {AccessKey, RefreshKey}
  }

  /** `localStorage.getItem('accessToken')` is truthy. */
  predicate HasToken(storage: map<string, string>) {
    AccessKey in storage && storage[AccessKey] != ""
  }

  class AuthProvider {
    var user: Option<Record>
    var isAuthenticated: bool
    var loading: bool
    var storage: map<string, string>

    /** An authenticated session always has a user. */
    ghost predicate Valid()
      reads this
    {
      isAuthenticated ==> user.Some?
    }

    constructor(storage0: map<string, string>)
      ensures Valid()
      ensures user == None && !isAuthenticated && loading && storage == storage0
    {
      user := None;
      isAuthenticated := false;
      loading := true;
      storage := storage0;
    }

    /** `checkAuthStatus` (also what the mount effect does): without a token
        nothing is asked and loading ends; a valid token restores the session;
        a rejected token, or an exception, removes both tokens. */
    method CheckAuthStatus(reply: Reply<Record>) returns (asked: bool)
      requires Valid()
      modifies this
      ensures Valid() && !loading
      ensures asked <==> HasToken(old(storage))
      ensures !asked ==> user == old(user) && isAuthenticated == old(isAuthenticated) && storage == old(storage)
      ensures asked && reply.Ok? ==> user == Some(reply.data) && isAuthenticated && storage == old(storage)
      ensures asked && !reply.Ok? ==>
                storage == WithoutTokens(old(storage))
                && user == old(user) && isAuthenticated == old(isAuthenticated)
    {
      if !HasToken(storage) {
        loading := false;
        return false;
      }
      asked := true;
      if reply.Ok? {
        user := Some(reply.data);
        isAuthenticated := true;
      } else {
        storage := WithoutTokens(storage);
      }
      loading := false;
    }

    /** `login(email, password)`: success stores both tokens, sets the user and
        the flag; failure, or an exception, changes nothing. */
    method Login(reply: Reply<Session>) returns (outcome: AuthOutcome)
      requires Valid()
      modifies this
      ensures Valid()
      ensures outcome.success <==> reply.Ok?
      ensures reply.Ok? ==>
                storage == old(storage)[AccessKey := reply.data.accessToken][RefreshKey := reply.data.refreshToken]
                && user == Some(reply.data.user) && isAuthenticated
                && outcome.user == Some(reply.data.user)
      ensures !reply.Ok? ==>
                storage == old(storage) && user == old(user) && isAuthenticated == old(isAuthenticated)
      ensures reply.Rejected? ==> outcome.message == reply.message
      ensures reply.Thrown? ==> outcome.message == ConnectionFailed
      ensures loading == old(loading)
    {
      outcome := StartSession(reply);
    }

    /** `register(userData)`: the same as login. */
    method Register(reply: Reply<Session>) returns (outcome: AuthOutcome)
      requires Valid()
      modifies this
      ensures Valid()
      ensures outcome.success <==> reply.Ok?
      ensures reply.Ok? ==>
                storage == old(storage)[AccessKey := reply.data.accessToken][RefreshKey := reply.data.refreshToken]
                && user == Some(reply.data.user) && isAuthenticated
                && outcome.user == Some(reply.data.user)
      ensures !reply.Ok? ==>
                storage == old(storage) && user == old(user) && isAuthenticated == old(isAuthenticated)
      ensures reply.Rejected? ==> outcome.message == reply.message
      ensures reply.Thrown? ==> outcome.message == ConnectionFailed
      ensures loading == old(loading)
    {
      outcome := StartSession(reply);
    }

    method StartSession(reply: Reply<Session>) returns (outcome: AuthOutcome)
      requires Valid()
      modifies this
      ensures Valid()
      ensures outcome.success <==> reply.Ok?
      ensures reply.Ok? ==>
                storage == old(storage)[AccessKey := reply.data.accessToken][RefreshKey := reply.data.refreshToken]
                && user == Some(reply.data.user) && isAuthenticated
                && outcome.user == Some(reply.data.user)
      ensures !reply.Ok? ==>
                storage == old(storage) && user == old(user) && isAuthenticated == old(isAuthenticated)
      ensures reply.Rejected? ==> outcome.message == reply.message
      ensures reply.Thrown? ==> outcome.message == ConnectionFailed
      ensures loading == old(loading)
    {
      match reply
      case Ok(session) =>
        storage := storage[AccessKey := session.accessToken];
        storage := storage[RefreshKey := session.refreshToken];
        user := Some(session.user);
        isAuthenticated := true;
        outcome := AuthOutcome(true, "", Some(session.user));
      case Rejected(message) =>
        outcome := AuthOutcome(false, message, None);
      case Thrown(_) =>
        outcome := AuthOutcome(false, ConnectionFailed, None);
    }

    /** `logout()`: whatever the backend answers, both tokens go, the user is
        cleared and the flag drops. */
    method Logout()
      requires Valid()
      modifies this
      ensures Valid()
      ensures storage == WithoutTokens(old(storage))
      ensures user == None && !isAuthenticated
      ensures loading == old(loading)
    {
      storage := WithoutTokens(storage);
      user := None;
      isAuthenticated := false;
    }

    /** `updateProfile(profileData)`: success replaces the user and leaves the
        flag and the tokens alone. */
    method UpdateProfile(reply: Reply<Record>) returns (outcome: AuthOutcome)
      requires Valid()
      modifies this
      ensures Valid()
      ensures outcome.success <==> reply.Ok?
      ensures reply.Ok? ==> user == Some(reply.data) && outcome.user == Some(reply.data)
      ensures !reply.Ok? ==> user == old(user)
      ensures reply.Rejected? ==> outcome.message == reply.message
      ensures reply.Thrown? ==> outcome.message == ProfileUpdateFailed
      ensures isAuthenticated == old(isAuthenticated) && storage == old(storage) && loading == old(loading)
    {
      match reply
      case Ok(updated) =>
        user := Some(updated);
        outcome := AuthOutcome(true, "", Some(updated));
      case Rejected(message) =>
        outcome := AuthOutcome(false, message, None);
      case Thrown(_) =>
        outcome := AuthOutcome(false, ProfileUpdateFailed, None);
    }
  }

  /** After a login the next status check asks the backend; when it rejects
      the token both tokens go, yet the session stays authenticated. */
  method SessionSurvivesRejectedCheck(storage0: map<string, string>, session: Session, check: Reply<Record>)
    returns (p: AuthProvider, asked: bool)
    requires session.accessToken != ""
    ensures p.Valid() && asked && !p.loading
    ensures check.Ok? ==> p.isAuthenticated && p.user == Some(check.data)
    ensures !check.Ok? ==> !HasToken(p.storage) && p.isAuthenticated
  {
    p := new AuthProvider(storage0);
    var _ := p.Login(Ok(session));
    asked := p.CheckAuthStatus(check);
  }
}
