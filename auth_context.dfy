/**
 * The session manager (`AuthProvider` in src/contexts/AuthContext.tsx): the current user,
 * its token and a loading flag, mirrored into two slots of the browser's key-value store.
 *
 * Every awaited delay is taken as atomic, so each operation is one step. The pure step
 * functions (`StartupStep`, `LoginStep`, ...) say what each operation does to a `Session`
 * value; the class `AuthProvider` holds the same state in fields and its methods, written
 * the way the source writes them, are proved to agree with the step functions.
 */
module AuthContext {
  import opened Wrappers
  import opened StoredUser

  /** The two store slots the session is persisted under. */
  const TokenKey := "auth_token"
  const UserKey := "auth_user"

  const IdPrefix := "user_"
  const TokenPrefix := "mock_token_"

  /** Number of random characters kept for a user id: `substring(2, 9)`. */
  const IdRandomLength := 7

  datatype Session = Session(
    user: Option<User>,
    token: Option<string>,
    isLoading: bool,
    store: map<string, string>)
  {
    /** `isAuthenticated: !!user`. */
    predicate IsAuthenticated() {
      user.Some?
    }
  }

  /** The outcome of an async operation: the new session and the boolean it resolves to. */
  datatype Reply = Reply(session: Session, ok: bool)

  /** The state the provider is created in: no user, no token, loading. */
  function Initial(store: map<string, string>): (r: Session)
    ensures !r.IsAuthenticated() && r.token == None && r.isLoading && r.store == store
  {
    Session(None, None, true, store)
  }

  /** `localStorage.getItem(key)`: null when the slot is absent. */
  function Lookup(store: map<string, string>, key: string): Option<string> {
    if key in store then Some(store[key]) else None
  }

  /** JavaScript truthiness of a `string | null` or `string | undefined`. */
  predicate Truthy(v: Option<string>) {
    v.Some? && v.value != ""
  }

  /** Both slots hold a truthy value, the condition under which startup rehydrates. */
  predicate SlotsPresent(store: map<string, string>) {
    Truthy(Lookup(store, TokenKey)) && Truthy(Lookup(store, UserKey))
  }

  /** `email.split('@')[0]`: the text before the first '@', or all of it if there is none. */
  function LocalPart(email: string): (r: string)
    ensures r <= email
    ensures '@' !in r
    ensures |r| < |email| ==> email[|r|] == '@'
  {
    if email == [] || email[0] == '@' then [] else [email[0]] + LocalPart(email[1..])
  }

  /** JavaScript's `s.substring(start)` and `s.substring(start, end)` for 0 <= start <= end. */
  function Substring(s: string, start: nat, end: nat): (r: string)
    requires start <= end
    ensures |r| <= end - start
    ensures start <= |s| ==> r <= s[start..]
    ensures start <= |s| ==> |r| == (if end <= |s| then end else |s|) - start
    ensures |s| < start ==> r == []
  {
    var a := if start < |s| then start else |s|;
    var b := if end < |s| then end else |s|;
    s[a..b]
  }

  /**
   * `"user_" + Math.random().toString(36).substring(2, 9)`, where `rnd` is the text of
   * `Math.random().toString(36)` (a "0." followed by radix-36 digits).
   */
  function MockId(rnd: string): (id: string)
    ensures IdPrefix <= id
    ensures |id| <= |IdPrefix| + IdRandomLength
    ensures |rnd| >= 2 ==> id[|IdPrefix|..] <= rnd[2..]
    ensures |rnd| >= 2 ==> |id| == |IdPrefix| + (if |rnd| - 2 < IdRandomLength then |rnd| - 2 else IdRandomLength)
    ensures |rnd| < 2 ==> id == IdPrefix
  {
    IdPrefix + Substring(rnd, 2, 2 + IdRandomLength)
  }

  /** `mock_token_${Math.random().toString(36).substring(2)}`. */
  function MockToken(rnd: string): (t: string)
    ensures TokenPrefix <= t
    ensures |rnd| >= 2 ==> t[|TokenPrefix|..] == rnd[2..]
    ensures |rnd| < 2 ==> t == TokenPrefix
  {
    TokenPrefix + (if |rnd| < 2 then [] else rnd[2..])
  }

  /** `name || email.split('@')[0]`: the given name unless it is absent or empty. */
  function DisplayName(name: Option<string>, email: string): (r: string)
    ensures Truthy(name) ==> r == name.value
    ensures !Truthy(name) ==> r <= email && '@' !in r
    ensures !Truthy(name) && |r| < |email| ==> email[|r|] == '@'
  {
    if Truthy(name) then name.value else LocalPart(email)
  }

  /**
   * The session is mirrored in the store: a user and a token are held, the token slot holds
   * the token and the user slot holds the serialised user.
   */
  predicate Persisted(s: Session) {
    && s.user.Some? && s.token.Some?
    && Lookup(s.store, TokenKey) == s.token
    && Lookup(s.store, UserKey) == Some(Serialise(s.user.value))
  }

  /** The half of "user and token together" that every operation keeps. */
  predicate UserImpliesToken(s: Session) {
    s.user.Some? ==> s.token.Some?
  }

  /**
   * The startup effect. When both slots are truthy the token is taken first and then the
   * user is parsed; a parse failure clears both slots but leaves the token already taken.
   */
  function StartupStep(s: Session): (r: Session)
    ensures !r.isLoading
    ensures UserImpliesToken(s) ==> UserImpliesToken(r)
    ensures r.store == s.store || r.store == s.store - {TokenKey, UserKey}
    ensures r.user != s.user ==> SlotsPresent(s.store) && r.user == Parse(s.store[UserKey])
  {
    var storedToken := Lookup(s.store, TokenKey);
    var storedUser := Lookup(s.store, UserKey);
    if Truthy(storedToken) && Truthy(storedUser) then
      match Parse(storedUser.value)
      case Some(u) => s.(token := storedToken, user := Some(u), isLoading := false)
      case None => s.(token := storedToken, store := s.store - {TokenKey, UserKey}, isLoading := false)
    else
      s.(isLoading := false)
  }

  /** The commit shared by login and register: store both slots, then set user and token. */
  function SignIn(s: Session, u: User, t: string): (r: Reply)
    ensures r.ok && !r.session.isLoading
    ensures Persisted(r.session) && r.session.user == Some(u) && r.session.token == Some(t)
    ensures forall k :: k != TokenKey && k != UserKey ==> Lookup(r.session.store, k) == Lookup(s.store, k)
  {
    Reply(Session(Some(u), Some(t), false, s.store[TokenKey := t][UserKey := Serialise(u)]), true)
  }

  function LoginStep(s: Session, email: string, password: string, idRnd: string, tokenRnd: string): (r: Reply)
    ensures !r.session.isLoading
    ensures r.ok <==> email != "" && password != ""
    ensures !r.ok ==> r.session == s.(isLoading := false)
    ensures r.ok ==> Persisted(r.session) && r.session.IsAuthenticated()
    ensures r.ok ==> r.session.user.value.email == email
    ensures r.ok ==> r.session.user.value.name == Some(LocalPart(email))
    ensures r.ok ==> r.session.user.value.id == MockId(idRnd) && r.session.token == Some(MockToken(tokenRnd))
    ensures r.ok ==> forall k :: k != TokenKey && k != UserKey ==> Lookup(r.session.store, k) == Lookup(s.store, k)
  {
    if email == "" || password == "" then Reply(s.(isLoading := false), false)
    else SignIn(s, User(MockId(idRnd), email, Some(LocalPart(email))), MockToken(tokenRnd))
  }

  function RegisterStep(s: Session, email: string, password: string, name: Option<string>,
                        idRnd: string, tokenRnd: string): (r: Reply)
    ensures !r.session.isLoading
    ensures r.ok <==> email != "" && password != ""
    ensures !r.ok ==> r.session == s.(isLoading := false)
    ensures r.ok ==> Persisted(r.session) && r.session.IsAuthenticated()
    ensures r.ok ==> r.session.user.value.email == email
    ensures r.ok && Truthy(name) ==> r.session.user.value.name == name
    ensures r.ok && !Truthy(name) ==> r.session.user.value.name == Some(LocalPart(email))
    ensures r.ok ==> r.session.user.value.id == MockId(idRnd) && r.session.token == Some(MockToken(tokenRnd))
    ensures r.ok ==> forall k :: k != TokenKey && k != UserKey ==> Lookup(r.session.store, k) == Lookup(s.store, k)
  {
    if email == "" || password == "" then Reply(s.(isLoading := false), false)
    else SignIn(s, User(MockId(idRnd), email, Some(DisplayName(name, email))), MockToken(tokenRnd))
  }

  function LogoutStep(s: Session): (r: Session)
    ensures !r.IsAuthenticated() && r.token == None
    ensures TokenKey !in r.store && UserKey !in r.store
    ensures forall k :: k != TokenKey && k != UserKey ==> Lookup(r.store, k) == Lookup(s.store, k)
    ensures r.isLoading == s.isLoading
  {
    s.(user := None, token := None, store := s.store - {TokenKey, UserKey})
  }

  /** Simulated reset-link dispatch: succeeds exactly for a non-empty email. */
  function RequestResetStep(s: Session, email: string): (r: Reply)
    ensures r.ok <==> email != ""
    ensures r.session.user == s.user && r.session.token == s.token && r.session.store == s.store
    ensures !r.session.isLoading
  {
    Reply(s.(isLoading := false), email != "")
  }

  /** Simulated password reset: succeeds exactly when both the reset token and the password are non-empty. */
  function ResetPasswordStep(s: Session, resetToken: string, newPassword: string): (r: Reply)
    ensures r.ok <==> resetToken != "" && newPassword != ""
    ensures r.session.user == s.user && r.session.token == s.token && r.session.store == s.store
    ensures !r.session.isLoading
  {
    Reply(s.(isLoading := false), resetToken != "" && newPassword != "")
  }

  // ---------------------------------------------------------------------------------------
  // Startup

  /** Both slots present and a parseable user: user and token come from the store. */
  lemma StartupRestores(store: map<string, string>, u: User)
    requires SlotsPresent(store)
    requires Parse(store[UserKey]) == Some(u)
    ensures StartupStep(Initial(store)) == Session(Some(u), Some(store[TokenKey]), false, store)
    ensures StartupStep(Initial(store)).IsAuthenticated()
  {
  }

  /** A missing or empty slot: the state stays as created, except that loading has finished. */
  lemma StartupWithoutSlots(store: map<string, string>)
    requires !SlotsPresent(store)
    ensures StartupStep(Initial(store)) == Initial(store).(isLoading := false)
    ensures !StartupStep(Initial(store)).IsAuthenticated()
  {
  }

  /**
   * A corrupt stored user: both slots are removed and no user is set, but the token taken
   * before the parse failed is still held.
   */
  lemma StartupCorruptUser(store: map<string, string>)
    requires SlotsPresent(store)
    requires Parse(store[UserKey]) == None
    ensures var r := StartupStep(Initial(store));
      && !r.IsAuthenticated() && !r.isLoading
      && r.token == Some(store[TokenKey])
      && TokenKey !in r.store && UserKey !in r.store
      && r.store == store - {TokenKey, UserKey}
  {
  }

  /** After a corrupt record has been cleared, every later startup stays unauthenticated. */
  lemma StartupCorruptIsFinal(store: map<string, string>)
    requires SlotsPresent(store)
    requires Parse(store[UserKey]) == None
    ensures var cleared := StartupStep(Initial(store)).store;
      && StartupStep(Initial(cleared)) == Session(None, None, false, cleared)
  {
  }

  /**
   * The session can hold a token without a user: "user and token are both present or both
   * absent" does not hold after startup.
   */
  lemma TokenWithoutUser()
    ensures exists store :: var r := StartupStep(Initial(store)); r.token.Some? && r.user.None?
  {
    var store := map[TokenKey := "t", UserKey := "not json"];
    assert Lookup(store, TokenKey) == Some("t");
    assert Lookup(store, UserKey) == Some("not json");
    assert "not json"[0] != IdKey[0];
    ParseRejectsForeignText("not json");
    var r := StartupStep(Initial(store));
    assert r.token.Some? && r.user.None?;
  }

  // ---------------------------------------------------------------------------------------
  // Persistence round trips

  /** A session mirrored in the store with a non-empty token is rebuilt exactly at the next startup. */
  lemma PersistedRestores(s: Session)
    requires Persisted(s) && s.token.value != ""
    ensures StartupStep(Initial(s.store)) == s.(isLoading := false)
  {
    ParseSerialise(s.user.value);
  }

  /** After a successful login, reloading the application gives back the same session. */
  lemma LoginSurvivesRestart(s: Session, email: string, password: string, idRnd: string, tokenRnd: string)
    requires LoginStep(s, email, password, idRnd, tokenRnd).ok
    ensures var r := LoginStep(s, email, password, idRnd, tokenRnd).session;
      StartupStep(Initial(r.store)) == r
  {
    var r := LoginStep(s, email, password, idRnd, tokenRnd).session;
    PersistedRestores(r);
  }

  /** After a successful registration, reloading the application gives back the same session. */
  lemma RegisterSurvivesRestart(s: Session, email: string, password: string, name: Option<string>,
                                idRnd: string, tokenRnd: string)
    requires RegisterStep(s, email, password, name, idRnd, tokenRnd).ok
    ensures var r := RegisterStep(s, email, password, name, idRnd, tokenRnd).session;
      StartupStep(Initial(r.store)) == r
  {
    var r := RegisterStep(s, email, password, name, idRnd, tokenRnd).session;
    PersistedRestores(r);
  }

  /** After logout, reloading the application starts unauthenticated. */
  lemma LogoutSurvivesRestart(s: Session)
    ensures var r := LogoutStep(s);
      StartupStep(Initial(r.store)) == Session(None, None, false, r.store)
  {
  }

  // ---------------------------------------------------------------------------------------
  // The invariant every operation keeps

  /** "A user is never held without a token" holds initially and after every operation. */
  lemma UserImpliesTokenPreserved(s: Session, email: string, password: string, name: Option<string>,
                                  other: string, idRnd: string, tokenRnd: string)
    requires UserImpliesToken(s)
    ensures UserImpliesToken(Initial(s.store))
    ensures UserImpliesToken(StartupStep(s))
    ensures UserImpliesToken(LoginStep(s, email, password, idRnd, tokenRnd).session)
    ensures UserImpliesToken(RegisterStep(s, email, password, name, idRnd, tokenRnd).session)
    ensures UserImpliesToken(LogoutStep(s))
    ensures UserImpliesToken(RequestResetStep(s, email).session)
    ensures UserImpliesToken(ResetPasswordStep(s, other, password).session)
  {
  }

  /** A sample login: "a@b.com" with "secret1". */
  lemma LoginExample(s: Session, idRnd: string, tokenRnd: string)
    ensures var r := LoginStep(s, "a@b.com", "secret1", idRnd, tokenRnd);
      && r.ok && r.session.IsAuthenticated()
      && r.session.user.value.email == "a@b.com"
      && r.session.user.value.name == Some("a")
      && Truthy(Lookup(r.session.store, TokenKey))
  {
    var e := "a@b.com";
    assert LocalPart(e) == [e[0]] + LocalPart(e[1..]);
    assert e[1..][0] == '@';
    assert LocalPart(e[1..]) == [];
    assert LocalPart(e) == "a";
  }

  // ---------------------------------------------------------------------------------------
  // The provider, with the source's state as fields

  class AuthProvider {
    var user: Option<User>
    var token: Option<string>
    var isLoading: bool
    /** The browser's `localStorage`, seen as a map from slot name to text. */
    var store: map<string, string>

    function State(): Session
      reads this
    {
      Session(user, token, isLoading, store)
    }

    /** `useState(null)`, `useState(null)`, `useState(true)` over whatever the store holds. */
    constructor (initialStore: map<string, string>)
      ensures State() == Initial(initialStore)
    {
      user, token, isLoading := None, None, true;
      store := initialStore;
    }

    /** The startup effect that rehydrates the session from the store. */
    method RestoreSession()
      modifies this
      ensures State() == StartupStep(old(State()))
    {
      var storedToken := Lookup(store, TokenKey);
      var storedUser := Lookup(store, UserKey);
      if Truthy(storedToken) && Truthy(storedUser) {
        token := storedToken;
        var parsed := Parse(storedUser.value);
        if parsed.Some? {
          user := parsed;
        } else {
          store := store - {TokenKey};
          store := store - {UserKey};
        }
      }
      isLoading := false;
    }

    method Login(email: string, password: string, idRnd: string, tokenRnd: string) returns (ok: bool)
      modifies this
      ensures Reply(State(), ok) == LoginStep(old(State()), email, password, idRnd, tokenRnd)
      ensures ok ==> State().IsAuthenticated()
      ensures !ok ==> State().IsAuthenticated() == old(State().IsAuthenticated())
    {
      isLoading := true;
      if email == "" || password == "" {
        ok := false;
      } else {
        var mockUser := User(MockId(idRnd), email, Some(LocalPart(email)));
        var mockToken := MockToken(tokenRnd);
        store := store[TokenKey := mockToken];
        store := store[UserKey := Serialise(mockUser)];
        user := Some(mockUser);
        token := Some(mockToken);
        ok := true;
      }
      isLoading := false;
    }

    method Register(email: string, password: string, name: Option<string>, idRnd: string, tokenRnd: string)
      returns (ok: bool)
      modifies this
      ensures Reply(State(), ok) == RegisterStep(old(State()), email, password, name, idRnd, tokenRnd)
    {
      isLoading := true;
      if email == "" || password == "" {
        ok := false;
      } else {
        var mockUser := User(MockId(idRnd), email, Some(DisplayName(name, email)));
        var mockToken := MockToken(tokenRnd);
        store := store[TokenKey := mockToken];
        store := store[UserKey := Serialise(mockUser)];
        user := Some(mockUser);
        token := Some(mockToken);
        ok := true;
      }
      isLoading := false;
    }

    method Logout()
      modifies this
      ensures State() == LogoutStep(old(State()))
      ensures !State().IsAuthenticated()
    {
      store := store - {TokenKey};
      store := store - {UserKey};
      user := None;
      token := None;
    }

    method RequestPasswordReset(email: string) returns (ok: bool)
      modifies this
      ensures Reply(State(), ok) == RequestResetStep(old(State()), email)
    {
      isLoading := true;
      ok := email != "";
      isLoading := false;
    }

    method ResetPassword(resetToken: string, newPassword: string) returns (ok: bool)
      modifies this
      ensures Reply(State(), ok) == ResetPasswordStep(old(State()), resetToken, newPassword)
    {
      isLoading := true;
      ok := resetToken != "" && newPassword != "";
      isLoading := false;
    }
  }
}
