/**
 * The demo authentication session: the signed-in user, whether the session
 * has been restored from storage yet, and the `raa_auth_user` storage entry.
 */
module Auth {
  import opened Wrappers
  import opened Browser
  import opened Strings

  datatype User = User(email: string, name: string)

  /** The storage key the session is persisted under. */
  const UserKey := "raa_auth_user"

  /** The demo account. */
  const DemoEmail := "radiologist@demo.com"
  const DemoPassword := "demo123"
  const DemoName := "Dr. Demo"

  /**
   * The credential test as written: the demo account, or any email with the
   * literal password `demo123`. The demo-account disjunct adds nothing,
   * since the demo password is that same literal.
   */
  function Accepts(email: string, password: string): (ok: bool)
    ensures ok <==> password == DemoPassword
  {
    (email == DemoEmail && password == DemoPassword) || password == "demo123"
  }

  /** The display name given at sign-in: the demo name, or the text before the first `@`. */
  function NameFor(email: string): (name: string)
    ensures email == DemoEmail ==> name == DemoName
    ensures email != DemoEmail ==> IsHeadBefore(email, '@', name)
  {
    if email == DemoEmail then DemoName else Split(email, '@')[0]
  }

  /** An address without `@` is its own name; one starting with `@` gives the empty name. */
  lemma NameEdgeCases(email: string)
    ensures '@' !in email ==> NameFor(email) == email
    ensures |email| > 0 && email[0] == '@' ==> NameFor(email) == ""
  {
  }

  /** The provider's state together with the storage it reads and writes. */
  datatype AuthState = AuthState(user: Option<User>, hydrated: bool, store: map<string, string>)

  /** A freshly mounted provider: nobody signed in, not yet restored. */
  function Initial(store: map<string, string>): (s: AuthState)
    ensures s.user == None && !s.hydrated && s.store == store
  {
    AuthState(None, false, store)
  }

  /**
   * The restoring effect: adopt the stored session when its entry is present,
   * non-empty and parses; keep the current user otherwise; always end restored.
   */
  function AfterHydrate(s: AuthState, parse: string -> ParseResult<Option<User>>): (r: AuthState)
    ensures r.hydrated && r.store == s.store
    ensures UserKey in s.store && s.store[UserKey] != "" && parse(s.store[UserKey]).Parsed?
            ==> r.user == parse(s.store[UserKey]).value
    ensures !(UserKey in s.store && s.store[UserKey] != "" && parse(s.store[UserKey]).Parsed?)
            ==> r.user == s.user
  {
    var raw := if UserKey in s.store then Some(s.store[UserKey]) else None;
    var user :=
      if raw.Some? && raw.value != "" then
        match parse(raw.value)
        case Parsed(u) => u
        case SyntaxError => s.user
      else s.user;
    AuthState(user, true, s.store)
  }

  /**
   * Sign-in: on accepted credentials the user with the given email and the
   * derived name becomes current and is serialised under `raa_auth_user`;
   * otherwise nothing changes. The flag is the resolved value of the promise.
   */
  function AfterLogin(s: AuthState, email: string, password: string, stringify: User -> string): (r: (AuthState, bool))
    ensures r.1 <==> password == DemoPassword
    ensures r.1 ==> && r.0.user.Some?
                    && r.0.user.value.email == email
                    && r.0.user.value.name == NameFor(email)
                    && r.0.store == s.store[UserKey := stringify(r.0.user.value)]
                    && r.0.hydrated == s.hydrated
    ensures !r.1 ==> r.0 == s
  {
    if Accepts(email, password) then
      var u := User(email, NameFor(email));
      (AuthState(Some(u), s.hydrated, s.store[UserKey := stringify(u)]), true)
    else
      (s, false)
  }

  /** Sign-out: no user, no `raa_auth_user` entry, every other entry kept. */
  function AfterLogout(s: AuthState): (r: AuthState)
    ensures r.user == None && UserKey !in r.store && r.hydrated == s.hydrated
    ensures forall k :: k in s.store && k != UserKey ==> k in r.store && r.store[k] == s.store[k]
    ensures forall k :: k in r.store ==> k in s.store
  {
    AuthState(None, s.hydrated, s.store - {UserKey})
  }

  /** Signing out twice is signing out once. */
  lemma LogoutIdempotent(s: AuthState)
    ensures AfterLogout(AfterLogout(s)) == AfterLogout(s)
  {
  }

  /**
   * A successful sign-in survives a reload: a new provider restoring from the
   * storage it left gets the same user back, provided parsing inverts
   * serialising and the serialised text is not empty.
   */
  lemma LoginSurvivesReload(s: AuthState, email: string, password: string,
                            stringify: User -> string, parse: string -> ParseResult<Option<User>>)
    requires password == DemoPassword
    requires parse(stringify(User(email, NameFor(email)))) == Parsed(Some(User(email, NameFor(email))))
    requires stringify(User(email, NameFor(email))) != ""
    ensures AfterHydrate(Initial(AfterLogin(s, email, password, stringify).0.store), parse).user
            == Some(User(email, NameFor(email)))
  {
  }

  /** After sign-out a reload restores nobody, whatever the parser does. */
  lemma LogoutSurvivesReload(s: AuthState, parse: string -> ParseResult<Option<User>>)
    ensures AfterHydrate(Initial(AfterLogout(s).store), parse).user == None
  {
  }

  /** `AuthProvider`: the context's `user` and `hydrated` over the shared storage. */
  class AuthProvider {
    var user: Option<User>
    var hydrated: bool
    const storage: LocalStorage

    ghost function State(): AuthState
      reads this, storage
    {
      AuthState(user, hydrated, storage.items)
    }

    constructor (storage: LocalStorage)
      ensures this.storage == storage
      ensures State() == Initial(storage.items)
    {
      this.storage := storage;
      user := None;
      hydrated := false;
    }

    /** The mount effect that restores the session from storage. */
    method Hydrate(parse: string -> ParseResult<Option<User>>)
      modifies this
      ensures State() == AfterHydrate(old(State()), parse)
    {
      var raw := storage.GetItem(UserKey);
      if raw.Some? && raw.value != "" {
        var parsed := parse(raw.value);
        if parsed.Parsed? {
          user := parsed.value;
        }
      }
      hydrated := true;
    }

    method Login(email: string, password: string, stringify: User -> string) returns (ok: bool)
      modifies this, storage
      ensures (State(), ok) == AfterLogin(old(State()), email, password, stringify)
    {
      if Accepts(email, password) {
        var u := User(email, NameFor(email));
        user := Some(u);
        storage.SetItem(UserKey, stringify(u));
        return true;
      }
      return false;
    }

    method Logout()
      modifies this, storage
      ensures State() == AfterLogout(old(State()))
    {
      user := None;
      storage.RemoveItem(UserKey);
    }
  }
}
