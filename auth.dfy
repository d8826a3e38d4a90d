/** The credential store (`authSlice`): the access token, refresh token and
    user email held in memory and mirrored into the browser's key/value storage. */
module Auth {
  import opened Wrappers

  const AccessTokenKey := "accessToken"
  const RefreshTokenKey := "refreshToken"
  const UserEmailKey := "userEmail"

  /** The three storage keys the store owns. */
  function AuthKeys(): set<string>
  {
    {AccessTokenKey, RefreshTokenKey, UserEmailKey}
  }

  /** The in-memory credentials together with the key/value storage they are mirrored into. */
  datatype AuthModel = AuthModel(
    accessToken: Option<string>,
    refreshToken: Option<string>,
    userEmail: Option<string>,
    storage: map<string, string>)

  /** The payload of `setTokens`; `email` is optional. */
  datatype TokenPayload = TokenPayload(accessToken: string, refreshToken: string, email: Option<string>)

  /** Memory and storage agree on all three credentials. */
  ghost predicate Mirrored(m: AuthModel)
  {
    && m.accessToken == Get(m.storage, AccessTokenKey)
    && m.refreshToken == Get(m.storage, RefreshTokenKey)
    && m.userEmail == Get(m.storage, UserEmailKey)
  }

  /** Two storages agree on every key the store does not own. */
  ghost predicate SameOutside(a: map<string, string>, b: map<string, string>)
  {
    forall k :: k !in AuthKeys() ==> Get(a, k) == Get(b, k)
  }

  /** The state the store starts in: each field is what storage holds, or null when the key is missing. */
  function InitialState(storage: map<string, string>): (m: AuthModel)
    ensures m.storage == storage
    ensures m.accessToken.Some? <==> AccessTokenKey in storage
    ensures m.refreshToken.Some? <==> RefreshTokenKey in storage
    ensures m.userEmail.Some? <==> UserEmailKey in storage
    ensures Mirrored(m)
  {
    AuthModel(Get(storage, AccessTokenKey), Get(storage, RefreshTokenKey), Get(storage, UserEmailKey), storage)
  }

  /** `setTokens` on a value: both tokens replaced, the email only when the payload's is non-empty. */
  function SetTokensStep(m: AuthModel, p: TokenPayload): AuthModel
  {
    var email := if Truthy(p.email) then p.email else m.userEmail;
    var s := m.storage[AccessTokenKey := p.accessToken][RefreshTokenKey := p.refreshToken];
    AuthModel(
      Some(p.accessToken),
      Some(p.refreshToken),
      email,
      if Truthy(p.email) then s[UserEmailKey := p.email.value] else s)
  }

  /** `clearAuth` on a value: all three fields null and all three keys removed. */
  function ClearAuthStep(m: AuthModel): AuthModel
  {
    AuthModel(None, None, None, m.storage - AuthKeys())
  }

  // ---------------------------------------------------------------------
  // Properties of the reducers

  /** `setTokens` stores both payload tokens in memory and in storage. */
  lemma SetTokensStoresTokens(m: AuthModel, p: TokenPayload)
    ensures var r := SetTokensStep(m, p);
      && r.accessToken == Some(p.accessToken) && Get(r.storage, AccessTokenKey) == Some(p.accessToken)
      && r.refreshToken == Some(p.refreshToken) && Get(r.storage, RefreshTokenKey) == Some(p.refreshToken)
  {
  }

  /** The email, in memory and in storage, changes only for a non-empty payload email. */
  lemma SetTokensEmail(m: AuthModel, p: TokenPayload)
    ensures var r := SetTokensStep(m, p);
      && (Truthy(p.email) ==> r.userEmail == p.email && Get(r.storage, UserEmailKey) == p.email)
      && (!Truthy(p.email) ==> r.userEmail == m.userEmail && Get(r.storage, UserEmailKey) == Get(m.storage, UserEmailKey))
  {
  }

  /** `clearAuth` leaves no credential in memory or in storage, and a second one changes nothing. */
  lemma ClearAuthClearsAndIsIdempotent(m: AuthModel)
    ensures var r := ClearAuthStep(m);
      && r.accessToken.None? && r.refreshToken.None? && r.userEmail.None?
      && AccessTokenKey !in r.storage && RefreshTokenKey !in r.storage && UserEmailKey !in r.storage
      && ClearAuthStep(r) == r
  {
  }

  /** Both reducers keep memory and storage in step, and touch no key they do not own. */
  lemma ReducersKeepMirror(m: AuthModel, p: TokenPayload)
    requires Mirrored(m)
    ensures Mirrored(SetTokensStep(m, p)) && SameOutside(SetTokensStep(m, p).storage, m.storage)
    ensures Mirrored(ClearAuthStep(m)) && SameOutside(ClearAuthStep(m).storage, m.storage)
  {
  }

  /** Whatever the previous state, `setTokens` leaves the tokens mirrored and `clearAuth`
      leaves everything mirrored. */
  lemma TokensMirroredAfterAnyReducer(m: AuthModel, p: TokenPayload)
    ensures var r := SetTokensStep(m, p);
      r.accessToken == Get(r.storage, AccessTokenKey) && r.refreshToken == Get(r.storage, RefreshTokenKey)
    ensures Mirrored(ClearAuthStep(m))
  {
  }

  /** The store as the application holds it: one object whose reducers update it in place. */
  class AuthSlice {
    var accessToken: Option<string>
    var refreshToken: Option<string>
    var userEmail: Option<string>
    /** The browser's key/value storage (`localStorage`). */
    var storage: map<string, string>

    /** The store's value. */
    function Model(): AuthModel
      reads this
    {
      AuthModel(accessToken, refreshToken, userEmail, storage)
    }

    /** Object invariant: memory mirrors storage. */
    ghost predicate Valid()
      reads this
    {
      Mirrored(Model())
    }

    /** The slice's `initialState`, read from storage at start-up. */
    constructor (initialStorage: map<string, string>)
      ensures Model() == InitialState(initialStorage)
      ensures Valid()
    {
      accessToken := Get(initialStorage, AccessTokenKey);
      refreshToken := Get(initialStorage, RefreshTokenKey);
      userEmail := Get(initialStorage, UserEmailKey);
      storage := initialStorage;
    }

    /** The `setTokens` reducer together with its storage writes. */
    method SetTokens(p: TokenPayload)
      requires Valid()
      modifies this
      ensures Valid()
      ensures Model() == SetTokensStep(old(Model()), p)
    {
      accessToken := Some(p.accessToken);
      refreshToken := Some(p.refreshToken);
      if p.email.Some? && p.email.value != "" {
        userEmail := p.email;
      }
      storage := storage[AccessTokenKey := p.accessToken];
      storage := storage[RefreshTokenKey := p.refreshToken];
      if p.email.Some? && p.email.value != "" {
        storage := storage[UserEmailKey := p.email.value];
      }
    }

    /** The `clearAuth` reducer together with its storage removals. */
    method ClearAuth()
      modifies this
      ensures Valid()
      ensures Model() == ClearAuthStep(old(Model()))
    {
      accessToken := None;
      refreshToken := None;
      userEmail := None;
      storage := storage - {AccessTokenKey};
      storage := storage - {RefreshTokenKey};
      storage := storage - {UserEmailKey};
    }
  }
}
