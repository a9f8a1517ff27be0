/** The authentication service of src/lib/auth/auth.ts: the browser key-value store holding the
    session credentials, the request each operation sends, and two pure helpers. */
module Auth {
  import opened Base
  import opened AuthTypes

  const AuthTokenKey := "auth_token"
  const RefreshTokenKey := "refresh_token"
  const UserKey := "user_data"

  const LoginEndpoint := "/auth/login"
  const RegisterEndpoint := "/auth/register"
  const PasswordResetEndpoint := "/auth/password-reset"
  const PasswordResetConfirmEndpoint := "/auth/password-reset/confirm"
  const PasswordUpdateEndpoint := "/auth/password-update"
  const ProfileEndpoint := "/auth/profile"
  const CurrentUserEndpoint := "/auth/me"
  const RefreshEndpoint := "/auth/refresh"

  const UnexpectedError := "Ha ocurrido un error inesperado"
  const NoRefreshToken := "No refresh token available"
  /** The `SyntaxError` thrown by `JSON.parse`; its exact text depends on the JavaScript engine. */
  const MalformedJson := "Unexpected token in JSON"

  /** The three keys the service owns. */
  const SessionKeys: set<string> := {AuthTokenKey, RefreshTokenKey, UserKey}

  /** `formatAuthError`: an `Error`'s message, otherwise the fixed fallback. */
  function FormatAuthError(e: Thrown): (r: string)
    ensures e.Error? ==> r == e.message
    ensures e.NonError? ==> r == UnexpectedError
  {
    match e
    case Error(m) => m
    case NonError => UnexpectedError
  }

  /** The endpoint `updatePassword` posts to: the reset confirmation when a reset token is given. */
  function PasswordUpdateTarget(data: PasswordUpdateData): (r: string)
    ensures r == PasswordResetConfirmEndpoint <==> Truthy(data.token)
    ensures r == PasswordUpdateEndpoint <==> !Truthy(data.token)
  {
    if Truthy(data.token) then PasswordResetConfirmEndpoint else PasswordUpdateEndpoint
  }

  // ---------------------------------------------------------------------------
  // Token expiry

  /** Index of the first `c` in `s`, or `|s|` when there is none. */
  function IndexOf(s: string, c: char): (r: nat)
    ensures r <= |s| && (r < |s| ==> s[r] == c)
    ensures forall k :: 0 <= k < r ==> s[k] != c
  {
    if s == [] || s[0] == c then 0 else 1 + IndexOf(s[1..], c)
  }

  /** `token.split('.')[1]`: the text between the first and the second dot, if there is a dot. */
  function PayloadSegment(token: string): (r: Option<string>)
    ensures r.None? <==> forall k :: 0 <= k < |token| ==> token[k] != '.'
    ensures r.Some? ==>
      exists i ::
        && 0 <= i < |token| && token[i] == '.'
        && (forall k :: 0 <= k < i ==> token[k] != '.')
        && r.value <= token[i + 1..]
        && (forall k :: 0 <= k < |r.value| ==> r.value[k] != '.')
        && (|r.value| == |token| - i - 1 || token[i + 1 + |r.value|] == '.')
  {
    var i := IndexOf(token, '.');
    if i == |token| then None
    else
      var rest := token[i + 1..];
      var j := IndexOf(rest, '.');
      assert rest[..j] <= token[i + 1..];
      Some(rest[..j])
  }

  /** The decoded token payload. `exp` is the JavaScript number `exp * 1000` converts it to:
      `Some(n)` when that conversion gives the integer `n` (a number, a numeric string, or
      `null`, `""`, `false` and `[]` as 0, `true` as 1), `None` when it gives NaN (a missing
      `exp`, an object, a non-numeric string), for which every comparison is false. */
  datatype Claims = Claims(exp: Option<int>)

  /** `isTokenExpired`, with `atob` + `JSON.parse` abstracted as `decode` (None when it throws)
      and `Date.now()` as `now` (milliseconds). */
  function IsTokenExpired(token: string, decode: string -> Option<Claims>, now: int): (r: bool)
    ensures PayloadSegment(token).None? ==> r
    ensures PayloadSegment(token).Some? && decode(PayloadSegment(token).value).None? ==> r
    ensures PayloadSegment(token).Some? && decode(PayloadSegment(token).value) == Some(Claims(None)) ==> !r
    ensures forall exp :: PayloadSegment(token).Some? && decode(PayloadSegment(token).value) == Some(Claims(Some(exp)))
              ==> (r <==> exp * 1000 < now)
  {
    match PayloadSegment(token)
    case None => true
    case Some(seg) =>
      match decode(seg)
      case None => true
      case Some(Claims(None)) => false
      case Some(Claims(Some(exp))) => exp * 1000 < now
  }

  /** A token whose expiry is exactly now is not yet expired. */
  lemma ExpiryIsStrict(token: string, decode: string -> Option<Claims>, exp: int)
    requires PayloadSegment(token).Some? && decode(PayloadSegment(token).value) == Some(Claims(Some(exp)))
    ensures !IsTokenExpired(token, decode, exp * 1000)
    ensures IsTokenExpired(token, decode, exp * 1000 + 1)
  {
  }

  // ---------------------------------------------------------------------------
  // The key-value store

  /** `localStorage.getItem(key)` guarded by `typeof window !== 'undefined'`. */
  function Read(hasWindow: bool, store: map<string, string>, key: string): (r: Option<string>)
    ensures r.Some? <==> hasWindow && key in store
    ensures r.Some? ==> r.value == store[key]
  {
    if hasWindow && key in store then Some(store[key]) else None
  }

  /** `getStoredUser` given the raw `user_data` item: an empty or missing item is no user,
      a malformed one makes `JSON.parse` throw. */
  function DecodeStoredUser(raw: Option<string>, parse: string -> Option<User>): (r: Result<Option<User>, Thrown>)
    ensures !Truthy(raw) ==> r == Success(None)
    ensures Truthy(raw) && parse(raw.value).Some? ==> r == Success(parse(raw.value))
    ensures Truthy(raw) && parse(raw.value).None? ==> r == Failure(Error(MalformedJson))
  {
    if !Truthy(raw) then Success(None)
    else match parse(raw.value)
      case Some(u) => Success(Some(u))
      case None => Failure(Error(MalformedJson))
  }

  /** The store after `setAuthData(response)` in a browser. */
  function WithAuthData(store: map<string, string>, resp: AuthResponse, serialize: User -> string): (r: map<string, string>)
    ensures AuthTokenKey in r && r[AuthTokenKey] == resp.token
    ensures UserKey in r && r[UserKey] == serialize(resp.user)
    ensures Truthy(resp.refreshToken) ==> RefreshTokenKey in r && r[RefreshTokenKey] == resp.refreshToken.value
    ensures !Truthy(resp.refreshToken) ==>
      && (RefreshTokenKey in r <==> RefreshTokenKey in store)
      && (RefreshTokenKey in store ==> r[RefreshTokenKey] == store[RefreshTokenKey])
    ensures r.Keys == store.Keys + {AuthTokenKey, UserKey} + (if Truthy(resp.refreshToken) then {RefreshTokenKey} else {})
    ensures forall k :: k in store && k !in SessionKeys ==> r[k] == store[k]
  {
    var s := store[AuthTokenKey := resp.token][UserKey := serialize(resp.user)];
    if Truthy(resp.refreshToken) then s[RefreshTokenKey := resp.refreshToken.value] else s
  }

  /** The store after `logout()` in a browser. */
  function WithoutAuthData(store: map<string, string>): (r: map<string, string>)
    ensures r.Keys == store.Keys - SessionKeys
    ensures forall k :: k in r ==> r[k] == store[k]
  {
    store - SessionKeys
  }

  /** `JSON.parse` undoes `JSON.stringify` on users, and a serialised user is never empty. */
  ghost predicate RoundTrips(serialize: User -> string, parse: string -> Option<User>) {
    forall u :: serialize(u) != "" && parse(serialize(u)) == Some(u)
  }

  /** After a successful login in a browser, reading the store back yields the response's token
      and user, and the session counts as authenticated. */
  lemma StoredSessionReadsBack(store: map<string, string>, resp: AuthResponse,
                               serialize: User -> string, parse: string -> Option<User>)
    requires RoundTrips(serialize, parse)
    ensures var s := WithAuthData(store, resp, serialize);
      && Read(true, s, AuthTokenKey) == Some(resp.token)
      && DecodeStoredUser(Read(true, s, UserKey), parse) == Success(Some(resp.user))
  {
    var s := WithAuthData(store, resp, serialize);
    assert serialize(resp.user) != "" && parse(serialize(resp.user)) == Some(resp.user);
  }

  /** `AuthService` with `localStorage` as a map and the outcome of each request as a parameter.
      `requests` records the endpoints requested, in order. */
  class AuthService {
    var storage: map<string, string>
    const hasWindow: bool
    const serialize: User -> string
    const parse: string -> Option<User>
    ghost var requests: seq<string>

    constructor (hasWindow: bool, storage: map<string, string>, serialize: User -> string, parse: string -> Option<User>)
      ensures this.hasWindow == hasWindow && this.storage == storage
      ensures this.serialize == serialize && this.parse == parse && requests == []
    {
      this.hasWindow := hasWindow;
      this.storage := storage;
      this.serialize := serialize;
      this.parse := parse;
      requests := [];
    }

    function GetToken(): (r: Option<string>)
      reads this
      ensures r.Some? <==> hasWindow && AuthTokenKey in storage
      ensures r.Some? ==> r.value == storage[AuthTokenKey]
    {
      Read(hasWindow, storage, AuthTokenKey)
    }

    function GetRefreshToken(): (r: Option<string>)
      reads this
      ensures r.Some? <==> hasWindow && RefreshTokenKey in storage
      ensures r.Some? ==> r.value == storage[RefreshTokenKey]
    {
      Read(hasWindow, storage, RefreshTokenKey)
    }

    function GetStoredUser(): (r: Result<Option<User>, Thrown>)
      reads this
      ensures !hasWindow || UserKey !in storage || storage[UserKey] == "" ==> r == Success(None)
      ensures hasWindow && UserKey in storage && storage[UserKey] != "" ==>
        r == (if parse(storage[UserKey]).Some? then Success(parse(storage[UserKey])) else Failure(Error(MalformedJson)))
    {
      DecodeStoredUser(Read(hasWindow, storage, UserKey), parse)
    }

    function IsAuthenticated(): (r: bool)
      reads this
      ensures r <==> hasWindow && AuthTokenKey in storage
    {
      GetToken() != None
    }

    method SetAuthData(resp: AuthResponse)
      modifies this
      ensures storage == if hasWindow then WithAuthData(old(storage), resp, serialize) else old(storage)
      ensures requests == old(requests)
    {
      if hasWindow {
        storage := storage[AuthTokenKey := resp.token];
        storage := storage[UserKey := serialize(resp.user)];
        if Truthy(resp.refreshToken) {
          storage := storage[RefreshTokenKey := resp.refreshToken.value];
        }
      }
    }

    method Logout()
      modifies this
      ensures storage == if hasWindow then WithoutAuthData(old(storage)) else old(storage)
      ensures requests == old(requests)
      ensures GetToken() == None && GetRefreshToken() == None && GetStoredUser() == Success(None)
      ensures !IsAuthenticated()
    {
      if hasWindow {
        storage := storage - {AuthTokenKey};
        storage := storage - {RefreshTokenKey};
        storage := storage - {UserKey};
      }
    }

    method Login(data: LoginData, reply: Result<AuthResponse, Thrown>) returns (r: Result<AuthResponse, Thrown>)
      modifies this
      ensures r == reply
      ensures requests == old(requests) + [LoginEndpoint]
      ensures storage == if reply.Success? && hasWindow then WithAuthData(old(storage), reply.value, serialize) else old(storage)
    {
      requests := requests + [LoginEndpoint];
      r := reply;
      if reply.Success? {
        SetAuthData(reply.value);
      }
    }

    method Register(data: RegisterData, reply: Result<AuthResponse, Thrown>) returns (r: Result<AuthResponse, Thrown>)
      modifies this
      ensures r == reply && storage == old(storage)
      ensures requests == old(requests) + [RegisterEndpoint]
    {
      requests := requests + [RegisterEndpoint];
      r := reply;
    }

    method ResetPassword(data: PasswordResetData, reply: Result<string, Thrown>) returns (r: Result<string, Thrown>)
      modifies this
      ensures r == reply && storage == old(storage)
      ensures requests == old(requests) + [PasswordResetEndpoint]
    {
      requests := requests + [PasswordResetEndpoint];
      r := reply;
    }

    method UpdatePassword(data: PasswordUpdateData, reply: Result<string, Thrown>) returns (r: Result<string, Thrown>)
      modifies this
      ensures r == reply && storage == old(storage)
      ensures requests == old(requests) + [PasswordUpdateTarget(data)]
    {
      var endpoint := PasswordUpdateTarget(data);
      requests := requests + [endpoint];
      r := reply;
    }

    method UpdateProfile(data: ProfileData, reply: Result<User, Thrown>) returns (r: Result<User, Thrown>)
      modifies this
      ensures r == reply && storage == old(storage)
      ensures requests == old(requests) + [ProfileEndpoint]
    {
      requests := requests + [ProfileEndpoint];
      r := reply;
    }

    method GetCurrentUser(reply: Result<User, Thrown>) returns (r: Result<User, Thrown>)
      modifies this
      ensures r == reply && storage == old(storage)
      ensures requests == old(requests) + [CurrentUserEndpoint]
    {
      requests := requests + [CurrentUserEndpoint];
      r := reply;
    }

    /** Without a stored refresh token the call fails before any request is sent. */
    method RefreshToken(reply: Result<AuthResponse, Thrown>) returns (r: Result<AuthResponse, Thrown>)
      modifies this
      ensures !Truthy(old(GetRefreshToken())) ==>
        r == Failure(Error(NoRefreshToken)) && requests == old(requests) && storage == old(storage)
      ensures Truthy(old(GetRefreshToken())) ==>
        && r == reply
        && requests == old(requests) + [RefreshEndpoint]
        && storage == if reply.Success? && hasWindow then WithAuthData(old(storage), reply.value, serialize) else old(storage)
    {
      var refreshToken := GetRefreshToken();
      if !Truthy(refreshToken) {
        return Failure(Error(NoRefreshToken));
      }
      requests := requests + [RefreshEndpoint];
      r := reply;
      if reply.Success? {
        SetAuthData(reply.value);
      }
    }
  }
}
