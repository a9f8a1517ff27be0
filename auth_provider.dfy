/** The session state machine of src/components/auth/AuthProvider.tsx: the reducer, the actions
    each operation dispatches, and the provider object holding the state. */
module Provider {
  import opened Base
  import opened AuthTypes
  import opened AuthValidations
  import opened Auth

  const InitialState: AuthState := AuthState(None, false, false, None)

  /** The state is authenticated exactly when it holds a user. */
  predicate Consistent(s: AuthState) {
    s.isAuthenticated == s.user.Some?
  }

  /** `authReducer`. */
  function Reduce(s: AuthState, a: AuthAction): (r: AuthState)
    ensures Consistent(s) ==> Consistent(r)
  {
    match a
    case AuthStart => s.(isLoading := true, error := None)
    case AuthSuccess(u) => s.(user := Some(u), isAuthenticated := true, isLoading := false, error := None)
    case AuthFailure(m) => s.(user := None, isAuthenticated := false, isLoading := false, error := Some(m))
    case AuthLogout => s.(user := None, isAuthenticated := false, isLoading := false, error := None)
    case ClearError => s.(error := None)
    case UpdateProfile(p) => s.(user := if s.user.Some? then Some(ApplyPatch(s.user.value, p)) else None)
  }

  /** The state after dispatching `acts` in order. */
  function Run(s: AuthState, acts: seq<AuthAction>): AuthState
    decreases |acts|
  {
    if acts == [] then s else Run(Reduce(s, acts[0]), acts[1..])
  }

  lemma {:induction false} RunSnoc(s: AuthState, acts: seq<AuthAction>, a: AuthAction)
    ensures Run(s, acts + [a]) == Reduce(Run(s, acts), a)
    decreases |acts|
  {
    if acts != [] {
      assert (acts + [a])[1..] == acts[1..] + [a];
      RunSnoc(Reduce(s, acts[0]), acts[1..], a);
    }
  }

  // ---------------------------------------------------------------------------
  // Properties of the reducer

  lemma InitialStateConsistent()
    ensures Consistent(InitialState) && InitialState.user == None && !InitialState.isLoading
  {
  }

  lemma {:induction false} RunConsistent(s: AuthState, acts: seq<AuthAction>)
    requires Consistent(s)
    ensures Consistent(Run(s, acts))
    decreases |acts|
  {
    if acts != [] { RunConsistent(Reduce(s, acts[0]), acts[1..]); }
  }

  /** A failure clears the session and records the message; a logout does the same without a message. */
  lemma FailureAndLogout(s: AuthState, m: string)
    ensures Reduce(s, AuthFailure(m)) == AuthState(None, false, false, Some(m))
    ensures Reduce(s, AuthLogout) == AuthState(None, false, false, None)
  {
  }

  /** Clearing the error touches nothing else and is idempotent. */
  lemma ClearErrorOnlyClears(s: AuthState)
    ensures Reduce(s, ClearError) == s.(error := None)
    ensures Reduce(Reduce(s, ClearError), ClearError) == Reduce(s, ClearError)
    ensures s.error == None ==> Reduce(s, ClearError) == s
  {
  }

  /** A profile update is a no-op without a user and otherwise overwrites exactly the patch's fields;
      it never touches the flags or the error. */
  lemma UpdateProfileMerges(s: AuthState, p: UserPatch)
    ensures s.user == None ==> Reduce(s, UpdateProfile(p)) == s
    ensures s.user.Some? ==> Reduce(s, UpdateProfile(p)).user == Some(ApplyPatch(s.user.value, p))
    ensures var r := Reduce(s, UpdateProfile(p));
      r.isLoading == s.isLoading && r.isAuthenticated == s.isAuthenticated && r.error == s.error
  {
  }

  // ---------------------------------------------------------------------------
  // The actions each operation dispatches

  function FailureOf<T>(reply: Result<T, Thrown>): (r: Option<Thrown>)
    ensures r.Some? <==> reply.Failure?
  {
    if reply.Failure? then Some(reply.error) else None
  }

  /** The template every mutating operation follows: a failed validation dispatches one failure
      with the joined messages; otherwise the start, then the success actions or a failure with
      the normalised message of what the service threw. */
  function Attempt(v: ValidationResult, thrown: Option<Thrown>, onSuccess: seq<AuthAction>): (acts: seq<AuthAction>)
    ensures !v.isValid ==> acts == [AuthFailure(JoinMessages(v.errors))]
    ensures v.isValid ==> |acts| >= 1 && acts[0] == AuthStart
    ensures v.isValid && thrown.Some? ==> acts == [AuthStart, AuthFailure(FormatAuthError(thrown.value))]
    ensures v.isValid && thrown.None? ==> acts == [AuthStart] + onSuccess
  {
    if !v.isValid then [AuthFailure(JoinMessages(v.errors))]
    else if thrown.Some? then [AuthStart, AuthFailure(FormatAuthError(thrown.value))]
    else [AuthStart] + onSuccess
  }

  function LoginActions(data: LoginData, reply: Result<AuthResponse, Thrown>): seq<AuthAction> {
    Attempt(ValidateLoginData(data), FailureOf(reply),
      if reply.Success? then [AuthSuccess(reply.value.user)] else [])
  }

  function RegisterActions(data: RegisterData, reply: Result<AuthResponse, Thrown>): seq<AuthAction> {
    Attempt(ValidateRegisterData(data), FailureOf(reply), [])
  }

  function ResetPasswordActions(data: PasswordResetData, reply: Result<string, Thrown>): seq<AuthAction> {
    Attempt(ValidatePasswordResetData(data), FailureOf(reply), [ClearError])
  }

  function UpdatePasswordActions(data: PasswordUpdateData, reply: Result<string, Thrown>): seq<AuthAction> {
    Attempt(ValidatePasswordUpdateData(data), FailureOf(reply), [ClearError])
  }

  function UpdateProfileActions(data: ProfileData, reply: Result<User, Thrown>): seq<AuthAction> {
    Attempt(ValidateProfileData(data), FailureOf(reply),
      if reply.Success? then [UpdateProfile(PatchOf(reply.value))] else [])
  }

  /** `initializeAuth` acts only when a stored user and a non-empty token are both present;
      `getStoredUser` throwing aborts it before anything is dispatched. */
  predicate InitFetches(stored: Result<Option<User>, Thrown>, token: Option<string>) {
    stored.Success? && stored.value.Some? && Truthy(token)
  }

  function InitActions(stored: Result<Option<User>, Thrown>, token: Option<string>, fetched: Result<User, Thrown>): seq<AuthAction> {
    if !InitFetches(stored, token) then []
    else if fetched.Success? then [AuthSuccess(fetched.value)]
    else [AuthLogout]
  }

  // ---------------------------------------------------------------------------
  // What the operations do to the session

  /** Dispatching one or two actions. */
  lemma RunShort(s: AuthState, a: AuthAction, b: AuthAction)
    ensures Run(s, [a]) == Reduce(s, a)
    ensures Run(s, [a, b]) == Reduce(Reduce(s, a), b)
  {
    assert [] + [a] == [a] && [a] + [b] == [a, b];
    RunSnoc(s, [], a);
    RunSnoc(s, [a], b);
  }

  /** Invalid input: one failure carrying the joined messages, whatever the service would have said. */
  lemma InvalidInputFails(s: AuthState, v: ValidationResult, thrown: Option<Thrown>, onSuccess: seq<AuthAction>)
    requires !v.isValid
    ensures Run(s, Attempt(v, thrown, onSuccess)) == AuthState(None, false, false, Some(JoinMessages(v.errors)))
  {
    // Attempt yields the single failure here; RunShort's second action is unused.
    RunShort(s, AuthFailure(JoinMessages(v.errors)), ClearError);
  }

  /** A service failure after valid input ends unauthenticated, not loading, with the formatted message. */
  lemma ServiceFailureFails(s: AuthState, v: ValidationResult, e: Thrown, onSuccess: seq<AuthAction>)
    requires v.isValid
    ensures Run(s, Attempt(v, Some(e), onSuccess)) == AuthState(None, false, false, Some(FormatAuthError(e)))
  {
    RunShort(s, AuthStart, AuthFailure(FormatAuthError(e)));
  }

  lemma LoginSuccess(s: AuthState, data: LoginData, resp: AuthResponse)
    requires ValidateLoginData(data).isValid
    ensures Run(s, LoginActions(data, Success(resp))) == AuthState(Some(resp.user), true, false, None)
  {
    assert LoginActions(data, Success(resp)) == [AuthStart, AuthSuccess(resp.user)];
    RunShort(s, AuthStart, AuthSuccess(resp.user));
  }

  // Nothing after the start resets `isLoading` when register, resetPassword, updatePassword or
  // updateProfile succeed: the session stays loading with no error.

  lemma RegisterSuccessStaysLoading(s: AuthState, data: RegisterData, resp: AuthResponse)
    requires ValidateRegisterData(data).isValid
    ensures Run(s, RegisterActions(data, Success(resp))) == s.(isLoading := true, error := None)
  {
    assert RegisterActions(data, Success(resp)) == [AuthStart];
    RunShort(s, AuthStart, AuthStart);
  }

  lemma ResetSuccessStaysLoading(s: AuthState, data: PasswordResetData, msg: string)
    requires ValidatePasswordResetData(data).isValid
    ensures Run(s, ResetPasswordActions(data, Success(msg))) == s.(isLoading := true, error := None)
  {
    assert ResetPasswordActions(data, Success(msg)) == [AuthStart, ClearError];
    RunShort(s, AuthStart, ClearError);
  }

  lemma UpdatePasswordSuccessStaysLoading(s: AuthState, data: PasswordUpdateData, msg: string)
    requires ValidatePasswordUpdateData(data).isValid
    ensures Run(s, UpdatePasswordActions(data, Success(msg))) == s.(isLoading := true, error := None)
  {
    assert UpdatePasswordActions(data, Success(msg)) == [AuthStart, ClearError];
    RunShort(s, AuthStart, ClearError);
  }

  /** A successful profile update keeps loading; with a user present the session user becomes
      the response's user, keeping the old phone or bio only where the response has none, and
      without one the session stays empty. */
  lemma ProfileSuccessMerges(s: AuthState, data: ProfileData, u: User)
    requires ValidateProfileData(data).isValid
    ensures var r := Run(s, UpdateProfileActions(data, Success(u)));
      && r.isLoading && r.error == None && r.isAuthenticated == s.isAuthenticated
      && (s.user.None? ==> r.user.None?)
      && (s.user.Some? ==> r.user == Some(u.(phone := if u.phone.Some? then u.phone else s.user.value.phone,
                                             bio := if u.bio.Some? then u.bio else s.user.value.bio)))
  {
    var p := PatchOf(u);
    assert UpdateProfileActions(data, Success(u)) == [AuthStart, AuthAction.UpdateProfile(p)];
    RunShort(s, AuthStart, AuthAction.UpdateProfile(p));
  }

  /** Registering with a three-character password never reaches the service: the session error
      names the length rule. */
  lemma ShortPasswordRegister(s: AuthState, data: RegisterData, reply: Result<AuthResponse, Thrown>)
    requires |data.password| == 3
    ensures RegisterActions(data, reply) == [AuthFailure(JoinMessages(ValidateRegisterData(data).errors))]
    ensures exists pre, post :: Run(s, RegisterActions(data, reply)).error == Some(pre + PasswordTooShort + post)
  {
    var v := ValidateRegisterData(data);
    JoinMessagesContains(v.errors, ValidationError("password", PasswordTooShort));
    RunShort(s, AuthFailure(JoinMessages(v.errors)), ClearError);
  }

  /** Initialisation installs the freshly fetched user, never the stored copy. */
  lemma InitUsesFetchedUser(s: AuthState, stored: User, token: string, current: User)
    requires token != ""
    ensures Run(s, InitActions(Success(Some(stored)), Some(token), Success(current))).user == Some(current)
  {
  }

  /** A failing fetch at initialisation logs out silently; without stored credentials nothing happens. */
  lemma InitFailureLogsOut(s: AuthState, stored: Result<Option<User>, Thrown>, token: Option<string>, e: Thrown)
    ensures InitFetches(stored, token) ==> Run(s, InitActions(stored, token, Failure(e))) == AuthState(None, false, false, None)
    ensures !InitFetches(stored, token) ==> forall f :: Run(s, InitActions(stored, token, f)) == s
  {
  }

  // ---------------------------------------------------------------------------
  // The provider object

  class AuthProvider {
    var state: AuthState
    ghost var dispatched: seq<AuthAction>
    const service: AuthService

    ghost predicate Valid()
      reads this
    {
      Consistent(state)
    }

    constructor (service: AuthService)
      ensures Valid() && state == InitialState && dispatched == [] && this.service == service
    {
      state := InitialState;
      dispatched := [];
      this.service := service;
    }

    method Dispatch(a: AuthAction)
      requires Valid()
      modifies this
      ensures Valid()
      ensures state == Reduce(old(state), a) && dispatched == old(dispatched) + [a]
    {
      state := Reduce(state, a);
      dispatched := dispatched + [a];
    }

    /** Dispatches the template's actions once the service has answered. */
    method Conclude(ghost start: AuthState, ghost before: seq<AuthAction>, thrown: Option<Thrown>, onSuccess: seq<AuthAction>)
      requires Valid() && |onSuccess| <= 1
      requires state == Reduce(start, AuthStart) && dispatched == before + [AuthStart]
      modifies this
      ensures Valid()
      ensures dispatched == before + Attempt(ValidationResult(true, []), thrown, onSuccess)
      ensures state == Run(start, Attempt(ValidationResult(true, []), thrown, onSuccess))
    {
      if thrown.Some? {
        Dispatch(AuthFailure(FormatAuthError(thrown.value)));
        RunShort(start, AuthStart, AuthFailure(FormatAuthError(thrown.value)));
      } else if onSuccess != [] {
        Dispatch(onSuccess[0]);
        assert [AuthStart] + onSuccess == [AuthStart, onSuccess[0]];
        RunShort(start, AuthStart, onSuccess[0]);
      } else {
        RunShort(start, AuthStart, AuthStart);
      }
    }

    method Login(data: LoginData, reply: Result<AuthResponse, Thrown>) returns (thrown: Option<Thrown>)
      requires Valid()
      modifies this, service
      ensures Valid()
      ensures dispatched == old(dispatched) + LoginActions(data, reply)
      ensures state == Run(old(state), LoginActions(data, reply))
      ensures thrown == if ValidateLoginData(data).isValid then FailureOf(reply) else None
      ensures !ValidateLoginData(data).isValid ==> unchanged(service)
      ensures ValidateLoginData(data).isValid ==>
        && service.requests == old(service.requests) + [LoginEndpoint]
        && service.storage == if reply.Success? && service.hasWindow
                              then WithAuthData(old(service.storage), reply.value, service.serialize)
                              else old(service.storage)
    {
      var validation := ValidateLoginData(data);
      if !validation.isValid {
        Dispatch(AuthFailure(JoinMessages(validation.errors)));
        return None;
      }
      ghost var start, before := state, dispatched;
      Dispatch(AuthStart);
      var response := service.Login(data, reply);
      thrown := FailureOf(response);
      Conclude(start, before, thrown, if response.Success? then [AuthSuccess(response.value.user)] else []);
      assert LoginActions(data, reply) == Attempt(ValidationResult(true, []), thrown, if reply.Success? then [AuthSuccess(reply.value.user)] else []);
    }

    method Register(data: RegisterData, reply: Result<AuthResponse, Thrown>) returns (thrown: Option<Thrown>)
      requires Valid()
      modifies this, service
      ensures Valid()
      ensures dispatched == old(dispatched) + RegisterActions(data, reply)
      ensures state == Run(old(state), RegisterActions(data, reply))
      ensures thrown == if ValidateRegisterData(data).isValid then FailureOf(reply) else None
      ensures service.storage == old(service.storage)
      ensures service.requests == old(service.requests) + (if ValidateRegisterData(data).isValid then [RegisterEndpoint] else [])
    {
      var validation := ValidateRegisterData(data);
      if !validation.isValid {
        Dispatch(AuthFailure(JoinMessages(validation.errors)));
        return None;
      }
      ghost var start, before := state, dispatched;
      Dispatch(AuthStart);
      var response := service.Register(data, reply);
      thrown := FailureOf(response);
      Conclude(start, before, thrown, []);
      assert RegisterActions(data, reply) == Attempt(ValidationResult(true, []), thrown, []);
    }

    method Logout()
      requires Valid()
      modifies this, service
      ensures Valid()
      ensures dispatched == old(dispatched) + [AuthLogout]
      ensures state == AuthState(None, false, false, None)
      ensures service.storage == if service.hasWindow then WithoutAuthData(old(service.storage)) else old(service.storage)
      ensures service.requests == old(service.requests)
    {
      service.Logout();
      Dispatch(AuthLogout);
    }

    method ResetPassword(data: PasswordResetData, reply: Result<string, Thrown>) returns (thrown: Option<Thrown>)
      requires Valid()
      modifies this, service
      ensures Valid()
      ensures dispatched == old(dispatched) + ResetPasswordActions(data, reply)
      ensures state == Run(old(state), ResetPasswordActions(data, reply))
      ensures thrown == if ValidatePasswordResetData(data).isValid then FailureOf(reply) else None
      ensures service.storage == old(service.storage)
      ensures service.requests == old(service.requests) + (if ValidatePasswordResetData(data).isValid then [PasswordResetEndpoint] else [])
    {
      var validation := ValidatePasswordResetData(data);
      if !validation.isValid {
        Dispatch(AuthFailure(JoinMessages(validation.errors)));
        return None;
      }
      ghost var start, before := state, dispatched;
      Dispatch(AuthStart);
      var response := service.ResetPassword(data, reply);
      thrown := FailureOf(response);
      Conclude(start, before, thrown, [ClearError]);
      assert ResetPasswordActions(data, reply) == Attempt(ValidationResult(true, []), thrown, [ClearError]);
    }

    method UpdatePassword(data: PasswordUpdateData, reply: Result<string, Thrown>) returns (thrown: Option<Thrown>)
      requires Valid()
      modifies this, service
      ensures Valid()
      ensures dispatched == old(dispatched) + UpdatePasswordActions(data, reply)
      ensures state == Run(old(state), UpdatePasswordActions(data, reply))
      ensures thrown == if ValidatePasswordUpdateData(data).isValid then FailureOf(reply) else None
      ensures service.storage == old(service.storage)
      ensures service.requests == old(service.requests) + (if ValidatePasswordUpdateData(data).isValid then [PasswordUpdateTarget(data)] else [])
    {
      var validation := ValidatePasswordUpdateData(data);
      if !validation.isValid {
        Dispatch(AuthFailure(JoinMessages(validation.errors)));
        return None;
      }
      ghost var start, before := state, dispatched;
      Dispatch(AuthStart);
      var response := service.UpdatePassword(data, reply);
      thrown := FailureOf(response);
      Conclude(start, before, thrown, [ClearError]);
      assert UpdatePasswordActions(data, reply) == Attempt(ValidationResult(true, []), thrown, [ClearError]);
    }

    method UpdateProfile(data: ProfileData, reply: Result<User, Thrown>) returns (thrown: Option<Thrown>)
      requires Valid()
      modifies this, service
      ensures Valid()
      ensures dispatched == old(dispatched) + UpdateProfileActions(data, reply)
      ensures state == Run(old(state), UpdateProfileActions(data, reply))
      ensures thrown == if ValidateProfileData(data).isValid then FailureOf(reply) else None
      ensures service.storage == old(service.storage)
      ensures service.requests == old(service.requests) + (if ValidateProfileData(data).isValid then [ProfileEndpoint] else [])
    {
      var validation := ValidateProfileData(data);
      if !validation.isValid {
        Dispatch(AuthFailure(JoinMessages(validation.errors)));
        return None;
      }
      ghost var start, before := state, dispatched;
      Dispatch(AuthStart);
      var response := service.UpdateProfile(data, reply);
      thrown := FailureOf(response);
      Conclude(start, before, thrown, if response.Success? then [AuthAction.UpdateProfile(PatchOf(response.value))] else []);
      assert UpdateProfileActions(data, reply) == Attempt(ValidationResult(true, []), thrown, if reply.Success? then [AuthAction.UpdateProfile(PatchOf(reply.value))] else []);
    }

    method ClearErrorAction()
      requires Valid()
      modifies this
      ensures Valid()
      ensures dispatched == old(dispatched) + [ClearError]
      ensures state == old(state).(error := None)
    {
      Dispatch(ClearError);
    }

    /** The mount effect: `fetched` is what `getCurrentUser` would answer. */
    method InitializeAuth(fetched: Result<User, Thrown>)
      requires Valid()
      modifies this, service
      ensures Valid()
      ensures var acts := InitActions(old(service.GetStoredUser()), old(service.GetToken()), fetched);
        dispatched == old(dispatched) + acts && state == Run(old(state), acts)
      ensures var acting := InitFetches(old(service.GetStoredUser()), old(service.GetToken()));
        && service.requests == old(service.requests) + (if acting then [CurrentUserEndpoint] else [])
        && service.storage == if acting && fetched.Failure? && service.hasWindow
                              then WithoutAuthData(old(service.storage)) else old(service.storage)
    {
      var storedUser := service.GetStoredUser();
      if storedUser.Failure? {
        return;
      }
      var token := service.GetToken();
      if storedUser.value.Some? && Truthy(token) {
        var current := service.GetCurrentUser(fetched);
        if current.Success? {
          Dispatch(AuthSuccess(current.value));
        } else {
          service.Logout();
          Dispatch(AuthLogout);
        }
      }
    }
  }
}
