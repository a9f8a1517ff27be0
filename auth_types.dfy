/** The records and the action union of the authentication module (src/types/auth/auth.ts). */
module AuthTypes {
  import opened Base

  /** A user snapshot; dates are kept as abstract integer timestamps. */
  datatype User = User(
    id: string,
    email: string,
    name: string,
    phone: Option<string>,
    bio: Option<string>,
    createdAt: int,
    updatedAt: int,
    isActive: bool)

  /** `Partial<User>`: every property may be missing from the payload. */
  datatype UserPatch = UserPatch(
    id: Option<string>,
    email: Option<string>,
    name: Option<string>,
    phone: Option<string>,
    bio: Option<string>,
    createdAt: Option<int>,
    updatedAt: Option<int>,
    isActive: Option<bool>)

  datatype LoginData = LoginData(email: string, password: string)

  datatype RegisterData = RegisterData(email: string, password: string, confirmPassword: string, name: string)

  datatype PasswordResetData = PasswordResetData(email: string)

  datatype PasswordUpdateData = PasswordUpdateData(
    currentPassword: Option<string>,
    newPassword: string,
    confirmPassword: string,
    token: Option<string>)

  datatype ProfileData = ProfileData(name: string, email: string, phone: string, bio: string)

  /** The session state held by the provider. */
  datatype AuthState = AuthState(
    user: Option<User>,
    isAuthenticated: bool,
    isLoading: bool,
    error: Option<string>)

  datatype AuthResponse = AuthResponse(user: User, token: string, refreshToken: Option<string>)

  /** The tagged union dispatched to the reducer. */
  datatype AuthAction =
    | AuthStart
    | AuthSuccess(user: User)
    | AuthFailure(message: string)
    | AuthLogout
    | ClearError
    | UpdateProfile(patch: UserPatch)

  /** What a failed call throws: an `Error` instance with its message, or any other value. */
  datatype Thrown = Error(message: string) | NonError

  /** The object spread `{ ...user, ...patch }`: properties present in the patch win. */
  function ApplyPatch(u: User, p: UserPatch): (r: User)
    ensures p.id.Some? ==> r.id == p.id.value
    ensures p.id.None? ==> r.id == u.id
    ensures p.email.Some? ==> r.email == p.email.value
    ensures p.email.None? ==> r.email == u.email
    ensures p.name.Some? ==> r.name == p.name.value
    ensures p.name.None? ==> r.name == u.name
    ensures p.phone.Some? ==> r.phone == p.phone
    ensures p.phone.None? ==> r.phone == u.phone
    ensures p.bio.Some? ==> r.bio == p.bio
    ensures p.bio.None? ==> r.bio == u.bio
    ensures r.createdAt == if p.createdAt.Some? then p.createdAt.value else u.createdAt
    ensures r.updatedAt == if p.updatedAt.Some? then p.updatedAt.value else u.updatedAt
    ensures r.isActive == if p.isActive.Some? then p.isActive.value else u.isActive
  {
    User(
      if p.id.Some? then p.id.value else u.id,
      if p.email.Some? then p.email.value else u.email,
      if p.name.Some? then p.name.value else u.name,
      if p.phone.Some? then p.phone else u.phone,
      if p.bio.Some? then p.bio else u.bio,
      if p.createdAt.Some? then p.createdAt.value else u.createdAt,
      if p.updatedAt.Some? then p.updatedAt.value else u.updatedAt,
      if p.isActive.Some? then p.isActive.value else u.isActive)
  }

  /** A full user seen as a patch, as when the profile endpoint's user is spread over the state's user;
      the optional properties the response lacks are missing from the patch. */
  function PatchOf(u: User): (p: UserPatch)
    ensures forall v: User ::
      ApplyPatch(v, p) == u.(phone := if u.phone.Some? then u.phone else v.phone, bio := if u.bio.Some? then u.bio else v.bio)
  {
    UserPatch(Some(u.id), Some(u.email), Some(u.name), u.phone, u.bio, Some(u.createdAt), Some(u.updatedAt), Some(u.isActive))
  }
}
