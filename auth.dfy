/**
 * `AuthViewModel`: the session flags, the cached role and the administrator
 * gate on promotion.
 *
 * Each call to the identity provider or the document store is replaced by
 * its result, given as an input: a datatype that says whether the call
 * threw (with the exception's message, which may be null) or what it
 * returned. The document writes that succeed are recorded in a ghost log.
 */
module Session {
  import opened Wrappers
  import opened Model

  datatype UserRole = USER | ADMIN

  datatype UserData = UserData(isAuthenticated: bool, role: UserRole)

  /** `UserData()` with its default arguments. */
  const DefaultUserData := UserData(false, USER)

  const PermissionDenied := "Permiso denegado. Solo los administradores pueden promover usuarios."
  const Promoted := "El usuario ha sido promovido a administrador."
  const PromoteFailed := "Error al promover al usuario."
  const LoggedIn := "Has iniciado sesi\U{00F3}n correctamente."
  const VerifyEmailFirst := "Verifica tu correo electr\U{00F3}nico antes de iniciar sesi\U{00F3}n."
  const InvalidCredentials := "Credenciales no v\U{00E1}lidas. Verifica tu correo y contrase\U{00F1}a."
  const Registered := "Usuario registrado. Por favor verifica tu correo electr\U{00F3}nico."
  const RegisterFailed := "Error al registrar usuario."
  const LoggedOut := "Has cerrado sesi\U{00F3}n correctamente."
  const LogoutFailed := "Error al cerrar sesi\U{00F3}n."

  /** The outcome of an awaited call that returns nothing. */
  datatype CallOutcome = Done | Threw(message: Option<string>)

  /** The signed-in account as the identity provider reports it. */
  datatype AuthUser = AuthUser(uid: string, isEmailVerified: bool)

  /** `signInWithEmailAndPassword(...).await()`: throws, or yields a possibly null user. */
  datatype SignInResult = SignInThrew | SignedIn(user: Option<AuthUser>)

  /** `createUserWithEmailAndPassword(...).await()`: throws, or yields a possibly null uid. */
  datatype AccountCreation = CreationThrew(message: Option<string>) | Created(uid: Option<string>)

  /** `users/<uid>` read: throws, or yields the document's "rol" field (possibly absent). */
  datatype RoleLookup = LookupThrew | RoleField(rol: Option<string>)

  /** A write to the "users" collection. */
  datatype DocumentWrite =
    | SetUserDocument(docId: string, profile: User)
    | UpdateRol(docId: string, rol: string)

  /** `getUserRoleFromFirestore`: ADMIN exactly when the stored "rol" is
      "admin"; anything else, and a failed read, is USER. */
  function RoleFromLookup(lookup: RoleLookup): (role: UserRole)
    ensures role == ADMIN <==> lookup == RoleField(Some("admin"))
  {
    match lookup
    case RoleField(Some(rol)) => if rol == "admin" then ADMIN else USER
    case _ => USER
  }

  /** The role string published for a role. */
  function RoleName(role: UserRole): (name: string)
    ensures name == "admin" <==> role == ADMIN
    ensures name == "admin" || name == "user"
  {
    if role == ADMIN then "admin" else "user"
  }

  class AuthViewModel {
    var userData: UserData
    var isAuthenticated: bool
    var userRole: string
    var errorMessage: Option<string>
    var isLoggingOut: bool
    /** The document writes that took effect, oldest first. */
    ghost var writes: seq<DocumentWrite>

    constructor ()
      ensures userData == DefaultUserData && !isAuthenticated && userRole == "user"
      ensures errorMessage == None && !isLoggingOut && writes == []
    {
      userData, isAuthenticated, userRole := DefaultUserData, false, "user";
      errorMessage, isLoggingOut := None, false;
      writes := [];
    }

    /** `setUserRole`: only the published role string changes. */
    method SetUserRole(role: string)
      modifies this`userRole
      ensures userRole == role
    {
      userRole := role;
    }

    /** `promoteToAdmin`: allowed only when the caller's own `userData.role`
        is ADMIN; otherwise refused without any write. */
    method PromoteToAdmin(userId: string, update: CallOutcome)
      modifies this`errorMessage, this`writes
      ensures userData.role != ADMIN ==> errorMessage == Some(PermissionDenied) && writes == old(writes)
      ensures userData.role == ADMIN && update == Done ==>
                errorMessage == Some(Promoted) && writes == old(writes) + [UpdateRol(userId, "admin")]
      ensures userData.role == ADMIN && update.Threw? ==>
                errorMessage == Some(update.message.GetOr(PromoteFailed)) && writes == old(writes)
    {
      if userData.role != ADMIN {
        errorMessage := Some(PermissionDenied);
        return;
      }
      match update
      case Done =>
        writes := writes + [UpdateRol(userId, "admin")];
        errorMessage := Some(Promoted);
      case Threw(message) =>
        errorMessage := Some(message.GetOr(PromoteFailed));
    }

    /** `login`: a verified user becomes authenticated with the stored role;
        an unverified or missing user, and a failed sign-in, leave the session
        as it was and only set a message. `lookup` is the role read that
        follows a verified sign-in. */
    method Login(email: string, password: string, signIn: SignInResult, lookup: RoleLookup)
      modifies this`isAuthenticated, this`userData, this`userRole, this`errorMessage
      ensures signIn.SignedIn? && signIn.user.Some? && signIn.user.value.isEmailVerified ==>
                && isAuthenticated
                && userData == UserData(true, RoleFromLookup(lookup))
                && userRole == RoleName(userData.role)
                && errorMessage == Some(LoggedIn)
      ensures signIn.SignedIn? && !(signIn.user.Some? && signIn.user.value.isEmailVerified) ==>
                && isAuthenticated == old(isAuthenticated) && userData == old(userData)
                && userRole == old(userRole)
                && errorMessage == Some(VerifyEmailFirst)
      ensures signIn == SignInThrew ==>
                && isAuthenticated == old(isAuthenticated) && userData == old(userData)
                && userRole == old(userRole)
                && errorMessage == Some(InvalidCredentials)
    {
      match signIn
      case SignInThrew =>
        errorMessage := Some(InvalidCredentials);
      case SignedIn(user) =>
        if user.Some? && user.value.isEmailVerified {
          var role := RoleFromLookup(lookup);
          isAuthenticated := true;
          userData := UserData(true, role);
          userRole := RoleName(role);
          errorMessage := Some(LoggedIn);
        } else {
          errorMessage := Some(VerifyEmailFirst);
        }
    }

    /** `register`: creates the account, writes its profile with rol "user",
        sends the verification e-mail and leaves the session signed out.
        The first call that throws ends it with that call's message. */
    method Register(name: string, lastName: string, email: string, phoneNumber: string, password: string,
                    creation: AccountCreation, profileWrite: CallOutcome, verification: CallOutcome)
      modifies this`isAuthenticated, this`userData, this`userRole, this`errorMessage, this`writes
      ensures creation.CreationThrew? ==>
                && errorMessage == Some(creation.message.GetOr(RegisterFailed)) && writes == old(writes)
                && isAuthenticated == old(isAuthenticated) && userData == old(userData) && userRole == old(userRole)
      ensures creation == Created(None) ==>
                && errorMessage == old(errorMessage) && writes == old(writes)
                && isAuthenticated == old(isAuthenticated) && userData == old(userData) && userRole == old(userRole)
      ensures creation.Created? && creation.uid.Some? && profileWrite.Threw? ==>
                && errorMessage == Some(profileWrite.message.GetOr(RegisterFailed)) && writes == old(writes)
                && isAuthenticated == old(isAuthenticated) && userData == old(userData) && userRole == old(userRole)
      ensures creation.Created? && creation.uid.Some? && profileWrite == Done ==>
                writes == old(writes) +
                  [SetUserDocument(creation.uid.value, User(creation.uid.value, name, lastName, email, phoneNumber, "user"))]
      ensures creation.Created? && creation.uid.Some? && profileWrite == Done && verification.Threw? ==>
                && errorMessage == Some(verification.message.GetOr(RegisterFailed))
                && isAuthenticated == old(isAuthenticated) && userData == old(userData) && userRole == old(userRole)
      ensures creation.Created? && creation.uid.Some? && profileWrite == Done && verification == Done ==>
                && !isAuthenticated && userData == UserData(false, USER) && userRole == "user"
                && errorMessage == Some(Registered)
    {
      match creation
      case CreationThrew(message) =>
        errorMessage := Some(message.GetOr(RegisterFailed));
      case Created(uid) =>
        if uid.None? {
          return;
        }
        var userId := uid.value;
        if profileWrite.Threw? {
          errorMessage := Some(profileWrite.message.GetOr(RegisterFailed));
          return;
        }
        writes := writes + [SetUserDocument(userId, User(userId, name, lastName, email, phoneNumber, "user"))];
        if verification.Threw? {
          errorMessage := Some(verification.message.GetOr(RegisterFailed));
          return;
        }
        isAuthenticated := false;
        userData := UserData(false, USER);
        userRole := "user";
        errorMessage := Some(Registered);
    }

    /** `logout`: back to signed out with role "user", whatever the state
        was; `isLoggingOut` is raised for the duration only. */
    method Logout(signOut: CallOutcome)
      modifies this`isAuthenticated, this`userData, this`userRole, this`errorMessage, this`isLoggingOut
      ensures !isLoggingOut
      ensures signOut == Done ==>
                && !isAuthenticated && userData == DefaultUserData && userRole == "user"
                && errorMessage == Some(LoggedOut)
      ensures signOut.Threw? ==>
                && isAuthenticated == old(isAuthenticated) && userData == old(userData) && userRole == old(userRole)
                && errorMessage == Some(signOut.message.GetOr(LogoutFailed))
    {
      isLoggingOut := true;
      match signOut {
        case Done =>
          isAuthenticated := false;
          userData := UserData(false, USER);
          userRole := "user";
          errorMessage := Some(LoggedOut);
        case Threw(message) =>
          errorMessage := Some(message.GetOr(LogoutFailed));
      }
      isLoggingOut := false;
    }

    /** `clearError` */
    method ClearError()
      modifies this`errorMessage
      ensures errorMessage == None
    {
      errorMessage := None;
    }
  }

  /** Setting the role string to "admin" does not open the gate: a fresh
      session that calls `setUserRole("admin")` and then `promoteToAdmin`
      is refused and writes nothing. */
  method SelfPromotionIsRefused(target: string, update: CallOutcome)
    returns (role: string, message: Option<string>, ghost writesMade: nat)
    ensures role == "admin"
    ensures message == Some(PermissionDenied) && writesMade == 0
  {
    var session := new AuthViewModel();
    session.SetUserRole("admin");
    session.PromoteToAdmin(target, update);
    role := session.userRole;
    message := session.errorMessage;
    writesMade := |session.writes|;
  }
}
