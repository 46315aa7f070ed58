/**
 * The account routes: signup and login (src/app/api/auth/signup/route.js,
 * src/app/api/auth/login/route.js), the profile form with its avatar upload
 * (src/app/api/profile/update/route.js), the password change
 * (src/app/api/profile/change-password/route.js) and the profile GET/PUT
 * (src/app/api/profile/route.js).
 *
 * The user collection is a map from id to record, held by a `UserStore`; ids are handed
 * out by a counter. bcrypt's `hash` and `compare` and the JWT verifier are parameters;
 * a signed token is modelled by its claims and lifetime.
 */
module Accounts {
  import opened Wrappers
  import opened Strings

  type UserId = nat

  /** A stored avatar: the uploaded bytes and their MIME type. */
  datatype Avatar = Avatar(data: seq<bv8>, contentType: string)

  /** A user record; `passwordHash` is the `password` field, which holds a bcrypt hash. */
  datatype User = User(
    name: string, email: string, passwordHash: string, role: string,
    bio: string, avatar: Option<Avatar>, profilePicture: Option<string>)

  /** What the schema fills in for a record that signup creates. */
  datatype Defaults = Defaults(role: string, bio: string)

  /** A signed JWT: its claims and its lifetime in seconds. */
  datatype Token = Token(userId: UserId, email: Option<string>, role: Option<string>, expiresIn: nat)

  /** The `token` cookie: the token and the cookie's `maxAge` in seconds. */
  datatype Cookie = Cookie(token: Token, maxAge: nat)

  /** `'7d'` and `7 * 24 * 60 * 60`. */
  const Week: nat := 7 * 24 * 60 * 60
  /** `'24h'` and `60 * 60 * 24`. */
  const Day: nat := 60 * 60 * 24
  /** `MAX_FILE_SIZE`: 2 MiB. */
  const MaxFileSize: nat := 2 * 1024 * 1024

  /** What `jwt.verify` does with a token: decodes it, or throws a `JsonWebTokenError` or another error. */
  datatype Verification = Decoded(userId: UserId) | BadToken | OtherError

  /** The user as signup returns it. */
  datatype SignupView = SignupView(id: UserId, name: string, email: string, role: string)

  /** The user as login returns it. */
  datatype LoginView = LoginView(id: UserId, name: string, email: string, role: string, profilePicture: Option<string>)

  /** The avatar as the profile form returns it: its type and where to fetch it. */
  datatype AvatarLink = AvatarLink(contentType: string, url: string)

  /** The user as the profile form returns it. */
  datatype FormView = FormView(id: UserId, name: string, email: string, bio: string, role: string, avatar: Option<AvatarLink>)

  /** The record with `select('-password')`: every field but the password. */
  datatype Profile = Profile(
    id: UserId, name: string, email: string, role: string,
    bio: string, avatar: Option<Avatar>, profilePicture: Option<string>)

  /** The responses; none of them carries a password or its hash. */
  datatype Response =
    | Failure(status: nat, error: string)
    | SignedUp(message: string, token: Token, newUser: SignupView, cookie: Cookie)
    | LoggedIn(account: LoginView, defaultRedirect: string, cookie: Cookie)
    | FormSaved(saved: FormView, message: string)
    | PasswordChanged(message: string)
    | ProfileFound(profile: Profile)
    | ProfileSaved(message: string, profile: Profile)

  const ConfigError := "Server configuration error"
  const FieldsRequired := "Name, email, and password are required"
  const UserExists := "User already exists with this email"
  const UserCreated := "User created successfully"
  const SignupError := "Error creating user. Please try again."
  const InvalidCredentials := "Invalid email or password"
  const LoginError := "An error occurred during login"
  const Unauthorized := "Unauthorized"
  const InvalidToken := "Invalid token"
  const UserNotFound := "User not found"
  const NameTooShort := "Name must be at least 2 characters long"
  const BioTooLong := "Bio cannot be longer than 200 characters"
  const InvalidFile := "Invalid file format"
  const FileTooLarge := "File size must be less than 2MB"
  const ImagesOnly := "Only image files are allowed"
  const ProfileUpdated := "Profile updated successfully"
  const FormError := "An error occurred while updating profile"
  const PasswordsRequired := "Current password and new password are required"
  const PasswordTooShort := "New password must be at least 6 characters long"
  const WrongPassword := "Current password is incorrect"
  const PasswordUpdated := "Password updated successfully"
  const PasswordError := "An error occurred while updating password"
  const NotAuthenticated := "Not authenticated"
  const ProfileError := "Error updating profile"
  const AvatarPath := "/api/profile/avatar/"
  const ImagePrefix := "image/"
  const Admin := "admin"
  const AdminHome := "/dashboard"
  const Home := "/"

  // ---------------------------------------------------------------- the collection

  /** Every id in use is below the next one to be handed out. */
  predicate IdsBelow(users: map<UserId, User>, nextId: UserId) {
    forall id :: id in users ==> id < nextId
  }

  /** Some record has this email. */
  predicate EmailTaken(users: map<UserId, User>, email: string) {
    exists id :: id in users && users[id].email == email
  }

  /** No two records share an email. */
  predicate EmailsUnique(users: map<UserId, User>) {
    forall a, b :: a in users && b in users && a != b ==> users[a].email != users[b].email
  }

  /**
   * `User.findOne({ email })` among the ids below `n`: the oldest record with this email,
   * or nothing when no record has it.
   */
  function FindByEmail(users: map<UserId, User>, email: string, n: nat): (r: Option<UserId>)
    ensures r.Some? ==> r.value < n && r.value in users && users[r.value].email == email
    ensures r.Some? ==> forall id :: id < r.value && id in users ==> users[id].email != email
    ensures r.None? ==> forall id :: id < n && id in users ==> users[id].email != email
  {
    if n == 0 then None
    else
      var older := FindByEmail(users, email, n - 1);
      if older.Some? then older
      else if n - 1 in users && users[n - 1].email == email then Some(n - 1)
      else None
  }

  /** With the ids below `nextId`, the lookup finds a record exactly when the email is taken. */
  lemma FindByEmailTaken(users: map<UserId, User>, email: string, nextId: UserId)
    requires IdsBelow(users, nextId)
    ensures FindByEmail(users, email, nextId).Some? <==> EmailTaken(users, email)
  {
    if EmailTaken(users, email) {
      var id :| id in users && users[id].email == email;
      assert id < nextId;
    }
  }

  /** When emails are unique, the lookup finds the one record with that email. */
  lemma FindByEmailUnique(users: map<UserId, User>, id: UserId, nextId: UserId)
    requires IdsBelow(users, nextId) && EmailsUnique(users) && id in users
    ensures FindByEmail(users, users[id].email, nextId) == Some(id)
  {
    var found := FindByEmail(users, users[id].email, nextId);
    assert id < nextId;
  }

  // ---------------------------------------------------------------- signup

  /** Where the environment variables the signup needs are set. */
  datatype Env = Env(mongoUri: Option<string>, jwtSecret: Option<string>)

  /** Signup's JSON body: each field present or not. */
  datatype SignupBody = SignupBody(name: Option<string>, email: Option<string>, password: Option<string>)

  /**
   * What `POST /api/auth/signup` answers and what the collection becomes (`body` is
   * `None` when the body is not JSON). Configuration is checked first, then that the three
   * fields are non-empty, then that the email is free; a new user is stored under
   * `nextId` with the hash of the password and nothing else changes. The token carries
   * only the user id and lives a week, as long as its cookie.
   */
  function SignupOutcome(env: Env, body: Option<SignupBody>, users: map<UserId, User>, nextId: UserId,
                         hash: string -> string, defaults: Defaults)
    : (out: (Response, map<UserId, User>))
    requires IdsBelow(users, nextId)
    ensures !out.0.SignedUp? ==> out.0.Failure? && out.1 == users
    ensures !Truthy(env.mongoUri) || !Truthy(env.jwtSecret) ==> out.0 == Failure(500, ConfigError)
    ensures Truthy(env.mongoUri) && Truthy(env.jwtSecret) && body.None? ==> out.0 == Failure(500, SignupError)
    ensures Truthy(env.mongoUri) && Truthy(env.jwtSecret) && body.Some? ==>
              var b := body.value;
              && (!Truthy(b.name) || !Truthy(b.email) || !Truthy(b.password) ==> out.0 == Failure(400, FieldsRequired))
              && (Truthy(b.name) && Truthy(b.email) && Truthy(b.password) && EmailTaken(users, b.email.value) ==>
                    out.0 == Failure(400, UserExists))
    ensures out.0.SignedUp? <==>
              && Truthy(env.mongoUri) && Truthy(env.jwtSecret) && body.Some?
              && Truthy(body.value.name) && Truthy(body.value.email) && Truthy(body.value.password)
              && !EmailTaken(users, body.value.email.value)
    ensures out.0.SignedUp? ==>
              var b := body.value;
              && out.1 == users[nextId := User(b.name.value, b.email.value, hash(b.password.value),
                                               defaults.role, defaults.bio, None, None)]
              && out.0.token == Token(nextId, None, None, Week)
              && out.0.cookie == Cookie(out.0.token, Week)
              && out.0.newUser == SignupView(nextId, b.name.value, b.email.value, defaults.role)
  {
    if !Truthy(env.mongoUri) || !Truthy(env.jwtSecret) then (Failure(500, ConfigError), users)
    else if body.None? then (Failure(500, SignupError), users)
    else
      var b := body.value;
      if !Truthy(b.name) || !Truthy(b.email) || !Truthy(b.password) then (Failure(400, FieldsRequired), users)
      else
        FindByEmailTaken(users, b.email.value, nextId);
        if FindByEmail(users, b.email.value, nextId).Some? then (Failure(400, UserExists), users)
        else
          var user := User(b.name.value, b.email.value, hash(b.password.value), defaults.role, defaults.bio, None, None);
          var token := Token(nextId, None, None, Week);
          (SignedUp(UserCreated, token, SignupView(nextId, user.name, user.email, user.role), Cookie(token, Week)),
           users[nextId := user])
  }

  /**
   * Signup never stores a second record with an email in use: after a signup the new
   * record is the only one with its email, and a collection without duplicate emails
   * keeps none.
   */
  lemma SignupNeverDuplicates(env: Env, body: Option<SignupBody>, users: map<UserId, User>, nextId: UserId,
                              hash: string -> string, defaults: Defaults)
    requires IdsBelow(users, nextId)
    ensures var out := SignupOutcome(env, body, users, nextId, hash, defaults);
            && IdsBelow(out.1, nextId + 1)
            && (out.0.SignedUp? ==> forall id :: id in out.1 && out.1[id].email == body.value.email.value ==> id == nextId)
            && (EmailsUnique(users) ==> EmailsUnique(out.1))
  {
    var out := SignupOutcome(env, body, users, nextId, hash, defaults);
    if out.0.SignedUp? {
      var email := body.value.email.value;
      forall id | id in out.1 && id != nextId ensures out.1[id].email != email {
        assert id in users && out.1[id] == users[id];
      }
      if EmailsUnique(users) {
        forall a, b | a in out.1 && b in out.1 && a != b ensures out.1[a].email != out.1[b].email {
          if a != nextId && b != nextId {
            assert users[a].email != users[b].email;
          } else if a == nextId {
            assert b in users && out.1[b] == users[b];
          } else {
            assert a in users && out.1[a] == users[a];
          }
        }
      }
    }
  }

  // ---------------------------------------------------------------- login

  /** Login's JSON body. */
  datatype Credentials = Credentials(email: string, password: string)

  /** `user.role === 'admin' ? '/dashboard' : '/'`. */
  function DefaultRedirect(role: string): (r: string)
    ensures r == AdminHome <==> role == Admin
  {
    if role == Admin then AdminHome else Home
  }

  /**
   * What `POST /api/auth/login` answers (`body` is `None` when the body is not JSON); it
   * changes nothing. The oldest record with the email is checked against the password;
   * an unknown email and a wrong password get the same 401. On success the token carries
   * the id, email and role and lives a day, as long as its cookie.
   */
  function LoginOutcome(body: Option<Credentials>, users: map<UserId, User>, nextId: UserId,
                        compare: (string, string) -> bool)
    : (r: Response)
    requires IdsBelow(users, nextId)
    ensures body.None? ==> r == Failure(500, LoginError)
    ensures body.Some? && !r.LoggedIn? ==> r == Failure(401, InvalidCredentials)
    ensures r.LoggedIn? <==>
              body.Some? && EmailTaken(users, body.value.email) &&
              compare(body.value.password, users[FindByEmail(users, body.value.email, nextId).value].passwordHash)
    ensures r.LoggedIn? ==>
              var id := FindByEmail(users, body.value.email, nextId).value;
              var user := users[id];
              && r.account == LoginView(id, user.name, user.email, user.role, user.profilePicture)
              && r.defaultRedirect == DefaultRedirect(user.role)
              && r.cookie == Cookie(Token(id, Some(user.email), Some(user.role), Day), Day)
  {
    if body.None? then Failure(500, LoginError)
    else
      var found := FindByEmail(users, body.value.email, nextId);
      FindByEmailTaken(users, body.value.email, nextId);
      if found.None? then Failure(401, InvalidCredentials)
      else
        var user := users[found.value];
        if !compare(body.value.password, user.passwordHash) then Failure(401, InvalidCredentials)
        else
          var token := Token(found.value, Some(user.email), Some(user.role), Day);
          LoggedIn(LoginView(found.value, user.name, user.email, user.role, user.profilePicture),
                   DefaultRedirect(user.role), Cookie(token, Day))
  }

  /** A user who signed up can log in with the same email and password, and is not sent to the admin home unless the schema's default role is admin. */
  lemma SignupThenLogin(env: Env, body: SignupBody, users: map<UserId, User>, nextId: UserId,
                        hash: string -> string, compare: (string, string) -> bool, defaults: Defaults)
    requires IdsBelow(users, nextId)
    requires forall p :: compare(p, hash(p))
    requires SignupOutcome(env, Some(body), users, nextId, hash, defaults).0.SignedUp?
    ensures var after := SignupOutcome(env, Some(body), users, nextId, hash, defaults).1;
            var r := LoginOutcome(Some(Credentials(body.email.value, body.password.value)), after, nextId + 1, compare);
            && r.LoggedIn? && r.account.id == nextId
            && (r.defaultRedirect == AdminHome <==> defaults.role == Admin)
  {
    var after := SignupOutcome(env, Some(body), users, nextId, hash, defaults).1;
    SignupNeverDuplicates(env, Some(body), users, nextId, hash, defaults);
    var found := FindByEmail(after, body.email.value, nextId + 1);
    assert after[nextId].email == body.email.value;
    assert found.Some? && found.value == nextId by {
      FindByEmailTaken(after, body.email.value, nextId + 1);
    }
  }

  // ---------------------------------------------------------------- the profile form

  /** A form field's value: text, or a file with its bytes and MIME type. */
  datatype FormValue = Text(text: string) | File(data: seq<bv8>, mimeType: string)

  /** `if (avatar)`: present and not the empty string. */
  predicate Given(v: Option<FormValue>) {
    v.Some? && v.value != Text("")
  }

  /** The form's `name`, `bio` and `avatar` fields. */
  datatype ProfileForm = ProfileForm(name: Option<string>, bio: Option<string>, avatar: Option<FormValue>)

  /** The avatar as returned: its type and `/api/profile/avatar/<id>`. */
  function AvatarLinkOf(id: UserId, avatar: Option<Avatar>): (r: Option<AvatarLink>)
    ensures r.Some? <==> avatar.Some?
    ensures r.Some? ==> r.value.contentType == avatar.value.contentType && StartsWith(r.value.url, AvatarPath)
    ensures r.Some? ==>
              var suffix := r.value.url[|AvatarPath|..];
              AllDigits(suffix) && ValueOf(suffix) == id
  {
    if avatar.None? then None
    else
      var url := AvatarPath + Decimal(id);
      assert url[..|AvatarPath|] == AvatarPath;
      Some(AvatarLink(avatar.value.contentType, url))
  }

  /** The error the form's fields give, checked in the order name, bio, avatar; `None` when they are all acceptable. */
  function FieldError(form: ProfileForm): (r: Option<string>)
    ensures r == Some(NameTooShort) <==> Truthy(form.name) && |form.name.value| < 2
    ensures r == Some(BioTooLong) <==>
              (Truthy(form.name) ==> |form.name.value| >= 2) && Truthy(form.bio) && |form.bio.value| > 200
    ensures (Truthy(form.name) ==> |form.name.value| >= 2) && (Truthy(form.bio) ==> |form.bio.value| <= 200) &&
            Given(form.avatar) ==>
              var avatar := form.avatar.value;
              && (r == Some(InvalidFile) <==> !avatar.File?)
              && (r == Some(FileTooLarge) <==> avatar.File? && |avatar.data| > MaxFileSize)
              && (r == Some(ImagesOnly) <==>
                    avatar.File? && |avatar.data| <= MaxFileSize && !StartsWith(avatar.mimeType, ImagePrefix))
    ensures r.None? <==>
              && (Truthy(form.name) ==> |form.name.value| >= 2)
              && (Truthy(form.bio) ==> |form.bio.value| <= 200)
              && (Given(form.avatar) ==>
                    form.avatar.value.File? && |form.avatar.value.data| <= MaxFileSize &&
                    StartsWith(form.avatar.value.mimeType, ImagePrefix))
  {
    if Truthy(form.name) && |form.name.value| < 2 then Some(NameTooShort)
    else if Truthy(form.bio) && |form.bio.value| > 200 then Some(BioTooLong)
    else if Given(form.avatar) then
      var avatar := form.avatar.value;
      if !avatar.File? then Some(InvalidFile)
      else if |avatar.data| > MaxFileSize then Some(FileTooLarge)
      else if !StartsWith(avatar.mimeType, ImagePrefix) then Some(ImagesOnly)
      else None
    else None
  }

  /** The record with the form applied: a non-empty name or bio and a given avatar replace the old ones. */
  function ApplyForm(user: User, form: ProfileForm): (u: User)
    requires FieldError(form).None?
    ensures u.email == user.email && u.passwordHash == user.passwordHash && u.role == user.role
    ensures u.profilePicture == user.profilePicture
    ensures u.name == if Truthy(form.name) then form.name.value else user.name
    ensures u.bio == if Truthy(form.bio) then form.bio.value else user.bio
    ensures Given(form.avatar) ==> u.avatar == Some(Avatar(form.avatar.value.data, form.avatar.value.mimeType))
    ensures !Given(form.avatar) ==> u.avatar == user.avatar
  {
    var named := if Truthy(form.name) then user.(name := form.name.value) else user;
    var described := if Truthy(form.bio) then named.(bio := form.bio.value) else named;
    if Given(form.avatar) then described.(avatar := Some(Avatar(form.avatar.value.data, form.avatar.value.mimeType)))
    else described
  }

  /**
   * What `PUT /api/profile/update` answers and what the collection becomes (`form` is
   * `None` when the form data cannot be read). Without a token the answer is 401, an
   * invalid token 401 and any other verification error 500; an unknown user 404; a field
   * that breaks its rule 400. Every failure leaves the collection as it was; a success
   * changes only the user's name, bio and avatar.
   */
  function FormOutcome(token: Option<string>, verify: string -> Verification, form: Option<ProfileForm>,
                       users: map<UserId, User>)
    : (out: (Response, map<UserId, User>))
    ensures !out.0.FormSaved? ==> out.0.Failure? && out.1 == users
    ensures token.None? ==> out.0 == Failure(401, Unauthorized)
    ensures token.Some? && verify(token.value) == BadToken ==> out.0 == Failure(401, InvalidToken)
    ensures token.Some? && verify(token.value) == OtherError ==> out.0 == Failure(500, FormError)
    ensures token.Some? && verify(token.value).Decoded? && form.None? ==> out.0 == Failure(500, FormError)
    ensures token.Some? && verify(token.value).Decoded? && form.Some? && verify(token.value).userId !in users ==>
              out.0 == Failure(404, UserNotFound)
    ensures token.Some? && verify(token.value).Decoded? && form.Some? && verify(token.value).userId in users &&
            FieldError(form.value).Some? ==>
              out.0 == Failure(400, FieldError(form.value).value)
    ensures out.0.FormSaved? <==>
              token.Some? && verify(token.value).Decoded? && form.Some? &&
              verify(token.value).userId in users && FieldError(form.value).None?
    ensures out.0.FormSaved? ==>
              var id := verify(token.value).userId;
              && out.1 == users[id := ApplyForm(users[id], form.value)]
              && out.0.message == ProfileUpdated
              && out.0.saved.id == id && out.0.saved.email == users[id].email && out.0.saved.role == users[id].role
              && var user := out.1[id];
                 out.0.saved == FormView(id, user.name, user.email, user.bio, user.role, AvatarLinkOf(id, user.avatar))
  {
    if token.None? then (Failure(401, Unauthorized), users)
    else
      match verify(token.value)
      case BadToken => (Failure(401, InvalidToken), users)
      case OtherError => (Failure(500, FormError), users)
      case Decoded(id) =>
        if form.None? then (Failure(500, FormError), users)
        else if id !in users then (Failure(404, UserNotFound), users)
        else if FieldError(form.value).Some? then (Failure(400, FieldError(form.value).value), users)
        else
          var user := ApplyForm(users[id], form.value);
          (FormSaved(FormView(id, user.name, user.email, user.bio, user.role, AvatarLinkOf(id, user.avatar)), ProfileUpdated),
           users[id := user])
  }

  // ---------------------------------------------------------------- the password change

  /** The password change's JSON body. */
  datatype PasswordBody = PasswordBody(currentPassword: Option<string>, newPassword: Option<string>)

  /**
   * What `PUT /api/profile/change-password` answers and what the collection becomes
   * (`body` is `None` when the body is not JSON). The token is checked first, then the
   * two passwords' presence and the new one's length, before the user is looked up; the
   * current password must match the stored hash. A success replaces only the user's
   * password hash, with the hash of the new password; every failure changes nothing.
   */
  function PasswordOutcome(token: Option<string>, verify: string -> Verification, body: Option<PasswordBody>,
                           users: map<UserId, User>, hash: string -> string, compare: (string, string) -> bool)
    : (out: (Response, map<UserId, User>))
    ensures !out.0.PasswordChanged? ==> out.0.Failure? && out.1 == users
    ensures token.None? ==> out.0 == Failure(401, Unauthorized)
    ensures token.Some? && verify(token.value) == BadToken ==> out.0 == Failure(401, InvalidToken)
    ensures token.Some? && verify(token.value) == OtherError ==> out.0 == Failure(500, PasswordError)
    ensures token.Some? && verify(token.value).Decoded? && body.Some? ==>
              var b := body.value;
              && (!Truthy(b.currentPassword) || !Truthy(b.newPassword) ==> out.0 == Failure(400, PasswordsRequired))
              && (Truthy(b.currentPassword) && Truthy(b.newPassword) && |b.newPassword.value| < 6 ==>
                    out.0 == Failure(400, PasswordTooShort))
              && (Truthy(b.currentPassword) && Truthy(b.newPassword) && |b.newPassword.value| >= 6 ==>
                    var id := verify(token.value).userId;
                    && (id !in users ==> out.0 == Failure(404, UserNotFound))
                    && (id in users && !compare(b.currentPassword.value, users[id].passwordHash) ==>
                          out.0 == Failure(400, WrongPassword)))
    ensures token.Some? && verify(token.value).Decoded? && body.None? ==> out.0 == Failure(500, PasswordError)
    ensures out.0.PasswordChanged? <==>
              && token.Some? && verify(token.value).Decoded? && body.Some?
              && Truthy(body.value.currentPassword) && Truthy(body.value.newPassword)
              && |body.value.newPassword.value| >= 6
              && verify(token.value).userId in users
              && compare(body.value.currentPassword.value, users[verify(token.value).userId].passwordHash)
    ensures out.0.PasswordChanged? ==>
              var id := verify(token.value).userId;
              && out.1 == users[id := users[id].(passwordHash := hash(body.value.newPassword.value))]
              && out.0.message == PasswordUpdated
  {
    if token.None? then (Failure(401, Unauthorized), users)
    else
      match verify(token.value)
      case BadToken => (Failure(401, InvalidToken), users)
      case OtherError => (Failure(500, PasswordError), users)
      case Decoded(id) =>
        if body.None? then (Failure(500, PasswordError), users)
        else
          var b := body.value;
          if !Truthy(b.currentPassword) || !Truthy(b.newPassword) then (Failure(400, PasswordsRequired), users)
          else if |b.newPassword.value| < 6 then (Failure(400, PasswordTooShort), users)
          else if id !in users then (Failure(404, UserNotFound), users)
          else if !compare(b.currentPassword.value, users[id].passwordHash) then (Failure(400, WrongPassword), users)
          else (PasswordChanged(PasswordUpdated), users[id := users[id].(passwordHash := hash(b.newPassword.value))])
  }

  /**
   * After a password change the new password logs in and, where the old one differs from
   * it in what `compare` says, the old one no longer does; the user's other fields, and
   * every other user, are as they were. Emails must be unique for login to find the user.
   */
  lemma NewPasswordLogsIn(token: string, verify: string -> Verification, body: PasswordBody,
                          users: map<UserId, User>, nextId: UserId,
                          hash: string -> string, compare: (string, string) -> bool)
    requires IdsBelow(users, nextId) && EmailsUnique(users)
    requires forall p :: compare(p, hash(p))
    requires PasswordOutcome(Some(token), verify, Some(body), users, hash, compare).0.PasswordChanged?
    ensures var after := PasswordOutcome(Some(token), verify, Some(body), users, hash, compare).1;
            var id := verify(token).userId;
            var email := users[id].email;
            && LoginOutcome(Some(Credentials(email, body.newPassword.value)), after, nextId, compare).LoggedIn?
            && (!compare(body.currentPassword.value, hash(body.newPassword.value)) ==>
                  LoginOutcome(Some(Credentials(email, body.currentPassword.value)), after, nextId, compare)
                    == Failure(401, InvalidCredentials))
  {
    var after := PasswordOutcome(Some(token), verify, Some(body), users, hash, compare).1;
    var id := verify(token).userId;
    assert after[id].email == users[id].email;
    assert EmailsUnique(after) by {
      forall a, b | a in after && b in after && a != b ensures after[a].email != after[b].email {
        assert users[a].email != users[b].email;
      }
    }
    FindByEmailUnique(after, id, nextId);
  }

  // ---------------------------------------------------------------- the profile GET and PUT

  /** `verifyToken(token)`: the decoded token, or `null` when verification throws for any reason. */
  function VerifyToken(token: string, verify: string -> Verification): (r: Option<UserId>)
    ensures r.Some? <==> verify(token).Decoded?
    ensures r.Some? ==> r.value == verify(token).userId
  {
    match verify(token)
    case Decoded(id) => Some(id)
    case _ => None
  }

  /** The record without its password. */
  function ProfileOf(id: UserId, user: User): (p: Profile)
    ensures p.id == id && p.name == user.name && p.email == user.email && p.role == user.role
    ensures p.bio == user.bio && p.avatar == user.avatar && p.profilePicture == user.profilePicture
  {
    Profile(id, user.name, user.email, user.role, user.bio, user.avatar, user.profilePicture)
  }

  /**
   * What `GET /api/profile` answers; it changes nothing. A missing or empty token cookie
   * is 401, as is a token that does not verify; an unknown user is 404; otherwise the
   * record without its password.
   */
  function ProfileGet(token: Option<string>, verify: string -> Verification, users: map<UserId, User>): (r: Response)
    ensures !Truthy(token) ==> r == Failure(401, NotAuthenticated)
    ensures Truthy(token) && !verify(token.value).Decoded? ==> r == Failure(401, InvalidToken)
    ensures r.ProfileFound? <==> Truthy(token) && verify(token.value).Decoded? && verify(token.value).userId in users
    ensures r.ProfileFound? ==> r.profile == ProfileOf(verify(token.value).userId, users[verify(token.value).userId])
    ensures !r.ProfileFound? ==> r.Failure? && r.status in {401, 404}
  {
    if !Truthy(token) then Failure(401, NotAuthenticated)
    else
      var decoded := VerifyToken(token.value, verify);
      if decoded.None? then Failure(401, InvalidToken)
      else if decoded.value !in users then Failure(404, UserNotFound)
      else ProfileFound(ProfileOf(decoded.value, users[decoded.value]))
  }

  /** The profile PUT's JSON body. */
  datatype ProfileBody = ProfileBody(
    name: Option<string>, email: Option<string>, avatar: Option<Avatar>,
    currentPassword: Option<string>, newPassword: Option<string>)

  /** `data.currentPassword && data.newPassword`. */
  predicate ChangesPassword(body: ProfileBody) {
    Truthy(body.currentPassword) && Truthy(body.newPassword)
  }

  /** The record after `$set: updateFields`: each non-empty field given replaces the old one. */
  function UpdateFields(user: User, body: ProfileBody, hash: string -> string): (u: User)
    ensures u.role == user.role && u.bio == user.bio && u.profilePicture == user.profilePicture
    ensures u.name == if Truthy(body.name) then body.name.value else user.name
    ensures u.email == if Truthy(body.email) then body.email.value else user.email
    ensures u.avatar == if body.avatar.Some? then body.avatar else user.avatar
    ensures u.passwordHash == if ChangesPassword(body) then hash(body.newPassword.value) else user.passwordHash
  {
    var named := if Truthy(body.name) then user.(name := body.name.value) else user;
    var addressed := if Truthy(body.email) then named.(email := body.email.value) else named;
    var pictured := if body.avatar.Some? then addressed.(avatar := body.avatar) else addressed;
    if ChangesPassword(body) then pictured.(passwordHash := hash(body.newPassword.value)) else pictured
  }

  /**
   * What `PUT /api/profile` answers and what the collection becomes (`body` is `None`
   * when the body is not JSON, which is 500). The same token guards as GET; then the user
   * must exist, and when both passwords are given the current one must match. A success
   * applies `UpdateFields` to that user only; every failure changes nothing. There is no
   * length rule for the new password and no check that the new email is free.
   */
  function ProfilePut(token: Option<string>, verify: string -> Verification, body: Option<ProfileBody>,
                      users: map<UserId, User>, hash: string -> string, compare: (string, string) -> bool)
    : (out: (Response, map<UserId, User>))
    ensures !out.0.ProfileSaved? ==> out.0.Failure? && out.1 == users
    ensures !Truthy(token) ==> out.0 == Failure(401, NotAuthenticated)
    ensures Truthy(token) && !verify(token.value).Decoded? ==> out.0 == Failure(401, InvalidToken)
    ensures Truthy(token) && verify(token.value).Decoded? && body.None? ==> out.0 == Failure(500, ProfileError)
    ensures Truthy(token) && verify(token.value).Decoded? && body.Some? ==>
              var id := verify(token.value).userId;
              && (id !in users ==> out.0 == Failure(404, UserNotFound))
              && (id in users && ChangesPassword(body.value) &&
                  !compare(body.value.currentPassword.value, users[id].passwordHash) ==>
                    out.0 == Failure(400, WrongPassword))
    ensures out.0.ProfileSaved? <==>
              && Truthy(token) && verify(token.value).Decoded? && body.Some?
              && verify(token.value).userId in users
              && (ChangesPassword(body.value) ==>
                    compare(body.value.currentPassword.value, users[verify(token.value).userId].passwordHash))
    ensures out.0.ProfileSaved? ==>
              var id := verify(token.value).userId;
              && out.1 == users[id := UpdateFields(users[id], body.value, hash)]
              && out.0.profile == ProfileOf(id, out.1[id])
  {
    if !Truthy(token) then (Failure(401, NotAuthenticated), users)
    else
      var decoded := VerifyToken(token.value, verify);
      if decoded.None? then (Failure(401, InvalidToken), users)
      else if body.None? then (Failure(500, ProfileError), users)
      else
        var id, b := decoded.value, body.value;
        if id !in users then (Failure(404, UserNotFound), users)
        else if ChangesPassword(b) && !compare(b.currentPassword.value, users[id].passwordHash) then
          (Failure(400, WrongPassword), users)
        else
          var user := UpdateFields(users[id], b, hash);
          (ProfileSaved(ProfileUpdated, ProfileOf(id, user)), users[id := user])
  }

  /**
   * The profile PUT can give two records the same email: emails are unique only for
   * what signup stores, not as an invariant of the collection.
   */
  lemma ProfilePutCanDuplicateEmail(verify: string -> Verification, hash: string -> string, compare: (string, string) -> bool)
    requires verify("t") == Decoded(1)
    ensures var users := map[0 := User("Ann", "a@x", "h0", "user", "", None, None),
                             1 := User("Bob", "b@x", "h1", "user", "", None, None)];
            var body := ProfileBody(None, Some("a@x"), None, None, None);
            && EmailsUnique(users)
            && !EmailsUnique(ProfilePut(Some("t"), verify, Some(body), users, hash, compare).1)
  {
    var users := map[0 := User("Ann", "a@x", "h0", "user", "", None, None),
                     1 := User("Bob", "b@x", "h1", "user", "", None, None)];
    var body := ProfileBody(None, Some("a@x"), None, None, None);
    var after := ProfilePut(Some("t"), verify, Some(body), users, hash, compare).1;
    assert after[1].email == "a@x" == after[0].email;
  }

  // ---------------------------------------------------------------- the store

  /** The user collection the routes read and write. */
  class UserStore {
    var users: map<UserId, User>
    var nextId: UserId

    ghost predicate Valid()
      reads this
    {
      IdsBelow(users, nextId)
    }

    constructor ()
      ensures Valid() && users == map[] && nextId == 0
    {
      users := map[];
      nextId := 0;
    }

    /** `POST /api/auth/signup`. */
    method Signup(env: Env, body: Option<SignupBody>, hash: string -> string, defaults: Defaults) returns (r: Response)
      requires Valid()
      modifies this
      ensures Valid()
      ensures (r, users) == SignupOutcome(env, body, old(users), old(nextId), hash, defaults)
      ensures nextId == if r.SignedUp? then old(nextId) + 1 else old(nextId)
    {
      if !Truthy(env.mongoUri) || !Truthy(env.jwtSecret) {
        return Failure(500, ConfigError);
      }
      if body.None? {
        return Failure(500, SignupError);
      }
      var name, email, password := body.value.name, body.value.email, body.value.password;
      if !Truthy(name) || !Truthy(email) || !Truthy(password) {
        return Failure(400, FieldsRequired);
      }
      var existing := FindByEmail(users, email.value, nextId);
      if existing.Some? {
        return Failure(400, UserExists);
      }
      var hashedPassword := hash(password.value);
      var id := nextId;
      var user := User(name.value, email.value, hashedPassword, defaults.role, defaults.bio, None, None);
      users := users[id := user];
      nextId := nextId + 1;
      var token := Token(id, None, None, Week);
      r := SignedUp(UserCreated, token, SignupView(id, user.name, user.email, user.role), Cookie(token, Week));
    }

    /**
     * `PUT /api/profile/update`: the fields are applied one by one to a copy of the
     * record, and the collection is written only once every check has passed.
     */
    method UpdateProfile(token: Option<string>, verify: string -> Verification, form: Option<ProfileForm>)
      returns (r: Response)
      requires Valid()
      modifies this
      ensures Valid() && nextId == old(nextId)
      ensures (r, users) == FormOutcome(token, verify, form, old(users))
    {
      if token.None? {
        return Failure(401, Unauthorized);
      }
      var decoded := verify(token.value);
      if decoded == BadToken {
        return Failure(401, InvalidToken);
      } else if decoded == OtherError {
        return Failure(500, FormError);
      }
      if form.None? {
        return Failure(500, FormError);
      }
      var name, bio, avatar := form.value.name, form.value.bio, form.value.avatar;
      var id := decoded.userId;
      if id !in users {
        return Failure(404, UserNotFound);
      }
      var user := users[id];
      if Truthy(name) {
        if |name.value| < 2 {
          return Failure(400, NameTooShort);
        }
        user := user.(name := name.value);
      }
      if Truthy(bio) {
        if |bio.value| > 200 {
          return Failure(400, BioTooLong);
        }
        user := user.(bio := bio.value);
      }
      if Given(avatar) {
        if !avatar.value.File? {
          return Failure(400, InvalidFile);
        }
        if |avatar.value.data| > MaxFileSize {
          return Failure(400, FileTooLarge);
        }
        if !StartsWith(avatar.value.mimeType, ImagePrefix) {
          return Failure(400, ImagesOnly);
        }
        user := user.(avatar := Some(Avatar(avatar.value.data, avatar.value.mimeType)));
      }
      users := users[id := user];
      r := FormSaved(FormView(id, user.name, user.email, user.bio, user.role, AvatarLinkOf(id, user.avatar)), ProfileUpdated);
    }

    /** `PUT /api/profile/change-password`. */
    method ChangePassword(token: Option<string>, verify: string -> Verification, body: Option<PasswordBody>,
                          hash: string -> string, compare: (string, string) -> bool)
      returns (r: Response)
      requires Valid()
      modifies this
      ensures Valid() && nextId == old(nextId)
      ensures (r, users) == PasswordOutcome(token, verify, body, old(users), hash, compare)
    {
      if token.None? {
        return Failure(401, Unauthorized);
      }
      var decoded := verify(token.value);
      if decoded == BadToken {
        return Failure(401, InvalidToken);
      } else if decoded == OtherError {
        return Failure(500, PasswordError);
      }
      if body.None? {
        return Failure(500, PasswordError);
      }
      var currentPassword, newPassword := body.value.currentPassword, body.value.newPassword;
      if !Truthy(currentPassword) || !Truthy(newPassword) {
        return Failure(400, PasswordsRequired);
      }
      if |newPassword.value| < 6 {
        return Failure(400, PasswordTooShort);
      }
      var id := decoded.userId;
      if id !in users {
        return Failure(404, UserNotFound);
      }
      var user := users[id];
      if !compare(currentPassword.value, user.passwordHash) {
        return Failure(400, WrongPassword);
      }
      user := user.(passwordHash := hash(newPassword.value));
      users := users[id := user];
      r := PasswordChanged(PasswordUpdated);
    }

    /** `PUT /api/profile`: collects `updateFields`, then writes them in one update. */
    method PutProfile(token: Option<string>, verify: string -> Verification, body: Option<ProfileBody>,
                      hash: string -> string, compare: (string, string) -> bool)
      returns (r: Response)
      requires Valid()
      modifies this
      ensures Valid() && nextId == old(nextId)
      ensures (r, users) == ProfilePut(token, verify, body, old(users), hash, compare)
    {
      if !Truthy(token) {
        return Failure(401, NotAuthenticated);
      }
      var decoded := VerifyToken(token.value, verify);
      if decoded.None? {
        return Failure(401, InvalidToken);
      }
      if body.None? {
        return Failure(500, ProfileError);
      }
      var data := body.value;
      var id := decoded.value;
      if id !in users {
        return Failure(404, UserNotFound);
      }
      var user := users[id];
      if Truthy(data.name) {
        user := user.(name := data.name.value);
      }
      if Truthy(data.email) {
        user := user.(email := data.email.value);
      }
      if data.avatar.Some? {
        user := user.(avatar := data.avatar);
      }
      if ChangesPassword(data) {
        if !compare(data.currentPassword.value, users[id].passwordHash) {
          return Failure(400, WrongPassword);
        }
        user := user.(passwordHash := hash(data.newPassword.value));
      }
      users := users[id := user];
      r := ProfileSaved(ProfileUpdated, ProfileOf(id, user));
    }
  }
}
