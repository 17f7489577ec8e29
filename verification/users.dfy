/** The account store behind the authentication routes: signup, login and profile update
    over a sequence of user documents. Password hashing, password comparison, token
    signing and the image host are parameters of the operations: the model says where
    their results go, not what they compute. */
module Users {
  import opened Wrappers

  type UserId = string

  /** A stored user document (fields of the user schema; timestamps are not modelled).
      `password` holds the hash, never the plaintext. */
  datatype User = User(
    id: UserId,
    fullName: string,
    email: string,
    password: string,
    profilePic: string,
    bio: string,
    agreedToTerms: bool)

  /** A user document as the contact list sends it: every field but the password. */
  datatype Profile = Profile(
    id: UserId,
    fullName: string,
    email: string,
    profilePic: string,
    bio: string,
    agreedToTerms: bool)

  function Public(u: User): Profile {
    Profile(u.id, u.fullName, u.email, u.profilePic, u.bio, u.agreedToTerms)
  }

  const MsgMissingFields := "All fields are required."
  const MsgDuplicateEmail := "An account with this email already exists."
  const MsgBadCredentials := "Invalid email or password."
  const MsgServerError := "Internal server error"
  const MsgSignedUp := "Account created successfully."
  const MsgLoggedIn := "Login successful."
  const MsgProfileUpdated := "Profile updated successfully."

  /** The JSON answer of signup and login. */
  datatype AuthResponse =
    | Authenticated(status: nat, user: User, token: string, message: string)
    | Rejected(status: nat, message: string)

  /** The store after a request, with the answer to it. */
  datatype AuthResult = AuthResult(users: seq<User>, response: AuthResponse)

  /** No two stored users share an email (what the unique index is meant to guarantee). */
  ghost predicate EmailsUnique(users: seq<User>) {
    forall i, j :: 0 <= i < j < |users| ==> users[i].email != users[j].email
  }

  /** `findOne({ email })`: the first stored user with exactly this email. */
  function FindByEmail(users: seq<User>, email: string): (r: Option<User>)
    ensures r.None? <==> forall i :: 0 <= i < |users| ==> users[i].email != email
    ensures r.Some? ==> r.value in users && r.value.email == email
  {
    FindFirst(users, (u: User) => u.email == email)
  }

  /** The body of a signup request. Absent string fields are modelled as "" and an absent
      `agreedToTerms` as false: both are falsy in the source's validation. */
  datatype SignupForm = SignupForm(
    fullName: string,
    email: string,
    password: string,
    bio: string,
    agreedToTerms: bool)

  /** The validation of signup: every field truthy. */
  predicate Complete(f: SignupForm) {
    f.fullName != "" && f.email != "" && f.password != "" && f.bio != "" && f.agreedToTerms
  }

  /** POST /api/auth/signup. `hash` stands for salting and hashing the password,
      `sign` for issuing a token for a user id, `newId` for the id the store assigns. */
  function Signup(
    users: seq<User>, form: SignupForm,
    hash: string -> string, sign: UserId -> string, newId: UserId): (r: AuthResult)
    ensures !Complete(form) ==> r == AuthResult(users, Rejected(400, MsgMissingFields))
    ensures Complete(form) && (exists i :: 0 <= i < |users| && users[i].email == form.email) ==>
              r == AuthResult(users, Rejected(409, MsgDuplicateEmail))
    ensures r.response.Authenticated? <==>
              Complete(form) && forall i :: 0 <= i < |users| ==> users[i].email != form.email
    ensures r.response.Rejected? ==> r.users == users
    ensures r.response.Authenticated? ==>
              && |r.users| == |users| + 1
              && r.users[..|users|] == users
              && var created := r.users[|users|];
              && created == r.response.user
              && created.id == newId
              && created.email == form.email
              && created.fullName == form.fullName
              && created.bio == form.bio
              && created.agreedToTerms
              && created.password == hash(form.password)
              && created.profilePic == ""
              && r.response.token == sign(newId)
              && r.response.status == 201
    ensures EmailsUnique(users) ==> EmailsUnique(r.users)
  {
    if !Complete(form) then
      AuthResult(users, Rejected(400, MsgMissingFields))
    else if FindByEmail(users, form.email).Some? then
      AuthResult(users, Rejected(409, MsgDuplicateEmail))
    else
      var created := User(newId, form.fullName, form.email, hash(form.password), "", form.bio, form.agreedToTerms);
      AuthResult(users + [created], Authenticated(201, created, sign(newId), MsgSignedUp))
  }

  /** POST /api/auth/login. `password` is None when the body carries no string password;
      the password comparison then throws, which the handler answers with a 500. The
      comparison only runs when a user with the email exists. `matches(plain, hashed)`
      stands for the comparison of two strings. */
  function Login(
    users: seq<User>, email: string, password: Option<string>,
    matches: (string, string) -> bool, sign: UserId -> string): (r: AuthResponse)
    ensures r.Rejected? ==> r == Rejected(401, MsgBadCredentials) || r == Rejected(500, MsgServerError)
    ensures r == Rejected(500, MsgServerError) <==> password.None? && FindByEmail(users, email).Some?
    ensures (forall i :: 0 <= i < |users| ==> users[i].email != email) ==> r == Rejected(401, MsgBadCredentials)
    ensures r.Authenticated? ==>
              && password.Some?
              && r.user in users
              && r.user.email == email
              && matches(password.value, r.user.password)
              && r.token == sign(r.user.id)
              && r.status == 200
    ensures EmailsUnique(users) ==>
              (r.Authenticated? <==>
                 password.Some? &&
                 exists i :: 0 <= i < |users| && users[i].email == email && matches(password.value, users[i].password))
  {
    match FindByEmail(users, email)
    case None => Rejected(401, MsgBadCredentials)
    case Some(u) =>
      match password
      case None => Rejected(500, MsgServerError)
      case Some(plain) =>
        if !matches(plain, u.password) then Rejected(401, MsgBadCredentials)
        else Authenticated(200, u, sign(u.id), MsgLoggedIn)
  }

  /** The fields a profile update writes: always `bio` and `fullName`, and the picture URL
      only when one was uploaded. */
  datatype ProfileEdit = ProfileEdit(bio: string, fullName: string, picture: Option<string>)

  /** `findByIdAndUpdate(id, edit)` on the store. */
  function UpdateById(users: seq<User>, id: UserId, edit: ProfileEdit): (r: seq<User>)
    ensures |r| == |users|
    ensures forall i :: 0 <= i < |users| ==>
              && r[i].id == users[i].id
              && r[i].email == users[i].email
              && r[i].password == users[i].password
              && r[i].agreedToTerms == users[i].agreedToTerms
    ensures forall i :: 0 <= i < |users| && users[i].id != id ==> r[i] == users[i]
    ensures forall i :: 0 <= i < |users| && users[i].id == id ==>
              && r[i].bio == edit.bio
              && r[i].fullName == edit.fullName
              && r[i].profilePic == edit.picture.GetOr(users[i].profilePic)
  {
    if users == [] then []
    else
      var u := users[0];
      var u' := if u.id == id then u.(bio := edit.bio, fullName := edit.fullName, profilePic := edit.picture.GetOr(u.profilePic)) else u;
      var rest := UpdateById(users[1..], id, edit);
      assert forall i :: 1 <= i < |users| ==> ([u'] + rest)[i] == rest[i - 1] && users[i] == users[1..][i - 1];
      [u'] + rest
  }

  /** The body of a profile update; `profilePic` is an image data URI, if any. */
  datatype ProfileForm = ProfileForm(profilePic: Option<string>, bio: string, fullName: string)

  /** 200 with the updated document (`null` when no user has the id), or 500. */
  datatype ProfileResponse =
    | ProfileUpdated(user: Option<User>, message: string)
    | ProfileFailed(status: nat, message: string)

  /** The store after the update, the answer, and the data URIs handed to the image host. */
  datatype ProfileResult = ProfileResult(users: seq<User>, response: ProfileResponse, uploads: seq<string>)

  /** PUT /api/auth/update-profile for the authenticated user `me`. `upload` stands for the
      image host: the secure URL of the stored picture, or None when the upload throws. */
  function UpdateProfile(users: seq<User>, me: UserId, form: ProfileForm, upload: string -> Option<string>): (r: ProfileResult)
    ensures Filled(form.profilePic) ==> r.uploads == [form.profilePic.value]
    ensures !Filled(form.profilePic) ==> r.uploads == [] && r.response.ProfileUpdated?
    ensures r.response.ProfileFailed? ==> r.users == users && r.response == ProfileFailed(500, MsgServerError)
    ensures r.response.ProfileUpdated? ==> r.response.message == MsgProfileUpdated
    ensures r.response.ProfileFailed? <==> Filled(form.profilePic) && upload(form.profilePic.value).None?
    ensures |r.users| == |users|
    ensures forall i :: 0 <= i < |users| ==>
              && r.users[i].id == users[i].id
              && r.users[i].email == users[i].email
              && r.users[i].password == users[i].password
              && r.users[i].agreedToTerms == users[i].agreedToTerms
    ensures forall i :: 0 <= i < |users| && users[i].id != me ==> r.users[i] == users[i]
    ensures r.response.ProfileUpdated? ==>
              forall i :: 0 <= i < |users| && users[i].id == me ==>
                && r.users[i].bio == form.bio
                && r.users[i].fullName == form.fullName
                && r.users[i].profilePic ==
                     (if Filled(form.profilePic) then upload(form.profilePic.value).value else users[i].profilePic)
    ensures r.response.ProfileUpdated? ==>
              (r.response.user.Some? <==> exists i :: 0 <= i < |users| && users[i].id == me)
    ensures r.response.ProfileUpdated? && r.response.user.Some? ==>
              r.response.user.value in r.users && r.response.user.value.id == me
  {
    if Filled(form.profilePic) then
      match upload(form.profilePic.value)
      case None => ProfileResult(users, ProfileFailed(500, MsgServerError), [form.profilePic.value])
      case Some(url) =>
        var users' := UpdateById(users, me, ProfileEdit(form.bio, form.fullName, Some(url)));
        ProfileResult(users', ProfileUpdated(FindFirst(users', (u: User) => u.id == me), MsgProfileUpdated), [form.profilePic.value])
    else
      var users' := UpdateById(users, me, ProfileEdit(form.bio, form.fullName, None));
      ProfileResult(users', ProfileUpdated(FindFirst(users', (u: User) => u.id == me), MsgProfileUpdated), [])
  }

  /** A profile update never makes two accounts share an email. */
  lemma UpdateProfileKeepsEmailsUnique(users: seq<User>, me: UserId, form: ProfileForm, upload: string -> Option<string>)
    requires EmailsUnique(users)
    ensures EmailsUnique(UpdateProfile(users, me, form, upload).users)
  {
  }

  /** The two ways a login with a password can fail, an unknown email and a wrong
      password, give one and the same answer: the response does not tell which accounts
      exist. */
  lemma LoginFailuresIndistinguishable(
    users: seq<User>, unknown: string, known: string, guess: string, wrong: string,
    matches: (string, string) -> bool, sign: UserId -> string)
    requires forall i :: 0 <= i < |users| ==> users[i].email != unknown
    requires FindByEmail(users, known).Some? && !matches(wrong, FindByEmail(users, known).value.password)
    ensures Login(users, unknown, Some(guess), matches, sign) == Login(users, known, Some(wrong), matches, sign)
    ensures Login(users, unknown, Some(guess), matches, sign) == Rejected(401, MsgBadCredentials)
  {
  }

  /** Signing up and then logging in with the same email and password returns the account
      just created, when the password check accepts a password against its own hash. */
  lemma SignupThenLogin(
    users: seq<User>, form: SignupForm, hash: string -> string, matches: (string, string) -> bool,
    sign: UserId -> string, newId: UserId)
    requires Signup(users, form, hash, sign, newId).response.Authenticated?
    requires forall p :: matches(p, hash(p))
    ensures var signed := Signup(users, form, hash, sign, newId);
            Login(signed.users, form.email, Some(form.password), matches, sign) ==
              Authenticated(200, signed.response.user, sign(newId), MsgLoggedIn)
  {
  }

  /** A login without a password does tell which accounts exist: a known email gets a 500,
      an unknown one the usual 401. */
  lemma MissingPasswordRevealsAccount(
    users: seq<User>, known: string, unknown: string,
    matches: (string, string) -> bool, sign: UserId -> string)
    requires exists i :: 0 <= i < |users| && users[i].email == known
    requires forall i :: 0 <= i < |users| ==> users[i].email != unknown
    ensures Login(users, known, None, matches, sign) == Rejected(500, MsgServerError)
    ensures Login(users, unknown, None, matches, sign) == Rejected(401, MsgBadCredentials)
  {
  }
}
