/** The client's session: the signed-in user, the token (in memory, in browser storage and
    as the default request header), the presence list, the socket and the loading flag,
    with the transitions of the authentication provider. */
module Session {
  import opened Wrappers
  import opened Api
  import opened Users

  /** A client socket; its handshake carries the user id as a query parameter. `serial`
      numbers the sockets in creation order, so two sockets of one user stay distinct. */
  datatype Socket = Socket(userId: UserId, serial: nat)

  /** `cleanup` is the socket that the cleanup registered by the last run of the socket
      effect disconnects when that effect runs again; `sockets` counts the sockets created. */
  datatype SessionState = SessionState(
    authUser: Option<User>,
    token: Option<string>,
    storedToken: Option<string>,
    header: Option<string>,
    onlineUsers: seq<UserId>,
    socket: Option<Socket>,
    isLoading: bool,
    cleanup: Option<Socket>,
    sockets: nat)

  /** What a transition asks of the outside world. */
  datatype Effect =
    | Connect(socket: Socket)
    | Disconnect(socket: Socket)
    | NotifySuccess(text: string)
    | NotifyError(text: string)

  datatype Step = Step(state: SessionState, effects: seq<Effect>)

  /** The body of a successful signup or login. */
  datatype AuthData = AuthData(userData: User, token: string, message: string)

  const MsgLoggedOut := "Logged out successfully."
  const MsgSessionExpired := "Session expired. Please log in again."
  const MsgSignupFailed := "Signup failed."
  const MsgLoginFailed := "Login failed."
  const MsgProfileFailed := "Profile update failed."
  const MsgProfileSaved := "Profile updated successfully."

  /** The state when the application loads, given what browser storage holds under "token":
      an empty stored token counts as none. */
  function Boot(stored: Option<string>): (s: SessionState)
    ensures s.token.Some? <==> Filled(stored)
    ensures s.token.Some? ==> s.token == stored
    ensures s.isLoading && s.authUser.None? && s.socket.None? && s.onlineUsers == [] && s.header.None?
  {
    SessionState(None, if Filled(stored) then stored else None, stored, None, [], None, true, None, 0)
  }

  /** `setAuthenticatedState`: the user and the token, everywhere the token lives. */
  function SetAuthenticated(s: SessionState, d: AuthData): (r: SessionState)
    ensures r.authUser == Some(d.userData)
    ensures r.token == Some(d.token) && r.storedToken == Some(d.token) && r.header == Some(d.token)
    ensures r.onlineUsers == s.onlineUsers && r.socket == s.socket && r.isLoading == s.isLoading
  {
    s.(authUser := Some(d.userData), token := Some(d.token), storedToken := Some(d.token), header := Some(d.token))
  }

  /** Nobody is signed in and no token is left anywhere. */
  predicate LoggedOut(s: SessionState) {
    && s.authUser.None?
    && s.token.None?
    && s.storedToken.None?
    && s.header.None?
    && s.onlineUsers == []
    && s.socket.None?
  }

  /** `logout`. */
  function Logout(s: SessionState): (r: Step)
    ensures LoggedOut(r.state) && r.state.isLoading == s.isLoading
    ensures s.socket.Some? ==> r.effects == [Disconnect(s.socket.value), NotifySuccess(MsgLoggedOut)]
    ensures s.socket.None? ==> r.effects == [NotifySuccess(MsgLoggedOut)]
  {
    var cleared := s.(authUser := None, token := None, storedToken := None, header := None, onlineUsers := [], socket := None);
    match s.socket
    case Some(sock) => Step(cleared, [Disconnect(sock), NotifySuccess(MsgLoggedOut)])
    case None => Step(cleared, [NotifySuccess(MsgLoggedOut)])
  }

  /** `checkAuth` with the answer of GET /api/auth/check: it is only asked when a token is
      held; a refused or failed check logs out; loading ends on every path. */
  function CheckAuth(s: SessionState, reply: Reply<User>): (r: Step)
    ensures !r.state.isLoading
    ensures !Filled(s.token) ==> r == Step(s.(isLoading := false), [])
    ensures Filled(s.token) && reply.Ok? ==>
              r == Step(s.(authUser := Some(reply.value), header := s.token, isLoading := false), [])
    ensures Filled(s.token) && !reply.Ok? ==> LoggedOut(r.state)
    ensures Filled(s.token) && reply.Thrown? ==>
              |r.effects| > 0 && r.effects[0] == NotifyError(ErrorText(reply.serverMessage, MsgSessionExpired))
  {
    if !Filled(s.token) then Step(s.(isLoading := false), [])
    else
      var asking := s.(header := s.token, isLoading := true);
      match reply
      case Ok(u) => Step(asking.(authUser := Some(u), isLoading := false), [])
      case Refused(_) =>
        var out := Logout(asking);
        Step(out.state.(isLoading := false), out.effects)
      case Thrown(text) =>
        var out := Logout(asking);
        Step(out.state.(isLoading := false), [NotifyError(ErrorText(text, MsgSessionExpired))] + out.effects)
  }

  /** Which of the two sign-in requests was made. */
  datatype AuthRequest = SignupRequest | LoginRequest

  /** The default message each request shows when the server gives none. */
  function FailureDefault(kind: AuthRequest): string {
    match kind
    case SignupRequest => MsgSignupFailed
    case LoginRequest => MsgLoginFailed
  }

  /** `signup` and `login` with the answer of their request. */
  function Authenticate(s: SessionState, reply: Reply<AuthData>, kind: AuthRequest): (r: Step)
    ensures reply.Ok? ==> r == Step(SetAuthenticated(s, reply.value), [NotifySuccess(reply.value.message)])
    ensures reply.Refused? ==> r == Step(s, [])
    ensures reply.Thrown? ==> r.state == s && |r.effects| == 1 && r.effects[0].NotifyError?
    ensures reply.Thrown? && Filled(reply.serverMessage) ==> r.effects == [NotifyError(reply.serverMessage.value)]
    ensures reply.Thrown? && !Filled(reply.serverMessage) ==>
              r.effects == [NotifyError(if kind == SignupRequest then "Signup failed." else "Login failed.")]
  {
    match reply
    case Ok(d) => Step(SetAuthenticated(s, d), [NotifySuccess(d.message)])
    case Refused(_) => Step(s, [])
    case Thrown(text) => Step(s, [NotifyError(ErrorText(text, FailureDefault(kind)))])
  }

  /** `updateProfile` with the answer of PUT /api/auth/update-profile. */
  function UpdateProfile(s: SessionState, reply: Reply<User>): (r: Step)
    ensures reply.Ok? ==> r == Step(s.(authUser := Some(reply.value)), [NotifySuccess(MsgProfileSaved)])
    ensures !reply.Ok? ==> r.state == s
    ensures reply.Refused? ==> r == Step(s, [])
    ensures reply.Thrown? ==> r.effects == [NotifyError(ErrorText(reply.serverMessage, MsgProfileFailed))]
  {
    match reply
    case Ok(u) => Step(s.(authUser := Some(u)), [NotifySuccess(MsgProfileSaved)])
    case Refused(_) => Step(s, [])
    case Thrown(text) => Step(s, [NotifyError(ErrorText(text, MsgProfileFailed))])
  }

  /** A "getOnlineUsers" event: the received list replaces the presence list. */
  function Presence(s: SessionState, ids: seq<UserId>): (r: SessionState)
    ensures r.onlineUsers == ids
    ensures r.(onlineUsers := s.onlineUsers) == s
  {
    s.(onlineUsers := ids)
  }

  /** The socket holds for the signed-in user and for nobody else. */
  predicate SocketMatchesUser(s: SessionState) {
    s.socket.Some? <==> s.authUser.Some?
  }

  /** The body of the socket effect: a socket is opened for a signed-in user who has none
      (and its disconnection registered as the effect's cleanup), and dropped when nobody
      is signed in. */
  function SocketLifecycle(s: SessionState): (r: Step)
    ensures s.authUser.Some? && s.socket.None? ==>
              var sock := Socket(s.authUser.value.id, s.sockets);
              && r.state == s.(socket := Some(sock), cleanup := Some(sock), sockets := s.sockets + 1)
              && r.effects == [Connect(sock)]
    ensures s.authUser.None? && s.socket.Some? ==>
              r == Step(s.(socket := None), [Disconnect(s.socket.value)])
    ensures SocketMatchesUser(s) ==> r == Step(s, [])
    ensures SocketMatchesUser(r.state)
    ensures r.state.(socket := s.socket, cleanup := s.cleanup, sockets := s.sockets) == s
  {
    if s.authUser.Some? && s.socket.None? then
      var sock := Socket(s.authUser.value.id, s.sockets);
      Step(s.(socket := Some(sock), cleanup := Some(sock), sockets := s.sockets + 1), [Connect(sock)])
    else if s.authUser.None? && s.socket.Some? then
      Step(s.(socket := None), [Disconnect(s.socket.value)])
    else
      Step(s, [])
  }

  /** No socket the step disconnects is still the one the session holds. */
  ghost predicate HoldsNoDisconnected(r: Step) {
    forall k :: Disconnect(k) in r.effects ==> r.state.socket != Some(k)
  }

  /** The sockets the session refers to were all created before its counter. */
  predicate SerialsFresh(s: SessionState) {
    && (s.socket.Some? ==> s.socket.value.serial < s.sockets)
    && (s.cleanup.Some? ==> s.cleanup.value.serial < s.sockets)
  }

  /** The session holds a socket exactly when a user is signed in, and it is that user's. */
  predicate SocketOwnedByUser(s: SessionState) {
    && SocketMatchesUser(s)
    && (s.socket.Some? ==> s.socket.value.userId == s.authUser.value.id)
  }

  /** As written: the socket effect re-running because `authUser` changed (every
      `setAuthUser` with a newly received record is such a change; `s` already holds the new
      value). The cleanup registered by the previous run disconnects the socket that run
      created, and then the effect body runs against the socket still held. */
  function SocketEffectRerun(s: SessionState): (r: Step)
    ensures r.state.authUser == s.authUser
    ensures s.cleanup.Some? ==> |r.effects| > 0 && r.effects[0] == Disconnect(s.cleanup.value)
    ensures s.authUser.Some? && s.socket.Some? ==> r.state.socket == s.socket
    ensures s.authUser.Some? && s.socket.None? ==>
              var sock := Socket(s.authUser.value.id, s.sockets);
              r.state.socket == Some(sock) && r.state.cleanup == Some(sock) && Connect(sock) in r.effects
    ensures s.authUser.None? ==> r.state.socket.None?
  {
    var body := SocketLifecycle(s.(cleanup := None));
    Step(body.state, (if s.cleanup.Some? then [Disconnect(s.cleanup.value)] else []) + body.effects)
  }

  /** A login opens a socket when the effect runs; the new token re-runs the auth check,
      whose answer sets a new record of the same user; the effect's next run disconnects that
      socket, while the session keeps holding it and opens no other. */
  lemma RefreshedUserLosesSocket(d: AuthData, again: User)
    requires d.token != "" && again.id == d.userData.id
    ensures var signedIn := SocketEffectRerun(Authenticate(Boot(None), Ok(d), LoginRequest).state);
            var refreshed := SocketEffectRerun(CheckAuth(signedIn.state, Ok(again)).state);
            var sock := Socket(d.userData.id, 0);
            && signedIn.state.socket == Some(sock)
            && Disconnect(sock) in refreshed.effects
            && refreshed.state.socket == Some(sock)
            && refreshed.state.authUser == Some(again)
            && !HoldsNoDisconnected(refreshed)
  {
  }

  /** Corrected: the socket effect keyed on the signed-in user's id; `prev` is the user the
      previous run saw. A new record of the same user keeps the socket; any other change
      disconnects the held socket, drops it, and opens one for the new user if there is one. */
  function SocketEffectRerunById(prev: Option<User>, s: SessionState): (r: Step)
    ensures r.state.authUser == s.authUser
    ensures SerialsFresh(s) ==> HoldsNoDisconnected(r) && SerialsFresh(r.state)
    ensures SocketOwnedByUser(s.(authUser := prev)) ==> SocketOwnedByUser(r.state)
    ensures prev.Some? && s.authUser.Some? && prev.value.id == s.authUser.value.id ==> r == Step(s, [])
  {
    if prev.Some? && s.authUser.Some? && prev.value.id == s.authUser.value.id then
      Step(s, [])
    else
      var body := SocketLifecycle(s.(socket := None, cleanup := None));
      Step(body.state, (if s.socket.Some? then [Disconnect(s.socket.value)] else []) + body.effects)
  }

  /** With the corrected effect the same login chain leaves the socket connected: the second
      run emits nothing and the session holds the socket the first run opened. */
  lemma RefreshedUserKeepsSocketById(d: AuthData, again: User)
    requires d.token != "" && again.id == d.userData.id
    ensures var signedIn := SocketEffectRerunById(None, Authenticate(Boot(None), Ok(d), LoginRequest).state);
            var refreshed := SocketEffectRerunById(Some(d.userData), CheckAuth(signedIn.state, Ok(again)).state);
            && signedIn.state.socket == Some(Socket(d.userData.id, 0))
            && refreshed.effects == []
            && refreshed.state.socket == Some(Socket(d.userData.id, 0))
            && refreshed.state.authUser == Some(again)
  {
  }

  /** A successful profile update sets a new record of the signed-in user, so the socket
      effect runs again: the cleanup disconnects the socket the session goes on holding. */
  lemma ProfileUpdateLosesSocket(s: SessionState, u: User)
    requires s.authUser.Some? && s.socket.Some? && s.cleanup == s.socket && u.id == s.authUser.value.id
    ensures var updated := UpdateProfile(s, Ok(u));
            var rerun := SocketEffectRerun(updated.state);
            && updated.effects == [NotifySuccess(MsgProfileSaved)]
            && Disconnect(s.socket.value) in rerun.effects
            && rerun.state.socket == s.socket
            && rerun.state.authUser == Some(u)
            && !HoldsNoDisconnected(rerun)
  {
  }

  /** With the corrected effect a profile update keeps the socket and emits nothing. */
  lemma ProfileUpdateKeepsSocketById(s: SessionState, u: User)
    requires s.authUser.Some? && s.socket.Some? && s.cleanup == s.socket && u.id == s.authUser.value.id
    ensures var updated := UpdateProfile(s, Ok(u)).state;
            SocketEffectRerunById(s.authUser, updated) == Step(updated, [])
  {
  }

  /** Two presence events in a row leave only the second: snapshots are not merged. */
  lemma PresenceLastWins(s: SessionState, first: seq<UserId>, second: seq<UserId>)
    ensures Presence(Presence(s, first), second) == Presence(s, second)
  {
  }

  /** A logout survives a reload: the next application load starts with no token, so it
      makes no auth check and nobody is signed in. */
  lemma LogoutSurvivesReload(s: SessionState, reply: Reply<User>)
    ensures var booted := Boot(Logout(s).state.storedToken);
            && booted.token.None?
            && CheckAuth(booted, reply) == Step(booted.(isLoading := false), [])
            && CheckAuth(booted, reply).state.authUser.None?
  {
  }

  /** After a logout the auth check asks nothing, whatever the server would answer: it only
      ends loading. */
  lemma CheckAuthAfterLogout(s: SessionState, reply: Reply<User>)
    ensures CheckAuth(Logout(s).state, reply) == Step(Logout(s).state.(isLoading := false), [])
  {
  }

  /** The token a sign-in stores is the one the next application load starts with. */
  lemma ReloadKeepsToken(s: SessionState, d: AuthData)
    requires d.token != ""
    ensures Boot(SetAuthenticated(s, d).storedToken).token == Some(d.token)
  {
  }
}
