# One-to-one chat: message store, account store and client state, in Dafny

This project models the core of a small one-to-one chat application: a browser client
and a REST + WebSocket server. The model covers:

- the server's **message store**: contact list with per-contact unseen counts,
  conversation history with its bulk mark-as-seen, single mark-as-seen, and send with
  a live push to the receiver's socket;
- the server's **account store**: signup, login and profile update;
- the client's **chat state**: open thread, contacts, unseen counters, selected contact;
- the client's **session**: signed-in user, token, presence list, socket, loading flag;
- the **message composer**: trim, empty guard, image-type check, send-button state;
- the **contact row**: online flag, unseen badge, status label.

Everything is a pure function over immutable values. Stores are sequences in insertion
order. The socket registry is an input map from user id to socket id. Live pushes, requests
and notifications are output lists. External services are function parameters:

- password hashing and comparison;
- token signing;
- the image host's upload, which returns a URL or fails;
- reading a file as a data URI;
- object URLs.

Modules:

| file | module | models |
|---|---|---|
| wrappers.dfy | `Wrappers` | `Option`, JavaScript truthiness of strings, `m[k] \|\| 0`, first-match search |
| api.dfy | `Api` | what an awaited request yields on the client, and the error-message fallback |
| users.dfy | `Users` | server/controllers/userController.js |
| messages.dfy | `Messages` | server/controllers/messageController.js |
| chat.dfy | `Chat` | clint/context/ChatContext.jsx |
| session.dfy | `Session` | clint/context/AuthContext.jsx |
| jsstring.dfy | `JsString` | `String.prototype.trim` and `startsWith` as the client uses them |
| composer.dfy | `Composer` | clint/src/components/MessageInput.jsx |
| contactrow.dfy | `ContactRow` | clint/src/components/UserListItem.jsx |
| consistency.dfy | `Consistency` | properties that connect the client's view to the server's store |

Modelling decisions:

- A JavaScript string field is truthy exactly when it is present and non-empty (`Filled`).
  Absent signup fields are modelled as `""`, and an absent `agreedToTerms` as `false`.
- Ids are strings throughout, so the contact row's `String(id)` is the id itself.
- The single mark-as-seen flips every record with the given id. Message ids are unique,
  as document ids are, so this is one record (`MarkMsgAsSeen` states this under `UniqueIds`).
- The document store's "first match" is the first match in insertion order.
- The server stores a message that has neither text nor image (`EmptyMessageAccepted`).
  A message is meant to carry text or an image, but nothing on the server enforces that;
  only the composer's guard (MessageInput.jsx:43) prevents an empty one.
- The bulk flip runs after the history query, so the history returned still shows the
  flipped messages as unseen (`HistoryIsPreFlip`).
- Switching to another contact keeps the previous thread on screen until the new
  history arrives, and a failed history request leaves it there under the new contact
  (`Chat.FailedFetchKeepsStaleThread`). Nothing checks which request a history answer
  belongs to, so a late answer for an earlier contact replaces the thread of the one now
  selected (`Chat.LateHistoryReplacesThread`).
- The selection effect runs only when the selection changes. Clearing an already clear
  selection leaves a late send reply on screen (`Chat.SecondDeselectKeepsLateReply`).
- A login body without a string password makes the password comparison throw, which
  the handler answers with a 500, but only for a known email: an unknown email is
  rejected before the comparison (`Users.MissingPasswordRevealsAccount`). An absent
  email is modelled as an email no user has.
- A send is two steps. The recipient is read when the request is made, and the created
  message is appended to whatever thread is shown when the answer arrives
  (`Chat.ReplyAfterSelectionChange`).
- The live push needs only a non-empty socket id in the registry. Nothing checks that
  the receiver is a stored user.

## Model

| member | source | states |
|---|---|---|
| Api.ErrorText | clint/context/AuthContext.jsx:54-57 | the message shown is the server's non-empty message, else the default, so it is never blank when the default is not |
| Users.FindByEmail | server/controllers/userController.js:28 | the lookup finds nothing exactly when no stored user has the email, and otherwise returns a stored user with that email |
| Users.Signup | server/controllers/userController.js:15-58 | any falsy field gives 400 and an existing email gives 409, both with the store unchanged; success happens exactly when the form is complete and the email is new; success appends exactly one user, with the hashed password and the given fields, and returns a token for its id; email uniqueness is preserved |
| Users.Login | server/controllers/userController.js:73-104 | a rejection is the 401 "Invalid email or password." or, exactly when the email is known and no password was sent (the comparison throws), the 500 "Internal server error"; an unknown email gets the 401; success needs a password and returns the stored user with that email, whose password matched, with a token for its id; with unique emails, success happens exactly when such a user exists |
| Users.SignupThenLogin | server/controllers/userController.js:73-98 | logging in with the email and password just used to sign up returns the created account and a token for its id, given that the password check accepts a password against its own hash |
| Users.LoginFailuresIndistinguishable | server/controllers/userController.js:79-87 | with a password sent, an unknown email and a wrong password produce the identical response |
| Users.MissingPasswordRevealsAccount | server/controllers/userController.js:76-104 | without a password, a known email gets a 500 and an unknown one a 401, so the answer tells which accounts exist |
| Users.UpdateById | server/controllers/userController.js:143-145 | the update changes only bio, full name and (when given) picture, only for the matching id; id, email, password and terms flag never change |
| Users.UpdateProfile | server/controllers/userController.js:125-158 | without a picture nothing is uploaded and the stored picture stays; with one, exactly one upload, and a failed upload is a 500 "Internal server error" with the store unchanged; success carries "Profile updated successfully."; only the caller's bio, full name and picture change; email and password never change |
| Users.UpdateProfileKeepsEmailsUnique | server/controllers/userController.js:130-145 | a profile update preserves email uniqueness |
| Messages.Contacts | server/controllers/messageController.js:18-20 | the contact list never contains the requesting user and contains every other user, without the password field |
| Messages.UnseenFrom | server/controllers/messageController.js:26-30 | exactly the stored messages from the contact to me that are not seen |
| Messages.UnseenCounts | server/controllers/messageController.js:23-37 | a contact has an entry exactly when it has at least one unseen message to me, and the entry is that count |
| Messages.GetSidebar | server/controllers/messageController.js:15-43 | the requester is in neither the list nor the map; every other user is listed; map entries are positive and equal the unseen count; a user has an entry exactly when its count is positive |
| Messages.Conversation | server/controllers/messageController.js:63-68 | exactly the messages between me and the selected user, in either direction |
| Messages.ConversationSymmetric | server/controllers/messageController.js:63-68 | both parties of a conversation get the same history |
| Messages.MarkConversationSeen | server/controllers/messageController.js:71-74 | only the seen flag changes, and it becomes true exactly on messages from the selected user to me; everything else is unchanged |
| Messages.GetAllMessages | server/controllers/messageController.js:60-79 | the answer is exactly the two-party conversation; afterwards nothing from the selected user to me is unseen and no other pair's unseen messages change |
| Messages.OpenClearsUnseen | server/controllers/messageController.js:71-74 | after opening, the selected user's unseen list for me is empty |
| Messages.OpenKeepsOtherUnseen | server/controllers/messageController.js:71-74 | opening one conversation leaves every other sender/receiver pair's unseen messages unchanged |
| Messages.ConversationAfterOpen | server/controllers/messageController.js:63-74 | the conversation read after the bulk update is the one read before it, with each message from the selected user to me marked seen |
| Messages.HistoryIsPreFlip | server/controllers/messageController.js:63-74 | the returned history is the pre-update snapshot: it equals the stored conversation afterwards except that messages from the selected user to me are now seen |
| Messages.MarkSeen | server/controllers/messageController.js:92 | only the seen flag of messages with the given id changes, to true |
| Messages.MarkMsgAsSeen | server/controllers/messageController.js:89-95 | success is reported whether or not the id exists; an unknown id leaves the store unchanged; with unique ids at most one record changes |
| Messages.MarkSeenIdempotent | server/controllers/messageController.js:92 | marking a message seen twice equals marking it once |
| Messages.SendMessage | server/controllers/messageController.js:109-143 | success appends exactly one message with the caller as sender, the path id as receiver and the given text, unseen; the image is set exactly when one was supplied, to the upload's URL; a failed upload is the only failure; one live push carrying the same record is made exactly when the registry maps the receiver to a socket; fresh ids keep ids unique |
| Messages.EmptyMessageAccepted | server/controllers/messageController.js:111-132 | a message with neither text nor image is stored |
| Messages.SendAddsOneUnseen | server/controllers/messageController.js:127-132 | a send adds exactly that message to the sender-to-receiver unseen list, and changes no other pair's |
| Messages.SentIsInReceiversHistory | server/controllers/messageController.js:127-132 | the sent message is in the receiver's next history, unseen |
| Chat.HandleNewMessage | clint/context/ChatContext.jsx:109-123 | from the open thread's contact: appended as seen, one mark-seen request for its id, counters unchanged; otherwise: thread unchanged, that sender's counter is the old value (default 0) plus one, every other counter unchanged |
| Chat.BackgroundMessagesAccumulate | clint/context/ChatContext.jsx:116-122 | after a run of live messages from contacts whose thread is not open, each counter has grown by that contact's number of messages and the thread is unchanged |
| Chat.SendMsg | clint/context/ChatContext.jsx:67-85 | the request goes to the contact selected when it is made; with nobody selected no request is made and the generic failure is shown; the state does not change |
| Chat.SendMsgReply | clint/context/ChatContext.jsx:74-84 | a created message is appended to the thread shown when the answer arrives, whoever is selected then; a refusal or a thrown error leaves the thread and shows one error, the server's message or the default |
| Chat.GetUsers | clint/context/ChatContext.jsx:32-47 | success replaces the contact list and the counters wholesale; a refusal changes nothing; a thrown error only shows a notification |
| Chat.GetMessages | clint/context/ChatContext.jsx:49-65 | success replaces the thread with the fetched list; failure leaves it; a refusal does nothing else |
| Chat.Select | clint/context/ChatContext.jsx:95-103 | setting the selection already held does nothing; otherwise deselecting clears the thread and selecting requests that contact's history |
| Chat.ThreadWithBase | clint/context/ChatContext.jsx:95-103 | at start-up and after a selected contact is cleared, every message shown belongs to the selected conversation (there are none) |
| Chat.HistoryEstablishesThread | clint/context/ChatContext.jsx:49-58 | loading the server's history for the selected contact shows only messages between me and that contact |
| Chat.LiveMessageKeepsThread | clint/context/ChatContext.jsx:109-123 | a live message addressed to me never puts a message from another conversation into the thread |
| Chat.SentMessageKeepsThread | clint/context/ChatContext.jsx:67-76 | a send to the selected contact whose answer arrives while that contact is still selected keeps the thread within that conversation |
| Chat.ReplyAfterSelectionChange | clint/context/ChatContext.jsx:67-76 | when the selection changes while a send is pending, the sent message is appended under the new selection, or alone to the cleared thread, and the thread no longer belongs to the selected conversation |
| Chat.FailedFetchKeepsStaleThread | clint/context/ChatContext.jsx:53-62 | after switching contacts, a failed history request leaves the previous contact's messages shown under the new contact |
| Chat.SecondDeselectKeepsLateReply | clint/context/ChatContext.jsx:67-76 | a send reply that lands after the selection was cleared stays on screen when the selection is cleared again |
| Chat.StrayMessageBreaksThread | clint/context/ChatContext.jsx:49-65 | a shown message of another conversation breaks the thread invariant |
| Chat.LateHistoryReplacesThread | clint/context/ChatContext.jsx:49-65 | when the user selects x and then y before x's history arrives, x's history replaces the thread under y |
| Session.Boot | clint/context/AuthContext.jsx:31-40 | on load the token is the stored one when it is non-empty, else none; loading, nobody signed in, no socket |
| Session.SetAuthenticated | clint/context/AuthContext.jsx:45-51 | the user is the received user, and the token, stored token and request header all equal the received token |
| Session.Logout | clint/context/AuthContext.jsx:116-127 | no user, no token, no stored token, no header, empty presence, no socket; an existing socket is disconnected |
| Session.CheckAuth | clint/context/AuthContext.jsx:64-86 | loading is false afterwards on every path; with no token nothing else changes; success sets the user; a refused or failed check ends logged out |
| Session.Authenticate | clint/context/AuthContext.jsx:89-113 | a successful signup or login sets the authenticated state and shows the server's message; a refusal changes nothing; a thrown error leaves the state and shows the server's message, or "Signup failed." / "Login failed." when it gives none |
| Session.UpdateProfile | clint/context/AuthContext.jsx:130-140 | success replaces the signed-in user; failure leaves the state; a refusal does nothing else |
| Session.Presence | clint/context/AuthContext.jsx:162-164 | a presence event replaces the presence list with the received one and changes nothing else |
| Session.PresenceLastWins | clint/context/AuthContext.jsx:162-164 | two presence events leave only the second list (no merge) |
| Session.SocketLifecycle | clint/context/AuthContext.jsx:150-176 | a socket is created only for a signed-in user who has none, and carries that user's id; it is dropped when nobody is signed in; afterwards a socket exists exactly when a user is signed in |
| Session.SocketEffectRerun | clint/context/AuthContext.jsx:150-176 | as written: when `authUser` changes, the cleanup of the previous effect run first disconnects the socket that run created, then the effect body keeps a socket that is still held |
| Session.RefreshedUserLosesSocket | clint/context/AuthContext.jsx:150-176 | a login, the effect run it causes, the auth check that the new token starts answering with the same user, and the next effect run: that socket is disconnected while the session goes on holding it |
| Session.SocketEffectRerunById | clint/context/AuthContext.jsx:150-176 | corrected: a record of the same user keeps the socket and emits nothing; no disconnected socket is ever still held; a socket exists exactly when a user is signed in and belongs to that user |
| Session.RefreshedUserKeepsSocketById | clint/context/AuthContext.jsx:150-176 | with the corrected effect, the same login chain keeps the socket opened at login and emits nothing on the second run |
| Session.ProfileUpdateLosesSocket | clint/context/AuthContext.jsx:130-176 | a successful profile update re-runs the socket effect, whose cleanup disconnects the socket the session goes on holding |
| Session.ProfileUpdateKeepsSocketById | clint/context/AuthContext.jsx:130-176 | with the corrected effect a profile update keeps the socket and emits nothing |
| Session.LogoutSurvivesReload | clint/context/AuthContext.jsx:116-118 | after a logout the next load has no token, makes no auth check and has nobody signed in |
| Session.CheckAuthAfterLogout | clint/context/AuthContext.jsx:64-68 | after a logout the auth check asks nothing and changes only the loading flag |
| Session.ReloadKeepsToken | clint/context/AuthContext.jsx:32-34 | the token stored by a sign-in is the token of the next load |
| JsString.Trim | clint/src/components/MessageInput.jsx:52 | the result has no whitespace at either end, is empty exactly when the input is all whitespace, and is the input with only leading and trailing whitespace removed |
| JsString.TrimIdempotent | clint/src/components/MessageInput.jsx:52 | trimming twice equals trimming once |
| Composer.HandleImageSelect | clint/src/components/MessageInput.jsx:19-31 | no file changes nothing; a file whose type does not start with "image/" is rejected with the preview unchanged; the preview changes only to an accepted image file |
| Composer.ClearImage | clint/src/components/MessageInput.jsx:33-39 | the preview is removed and its object URL released |
| Composer.SelectThenClear | clint/src/components/MessageInput.jsx:19-39 | selecting an image file and then clearing it gives back the composer without a preview and revokes exactly the URL created for it |
| Composer.SendEnabled | clint/src/components/MessageInput.jsx:122-124 | the button is disabled only when a submit would send nothing |
| Composer.HandleSubmit | clint/src/components/MessageInput.jsx:41-61 | blank text with no image is a no-op; the payload's text is the trimmed input, its image is absent exactly when no preview exists, and it is never empty; a completed send clears text and preview; a failure keeps both |
| Composer.SubmitNeedsEnabledButton | clint/src/components/MessageInput.jsx:122-124 | whenever a submit does anything, the send button was enabled |
| Composer.WhitespaceEnablesButSendsNothing | clint/src/components/MessageInput.jsx:43 | whitespace-only text with no image enables the button, yet submit is a no-op |
| ContactRow.Derive | clint/src/components/UserListItem.jsx:11-50 | online exactly when the id is in the presence list; the count is the counter or 0; the badge shows exactly when the counter is positive; the label is "Online" exactly when online, else "Offline" |
| Consistency.BadgeShowsServerCount | clint/src/components/UserListItem.jsx:39-44 | after the contact list loads, each row shows the server's unseen count for that contact, with a badge exactly when it is positive |
| Consistency.OpeningClearsBadge | server/controllers/messageController.js:71-74 | opening a conversation and reloading the contacts clears that contact's badge and leaves every other contact's count |
| Consistency.LiveCounterTracksServer | clint/context/ChatContext.jsx:116-122 | a live message for a closed thread raises the client's counter in step with the server's unseen count |
| Consistency.LiveReceiptKeepsServerCount | clint/context/ChatContext.jsx:110-115 | a live message for the open thread requests the mark-seen of exactly its id; once applied, the message is stored as seen and the server's unseen count is as before the send |
| Consistency.ProfileUpdateShowsStoredRecord | clint/context/AuthContext.jsx:130-136 | after a successful profile update the client's signed-in user is the record the server stored for me, with the submitted bio and full name |
| Consistency.OnlineLabelFollowsPresence | clint/src/components/UserListItem.jsx:46-50 | a contact's label follows only the latest presence snapshot |

## Findings

| source | as written | input that shows it | evidently intended | confidence | as-written member | corrected member |
|---|---|---|---|---|---|---|
| clint/context/AuthContext.jsx:150-176 | the socket effect depends on the user object, and its cleanup disconnects the socket; when the effect re-runs with a socket already held, it neither reconnects nor clears the socket | a login (the new token re-runs the auth check, which sets a fresh copy of the same user) or a successful profile update | the socket stays connected while the same user is signed in, so presence and live messages keep arriving | medium, not executed | Session.SocketEffectRerun, Session.RefreshedUserLosesSocket, Session.ProfileUpdateLosesSocket | Session.SocketEffectRerunById, Session.RefreshedUserKeepsSocketById, Session.ProfileUpdateKeepsSocketById |

## Left out

- Transport and storage: the document database, HTTP framework and request-size limit,
  route table, HTTP client, browser storage, notifications and rendering. Store failures
  that become a 500 are not modelled; a failed upload is.
- The socket registry's maintenance (connect, disconnect, presence broadcast) is not part
  of this model. The registry is only an input to the send handler.
- Credential and upload primitives are parameters: hashing (salt generation folded in),
  password comparison, token signing, the image host and the file reader.
- Concurrency: the per-contact queries of the contact-list handler run as a sequential
  fold, since they write distinct keys. Races between the bulk and single mark-seen paths
  are not modelled.
- Timestamps and schema options (`minlength`, the `unique` index, `require`) are not
  modelled. Email uniqueness is stated as an invariant the handlers preserve.
- Users.UpdateProfile: takes `bio` and `fullName` as given strings; the document store's
  handling of a field absent from the update is not modelled.
- Session.CheckAuth: uses the current socket when it logs out. In the source, the
  logout reached from the auth check sees the socket from the render that created the
  callback.
- Composer.HandleSubmit: the parent's send handler is a parameter that completes or
  throws (`delivered`). The component that wires it up is not part of this model. If that
  handler is the chat provider's `sendMsg`, which catches every error
  (ChatContext.jsx:80-84), it never throws: `delivered` is then always true, and a failed
  send still clears the draft. "A failure keeps both" holds only for a handler that throws.
  The submit is one step: text typed while the send is pending is not modelled, and the
  source wipes it when the send completes (MessageInput.jsx:55).
- Chat.Select: re-selecting the same contact object skips the history request in the
  source, because effects re-run only when a dependency changes by identity. Dafny values
  cannot tell that object from a fresh copy with the same fields, so the model compares
  by value, and selecting a fresh copy of the selected contact also skips the request.
- Clearing the file input element on clearImage, and the object URL left unreleased
  when a new image replaces an old preview, are DOM details not modelled.
- The unused `apiClient` null checks in the chat provider are not modelled: the client is
  created once at module load and is always present.
